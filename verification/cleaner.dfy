/**
 * `clean_text_for_voiceover`: the four text rewrites that turn the formatted
 * recipe into the text handed to the speech synthesizer. Each `re.sub` is a
 * function that scans the text left to right the way the regular-expression
 * engine does, and `Clean` is their composition.
 */
module Cleaner {
  import opened Text

  // ---------------------------------------------------------------------
  // Stage 1: emphasis markers, `[\*]{1,2}|[_]{1,2}` replaced by ''.
  // ---------------------------------------------------------------------

  predicate IsMarker(c: char)
  {
    c == '*' || c == '_'
  }

  predicate NoMarkers(s: string)
  {
    '*' !in s && '_' !in s
  }

  /** Reference definition: every `*` and `_` deleted, every other character kept in order. */
  function WithoutMarkers(s: string): (r: string)
    ensures NoMarkers(r)
    ensures |r| <= |s|
  {
    if s == [] then []
    else if IsMarker(s[0]) then WithoutMarkers(s[1..])
    else [s[0]] + WithoutMarkers(s[1..])
  }

  /**
   * The substitution as the regex engine performs it: at a marker it
   * consumes one or, greedily, two copies of that same marker.
   */
  function StripEmphasis(s: string): string
    decreases |s|
  {
    if s == [] then []
    else if IsMarker(s[0]) then
      var n := if |s| >= 2 && s[1] == s[0] then 2 else 1;
      StripEmphasis(s[n..])
    else [s[0]] + StripEmphasis(s[1..])
  }

  /** Removing runs of one or two markers removes exactly the markers. */
  lemma {:induction false} StripEmphasisIsWithoutMarkers(s: string)
    ensures StripEmphasis(s) == WithoutMarkers(s)
    decreases |s|
  {
    if s != [] {
      if IsMarker(s[0]) && |s| >= 2 && s[1] == s[0] {
        StripEmphasisIsWithoutMarkers(s[2..]);
        assert s[1..][1..] == s[2..];
      } else {
        StripEmphasisIsWithoutMarkers(s[1..]);
      }
    }
  }

  lemma {:induction false} WithoutMarkersAppend(a: string, b: string)
    ensures WithoutMarkers(a + b) == WithoutMarkers(a) + WithoutMarkers(b)
  {
    if a != [] {
      assert (a + b)[1..] == a[1..] + b;
      WithoutMarkersAppend(a[1..], b);
    } else {
      assert a + b == b;
    }
  }

  lemma {:induction false} WithoutMarkersKeeps(s: string)
    requires NoMarkers(s)
    ensures WithoutMarkers(s) == s
  {
    if s != [] {
      assert s[0] in s;
      SliceAvoids(s, '*', 1, |s|);
      SliceAvoids(s, '_', 1, |s|);
      WithoutMarkersKeeps(s[1..]);
    }
  }

  // ---------------------------------------------------------------------
  // Stage 2: heading markers, `#+ ` replaced by '' anywhere in the text.
  // ---------------------------------------------------------------------

  /** Length of the run of `#` at the front of `s`. */
  function HashRun(s: string): (n: nat)
    ensures n <= |s|
    ensures n < |s| ==> s[n] != '#'
  {
    if s == [] || s[0] != '#' then 0 else 1 + HashRun(s[1..])
  }

  /** `#+ ` matches at the front of `s`: a run of `#` directly followed by a space. */
  predicate HeadingAt(s: string)
  {
    var n := HashRun(s);
    0 < n < |s| && s[n] == ' '
  }

  function StripHeadings(s: string): string
    decreases |s|
  {
    if s == [] then []
    else if HeadingAt(s) then StripHeadings(s[HashRun(s) + 1..])
    else [s[0]] + StripHeadings(s[1..])
  }

  /** No `#` is directly followed by a space. */
  predicate NoHeadingMarker(s: string)
  {
    forall i :: 0 <= i < |s| - 1 && s[i] == '#' ==> s[i + 1] != ' '
  }

  lemma StripHeadingsHead(s: string)
    requires s != [] && !HeadingAt(s)
    ensures StripHeadings(s) != [] && StripHeadings(s)[0] == s[0]
  {
  }

  /** After stage 2 no `#` is followed by a space. */
  lemma {:induction false} StripHeadingsLeavesNoMarker(s: string)
    ensures NoHeadingMarker(StripHeadings(s))
    decreases |s|
  {
    if s == [] {
    } else if HeadingAt(s) {
      StripHeadingsLeavesNoMarker(s[HashRun(s) + 1..]);
    } else {
      var t := s[1..];
      var r := StripHeadings(t);
      StripHeadingsLeavesNoMarker(t);
      if s[0] == '#' && r != [] {
        assert t != [];
        if t[0] == '#' {
          assert HashRun(s) == 1 + HashRun(t);
          StripHeadingsHead(t);
        } else {
          assert HashRun(s) == 1;
          StripHeadingsHead(t);
        }
        assert r[0] != ' ';
      }
      var out := [s[0]] + r;
      assert StripHeadings(s) == out;
      forall i | 0 <= i < |out| - 1 && out[i] == '#' ensures out[i + 1] != ' ' {
        if i > 0 {
          assert out[i] == r[i - 1] && out[i + 1] == r[i];
        }
      }
    }
  }

  /** Text without `#` passes through stage 2 unchanged. */
  lemma {:induction false} StripHeadingsPlain(p: string, q: string)
    requires '#' !in p
    ensures StripHeadings(p + q) == p + StripHeadings(q)
  {
    if p != [] {
      assert (p + q)[0] == p[0];
      assert (p + q)[1..] == p[1..] + q;
      SliceAvoids(p, '#', 1, |p|);
      StripHeadingsPlain(p[1..], q);
    } else {
      assert p + q == q;
    }
  }

  /** A run of `#` followed by a space is deleted. */
  lemma StripHeadingsRemoves(hashes: string, q: string)
    requires hashes != [] && forall i :: 0 <= i < |hashes| ==> hashes[i] == '#'
    ensures StripHeadings(hashes + " " + q) == StripHeadings(q)
  {
    var s := hashes + " " + q;
    HashRunIs(s, |hashes|);
    assert s[|hashes| + 1..] == q;
  }

  /** A run of `#` not followed by a space is kept as it is. */
  lemma {:induction false} StripHeadingsKeepsHashes(hs: string, q: string)
    requires forall i :: 0 <= i < |hs| ==> hs[i] == '#'
    requires q == [] || (q[0] != '#' && q[0] != ' ')
    ensures StripHeadings(hs + q) == hs + StripHeadings(q)
  {
    if hs != [] {
      var s := hs + q;
      HashesThenOther(hs, q);
      StripHeadingsSkip(s);
      StripHeadingsKeepsHashes(hs[1..], q);
      ConsAppend(hs, StripHeadings(q));
    } else {
      assert hs + q == q;
    }
  }

  lemma HashesThenOther(hs: string, q: string)
    requires hs != [] && forall i :: 0 <= i < |hs| ==> hs[i] == '#'
    requires q == [] || (q[0] != '#' && q[0] != ' ')
    ensures (hs + q) != [] && !HeadingAt(hs + q)
    ensures (hs + q)[0] == hs[0] && (hs + q)[1..] == hs[1..] + q
  {
    var s := hs + q;
    HashRunPrefix(hs, q);
    assert s[1..] == hs[1..] + q;
    if q != [] {
      assert s[|hs|] == q[0];
    }
  }

  /** Where no heading marker starts, stage 2 keeps the first character and moves on. */
  lemma StripHeadingsSkip(s: string)
    requires s != [] && !HeadingAt(s)
    ensures StripHeadings(s) == [s[0]] + StripHeadings(s[1..])
  {
  }

  /** The run `HashRun` measures is made of `#`. */
  lemma {:induction false} HashRunAll(p: string)
    ensures forall i :: 0 <= i < HashRun(p) ==> p[i] == '#'
  {
    if p != [] && p[0] == '#' {
      HashRunAll(p[1..]);
      assert forall i :: 1 <= i < HashRun(p) ==> p[i] == p[1..][i - 1];
    }
  }

  /** The `#` run at the front of `p + q` is that of `p` when it ends inside `p`, or all of `p` when `q` starts with no `#`. */
  lemma {:induction false} HashRunPrefix(p: string, q: string)
    requires HashRun(p) < |p| || ((forall i :: 0 <= i < |p| ==> p[i] == '#') && (q == [] || q[0] != '#'))
    ensures HashRun(p + q) == HashRun(p)
  {
    if p == [] {
      assert p + q == q;
    } else {
      assert (p + q)[0] == p[0];
      assert (p + q)[1..] == p[1..] + q;
      if p[0] == '#' {
        HashRunPrefix(p[1..], q);
      }
    }
  }

  /**
   * Stage 2 works piece by piece: text that does not end with `#` is
   * rewritten the same whatever follows it.
   */
  lemma {:induction false} StripHeadingsAppend(p: string, r: string)
    requires p == [] || p[|p| - 1] != '#'
    ensures StripHeadings(p + r) == StripHeadings(p) + StripHeadings(r)
    decreases |p|
  {
    if p == [] {
      assert p + r == r;
    } else {
      var s := p + r;
      var n := HashRun(p);
      HashRunAll(p);
      assert n < |p|;
      HashRunPrefix(p, r);
      assert s[n] == p[n];
      var k := if HeadingAt(p) then n + 1 else 1;
      assert HeadingAt(s) == HeadingAt(p);
      assert s[k..] == p[k..] + r;
      StripHeadingsAppend(p[k..], r);
      if !HeadingAt(p) {
        StripHeadingsSkip(s);
        StripHeadingsSkip(p);
        assert s[0] == p[0];
      }
    }
  }

  lemma {:induction false} HashRunIs(s: string, n: nat)
    requires n < |s|
    requires forall i :: 0 <= i < n ==> s[i] == '#'
    requires s[n] != '#'
    ensures HashRun(s) == n
  {
    if n > 0 {
      HashRunIs(s[1..], n - 1);
    }
  }

  lemma {:induction false} StripHeadingsKeepsNoMarkers(s: string)
    requires NoMarkers(s)
    ensures NoMarkers(StripHeadings(s))
    decreases |s|
  {
    if s != [] {
      var k := if HeadingAt(s) then HashRun(s) + 1 else 1;
      SliceAvoids(s, '*', k, |s|);
      SliceAvoids(s, '_', k, |s|);
      StripHeadingsKeepsNoMarkers(s[k..]);
    }
  }

  // ---------------------------------------------------------------------
  // Stage 3: numbered steps, `(\d+)\.\s*` replaced by `replace_numbered_list`.
  // ---------------------------------------------------------------------

  function DigitValue(c: char): (d: nat)
    requires IsDigit(c)
    ensures d < 10
  {
    (c as int) - ('0' as int)
  }

  function DigitChar(d: nat): (c: char)
    requires d < 10
    ensures IsDigit(c) && DigitValue(c) == d
  {
    (('0' as int) + d) as char
  }

  /** Python's `int(digits)` on a run of decimal digits. */
  function DigitsValue(ds: string): nat
    requires AllDigits(ds)
  {
    if ds == [] then 0
    else DigitsValue(ds[..|ds| - 1]) * 10 + DigitValue(ds[|ds| - 1])
  }

  /** Python's `str(n)` for a natural number: decimal digits without leading zeros. */
  function Decimal(n: nat): (r: string)
    ensures r != [] && AllDigits(r)
    ensures r[0] == '0' ==> r == "0"
    ensures DigitsValue(r) == n
  {
    if n < 10 then [DigitChar(n)]
    else
      var r := Decimal(n / 10) + [DigitChar(n % 10)];
      assert r[..|r| - 1] == Decimal(n / 10);
      r
  }

  /** Leading zeros do not change the value `int()` reads. */
  lemma {:induction false} LeadingZeroDrops(ds: string)
    requires AllDigits(ds)
    ensures AllDigits("0" + ds) && DigitsValue("0" + ds) == DigitsValue(ds)
  {
    var zs := "0" + ds;
    if ds != [] {
      LeadingZeroDrops(ds[..|ds| - 1]);
      assert zs[..|zs| - 1] == "0" + ds[..|ds| - 1];
    }
  }

  lemma {:induction false} DigitsValuePositive(ds: string)
    requires AllDigits(ds) && ds != [] && ds[0] != '0'
    ensures DigitsValue(ds) > 0
  {
    if |ds| > 1 {
      DigitsValuePositive(ds[..|ds| - 1]);
    }
  }

  /** Digits without leading zeros print back as themselves. */
  lemma {:induction false} DecimalOfDigits(ds: string)
    requires AllDigits(ds) && ds != [] && (ds[0] == '0' ==> |ds| == 1)
    ensures Decimal(DigitsValue(ds)) == ds
  {
    if |ds| > 1 {
      var p, c := ds[..|ds| - 1], ds[|ds| - 1];
      LastDigit(ds);
      DigitsValuePositive(p);
      DecimalOfDigits(p);
      DecimalStep(DigitsValue(p), DigitValue(c));
    }
  }

  lemma LastDigit(ds: string)
    requires AllDigits(ds) && |ds| > 1
    ensures var p, c := ds[..|ds| - 1], ds[|ds| - 1];
      && AllDigits(p) && p != [] && p[0] == ds[0]
      && IsDigit(c) && DigitChar(DigitValue(c)) == c
      && ds == p + [c]
      && DigitsValue(ds) == DigitsValue(p) * 10 + DigitValue(c)
  {
  }

  /** Appending a digit to a positive number appends its character to the decimal text. */
  lemma DecimalStep(v: nat, d: nat)
    requires v > 0 && d < 10
    ensures Decimal(v * 10 + d) == Decimal(v) + [DigitChar(d)]
  {
    DivModTen(v, d);
  }

  lemma DivModTen(v: nat, d: nat)
    requires d < 10
    ensures (v * 10 + d) / 10 == v && (v * 10 + d) % 10 == d
  {
  }

  const NUMBER_WORDS: seq<string> := ["one", "two", "three", "four", "five", "six", "seven", "eight", "nine", "ten"]

  /** Python's `xs[i]`, where a negative index counts from the end. */
  function PyIndex<T>(xs: seq<T>, i: int): T
    requires -|xs| <= i < |xs|
  {
    if i < 0 then xs[|xs| + i] else xs[i]
  }

  /** `replace_numbered_list` applied to the number `int(digits)`. */
  function StepLabel(n: nat): (r: string)
    ensures NoMarkers(r)
  {
    if n <= |NUMBER_WORDS| then "Step " + PyIndex(NUMBER_WORDS, n - 1) + ": "
    else "Step " + Decimal(n) + ": "
  }

  /** Length of the digit run at the front of `s`. */
  function DigitRun(s: string): (n: nat)
    ensures n <= |s|
    ensures AllDigits(s[..n])
    ensures n < |s| ==> !IsDigit(s[n])
  {
    if s == [] || !IsDigit(s[0]) then 0 else 1 + DigitRun(s[1..])
  }

  /** `(\d+)\.` matches at the front of `s`: the whole digit run, then a period. */
  predicate NumberAt(s: string)
  {
    var n := DigitRun(s);
    0 < n < |s| && s[n] == '.'
  }

  function ReplaceSteps(s: string): string
    decreases |s|
  {
    if s == [] then []
    else if NumberAt(s) then
      var n := DigitRun(s);
      var rest := s[n + 1..];
      StepLabel(DigitsValue(s[..n])) + ReplaceSteps(rest[SpaceRun(rest)..])
    else [s[0]] + ReplaceSteps(s[1..])
  }

  predicate NoDigits(s: string)
  {
    forall i :: 0 <= i < |s| ==> !IsDigit(s[i])
  }

  /** Text without digits passes through stage 3 unchanged. */
  lemma {:induction false} ReplaceStepsPlain(p: string, q: string)
    requires NoDigits(p)
    ensures ReplaceSteps(p + q) == p + ReplaceSteps(q)
  {
    if p != [] {
      PlainThenAny(p, q);
      ReplaceStepsSkip(p + q);
      ReplaceStepsPlain(p[1..], q);
      ConsAppend(p, ReplaceSteps(q));
    } else {
      assert p + q == q;
    }
  }

  lemma PlainThenAny(p: string, q: string)
    requires p != [] && NoDigits(p)
    ensures (p + q) != [] && !NumberAt(p + q)
    ensures (p + q)[0] == p[0] && (p + q)[1..] == p[1..] + q
    ensures NoDigits(p[1..])
  {
    var s := p + q;
    assert s[0] == p[0] && !IsDigit(s[0]);
    assert DigitRun(s) == 0;
    assert s[1..] == p[1..] + q;
    forall i | 0 <= i < |p| - 1 ensures !IsDigit(p[1..][i]) {
      assert p[1..][i] == p[i + 1];
    }
  }

  /**
   * A maximal digit run followed by a period, and the whitespace after the
   * period, become the step label of the run's value.
   */
  lemma ReplaceStepsNumber(ds: string, ws: string, q: string)
    requires ds != [] && AllDigits(ds) && AllSpace(ws)
    requires q == [] || !IsSpace(q[0])
    ensures ReplaceSteps(ds + "." + ws + q) == StepLabel(DigitsValue(ds)) + ReplaceSteps(q)
  {
    var s := ds + "." + ws + q;
    NumberParts(ds, ws, q);
    DigitRunIs(s, |ds|);
    SpaceRunIs(ws + q, |ws|);
    ReplaceStepsAt(s);
  }

  /** Where a step number starts, stage 3 emits its label and skips the whitespace after the period. */
  lemma ReplaceStepsAt(s: string)
    requires NumberAt(s)
    ensures var n := DigitRun(s);
      var rest := s[n + 1..];
      ReplaceSteps(s) == StepLabel(DigitsValue(s[..n])) + ReplaceSteps(rest[SpaceRun(rest)..])
  {
  }

  lemma NumberParts(ds: string, ws: string, q: string)
    ensures var s := ds + "." + ws + q;
      && |s| == |ds| + 1 + |ws| + |q|
      && s[..|ds|] == ds && s[|ds|] == '.' && s[|ds| + 1..] == ws + q
      && (ws + q)[..|ws|] == ws && (ws + q)[|ws|..] == q
  {
  }

  /** A digit run not followed by a period is kept as it is. */
  lemma {:induction false} ReplaceStepsKeepsNumber(ds: string, q: string)
    requires AllDigits(ds)
    requires q == [] || (!IsDigit(q[0]) && q[0] != '.')
    ensures ReplaceSteps(ds + q) == ds + ReplaceSteps(q)
  {
    if ds != [] {
      var s := ds + q;
      DigitsThenOther(ds, q);
      ReplaceStepsSkip(s);
      ReplaceStepsKeepsNumber(ds[1..], q);
      ConsAppend(ds, ReplaceSteps(q));
    } else {
      assert ds + q == q;
    }
  }

  /** A digit run followed by anything but a digit or a period is not a step number. */
  lemma DigitsThenOther(ds: string, q: string)
    requires ds != [] && AllDigits(ds)
    requires q == [] || (!IsDigit(q[0]) && q[0] != '.')
    ensures (ds + q) != [] && !NumberAt(ds + q)
    ensures (ds + q)[0] == ds[0] && (ds + q)[1..] == ds[1..] + q
    ensures AllDigits(ds[1..])
  {
    var s := ds + q;
    assert s[..|ds|] == ds;
    DigitRunIs(s, |ds|);
    assert s[1..] == ds[1..] + q;
    forall i | 0 <= i < |ds| - 1 ensures IsDigit(ds[1..][i]) {
      assert ds[1..][i] == ds[i + 1];
    }
  }

  lemma ConsAppend(x: string, r: string)
    requires x != []
    ensures [x[0]] + (x[1..] + r) == x + r
  {
  }

  /** Where no step number starts, stage 3 keeps the first character and moves on. */
  lemma ReplaceStepsSkip(s: string)
    requires s != [] && !NumberAt(s)
    ensures ReplaceSteps(s) == [s[0]] + ReplaceSteps(s[1..])
  {
  }

  lemma {:induction false} DigitRunIs(s: string, n: nat)
    requires n <= |s| && AllDigits(s[..n])
    requires n < |s| ==> !IsDigit(s[n])
    ensures DigitRun(s) == n
  {
    if n > 0 {
      assert IsDigit(s[..n][0]);
      assert s[1..][..n - 1] == s[..n][1..];
      DigitRunIs(s[1..], n - 1);
    }
  }

  lemma {:induction false} SpaceRunIs(s: string, n: nat)
    requires n <= |s| && AllSpace(s[..n])
    requires n < |s| ==> !IsSpace(s[n])
    ensures SpaceRun(s) == n
  {
    if n > 0 {
      assert IsSpace(s[..n][0]);
      assert s[1..][..n - 1] == s[..n][1..];
      SpaceRunIs(s[1..], n - 1);
    }
  }

  lemma {:induction false} ReplaceStepsKeepsNoMarkers(s: string)
    requires NoMarkers(s)
    ensures NoMarkers(ReplaceSteps(s))
    decreases |s|
  {
    if s != [] {
      if NumberAt(s) {
        var n := DigitRun(s);
        var rest := s[n + 1..];
        var k := n + 1 + SpaceRun(rest);
        assert rest[SpaceRun(rest)..] == s[k..];
        var head := StepLabel(DigitsValue(s[..n]));
        assert ReplaceSteps(s) == head + ReplaceSteps(s[k..]);
        SliceAvoids(s, '*', k, |s|);
        SliceAvoids(s, '_', k, |s|);
        ReplaceStepsKeepsNoMarkers(s[k..]);
        assert NoMarkers(head);
      } else {
        assert ReplaceSteps(s) == [s[0]] + ReplaceSteps(s[1..]);
        SliceAvoids(s, '*', 1, |s|);
        SliceAvoids(s, '_', 1, |s|);
        ReplaceStepsKeepsNoMarkers(s[1..]);
        assert !IsMarker(s[0]);
      }
    }
  }

  // ---------------------------------------------------------------------
  // The whole cleaner.
  // ---------------------------------------------------------------------

  /** `clean_text_for_voiceover`. */
  function Clean(text: string): string
  {
    Collapse(ReplaceSteps(StripHeadings(StripEmphasis(text))))
  }

  /** The cleaned text never contains `*` or `_`. */
  lemma CleanHasNoMarkers(text: string)
    ensures NoMarkers(Clean(text))
  {
    StripEmphasisIsWithoutMarkers(text);
    var a := StripEmphasis(text);
    StripHeadingsKeepsNoMarkers(a);
    var b := StripHeadings(a);
    ReplaceStepsKeepsNoMarkers(b);
    var c := ReplaceSteps(b);
    CollapseAvoids(c, '*');
    CollapseAvoids(c, '_');
  }

  /**
   * The cleaned text has no whitespace at either end, no whitespace but
   * single spaces, and blank input cleans to the empty string.
   */
  lemma CleanIsNormalized(text: string)
    ensures Normalized(Clean(text))
    ensures AllSpace(text) ==> Clean(text) == []
  {
    var c := ReplaceSteps(StripHeadings(StripEmphasis(text)));
    CollapseNormalized(c);
    if AllSpace(text) {
      assert NoMarkers(text) && '#' !in text && NoDigits(text);
      StripEmphasisIsWithoutMarkers(text);
      WithoutMarkersKeeps(text);
      StripHeadingsPlain(text, []);
      ReplaceStepsPlain(text, []);
      assert text + [] == text;
      assert c == text;
    }
  }

  /** Text without markers passes stage 1 unchanged. */
  lemma StripEmphasisKeeps(s: string)
    requires NoMarkers(s)
    ensures StripEmphasis(s) == s
  {
    StripEmphasisIsWithoutMarkers(s);
    WithoutMarkersKeeps(s);
  }

  /** Text without `#` passes stage 2 unchanged. */
  lemma StripHeadingsKeeps(s: string)
    requires '#' !in s
    ensures StripHeadings(s) == s
  {
    StripHeadingsPlain(s, []);
    assert s + [] == s;
  }

  /** Text without digits passes stage 3 unchanged. */
  lemma ReplaceStepsKeeps(s: string)
    requires NoDigits(s)
    ensures ReplaceSteps(s) == s
  {
    ReplaceStepsPlain(s, []);
    assert s + [] == s;
  }

  /** Values one to ten read as words, zero as "ten", larger values as their digits. */
  lemma {:induction false} StepLabelOfDigits(ds: string)
    requires ds != [] && AllDigits(ds) && (ds[0] == '0' ==> |ds| == 1)
    ensures 1 <= DigitsValue(ds) <= 10 ==> StepLabel(DigitsValue(ds)) == "Step " + NUMBER_WORDS[DigitsValue(ds) - 1] + ": "
    ensures DigitsValue(ds) == 0 ==> StepLabel(DigitsValue(ds)) == "Step ten: "
    ensures DigitsValue(ds) > 10 ==> StepLabel(DigitsValue(ds)) == "Step " + ds + ": "
  {
    DecimalOfDigits(ds);
  }
}
