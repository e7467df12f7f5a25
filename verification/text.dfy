/**
 * Character classes and the two whitespace operations of Python's `str`
 * that the application uses: `strip()` and `' '.join(s.split())`.
 *
 * Whitespace is the six ASCII characters space, tab, line feed, carriage
 * return, form feed and vertical tab; digits are ASCII `0`..`9`.
 */
module Text {

  predicate IsSpace(c: char)
  {
    c == ' ' || c == '\t' || c == '\n' || c == '\r' || c == '\U{000C}' || c == '\U{000B}'
  }

  predicate IsDigit(c: char)
  {
    '0' <= c <= '9'
  }

  predicate AllSpace(s: string)
  {
    forall i :: 0 <= i < |s| ==> IsSpace(s[i])
  }

  predicate AllDigits(s: string)
  {
    forall i :: 0 <= i < |s| ==> IsDigit(s[i])
  }

  /** A word as `str.split()` yields it: non-empty, no whitespace. */
  predicate IsWord(w: string)
  {
    w != [] && forall i :: 0 <= i < |w| ==> !IsSpace(w[i])
  }

  predicate AllWords(ws: seq<string>)
  {
    forall i :: 0 <= i < |ws| ==> IsWord(ws[i])
  }

  /**
   * The shape `' '.join(s.split())` gives: no whitespace at either end,
   * no whitespace but the plain space, and never two spaces in a row.
   */
  predicate Normalized(s: string)
  {
    && (s == [] || (!IsSpace(s[0]) && !IsSpace(s[|s| - 1])))
    && (forall i :: 0 <= i < |s| && IsSpace(s[i]) ==> s[i] == ' ')
    && (forall i :: 0 <= i < |s| - 1 && s[i] == ' ' ==> s[i + 1] != ' ')
  }

  /** Length of the whitespace run at the front of `s`. */
  function SpaceRun(s: string): (n: nat)
    ensures n <= |s|
    ensures AllSpace(s[..n])
    ensures n < |s| ==> !IsSpace(s[n])
  {
    if s == [] || !IsSpace(s[0]) then 0 else 1 + SpaceRun(s[1..])
  }

  /** Length of the non-whitespace run at the front of `s`. */
  function WordRun(s: string): (n: nat)
    ensures n <= |s|
    ensures forall i :: 0 <= i < n ==> !IsSpace(s[i])
    ensures n < |s| ==> IsSpace(s[n])
  {
    if s == [] || IsSpace(s[0]) then 0 else 1 + WordRun(s[1..])
  }

  /** `s` without the whitespace at its end. */
  function StripRight(s: string): (r: string)
    ensures |r| <= |s| && r == s[..|r|]
    ensures AllSpace(s[|r|..])
    ensures r == [] || !IsSpace(r[|r| - 1])
  {
    if s == [] || !IsSpace(s[|s| - 1]) then s else StripRight(s[..|s| - 1])
  }

  /** Python's `str.strip()`: the slice of `s` between its leading and trailing whitespace. */
  function Strip(s: string): (r: string)
    ensures r == [] || (!IsSpace(r[0]) && !IsSpace(r[|r| - 1]))
    ensures r == [] <==> AllSpace(s)
    ensures exists i :: 0 <= i <= |s| - |r| && r == s[i..i + |r|] && AllSpace(s[..i]) && AllSpace(s[i + |r|..])
  {
    var a := SpaceRun(s);
    var r := StripRight(s[a..]);
    assert s[a..][..|r|] == s[a..a + |r|];
    assert s[a..][|r|..] == s[a + |r|..];
    assert r == [] ==> s[..a] == s;
    r
  }

  /** Python's `str.split()` with no argument: the maximal whitespace-free runs of `s`, in order. */
  function Split(s: string): (ws: seq<string>)
    ensures AllWords(ws)
    decreases |s|
  {
    if s == [] then []
    else if IsSpace(s[0]) then Split(s[1..])
    else
      var n := WordRun(s);
      [s[..n]] + Split(s[n..])
  }

  /** Python's `' '.join(ws)`. */
  function Join(ws: seq<string>): string
  {
    if ws == [] then []
    else if |ws| == 1 then ws[0]
    else ws[0] + " " + Join(ws[1..])
  }

  /** `' '.join(s.split())`: the cleaner's last stage. */
  function Collapse(s: string): string
  {
    Join(Split(s))
  }

  lemma {:induction false} WordRunIs(s: string, n: nat)
    requires n <= |s|
    requires forall i :: 0 <= i < n ==> !IsSpace(s[i])
    requires n < |s| ==> IsSpace(s[n])
    ensures WordRun(s) == n
  {
    if n > 0 {
      WordRunIs(s[1..], n - 1);
    }
  }

  /** A single word splits to itself. */
  lemma SplitWord(w: string)
    requires IsWord(w)
    ensures Split(w) == [w]
  {
    WordRunIs(w, |w|);
    assert w[..|w|] == w;
    assert w[|w|..] == [];
  }

  /** Text that starts with whitespace splits apart from what precedes it. */
  lemma {:induction false} SplitAround(x: string, z: string)
    requires z != [] && IsSpace(z[0])
    ensures Split(x + z) == Split(x) + Split(z)
    decreases |x|
  {
    var s := x + z;
    if x == [] {
      assert s == z;
    } else if IsSpace(x[0]) {
      assert s[1..] == x[1..] + z;
      SplitAround(x[1..], z);
    } else {
      var n := WordRun(x);
      WordRunIs(s, n);
      assert s[..n] == x[..n];
      assert s[n..] == x[n..] + z;
      SplitAround(x[n..], z);
      assert [x[..n]] + (Split(x[n..]) + Split(z)) == ([x[..n]] + Split(x[n..])) + Split(z);
    }
  }

  /** The words are empty exactly for blank text. */
  lemma {:induction false} SplitBlank(s: string)
    ensures Split(s) == [] <==> AllSpace(s)
    decreases |s|
  {
    if s != [] && IsSpace(s[0]) {
      SplitBlank(s[1..]);
    }
  }

  /** The joined words have the normalized shape. */
  lemma {:induction false} JoinNormalized(ws: seq<string>)
    requires AllWords(ws)
    ensures Normalized(Join(ws))
    ensures Join(ws) == [] <==> ws == []
    ensures ws != [] ==> Join(ws)[0] == ws[0][0]
  {
    if |ws| > 1 {
      JoinNormalized(ws[1..]);
      var w, j := ws[0], Join(ws[1..]);
      var s := w + " " + j;
      assert s == Join(ws);
      forall i | |w| < i < |s| && IsSpace(s[i]) ensures s[i] == ' ' {
        assert s[i] == j[i - |w| - 1];
      }
      forall i | |w| <= i < |s| - 1 && s[i] == ' ' ensures s[i + 1] != ' ' {
        if i == |w| { assert s[i + 1] == j[0]; }
        else { assert s[i] == j[i - |w| - 1] && s[i + 1] == j[i - |w|]; }
      }
    }
  }

  lemma {:induction false} JoinAppend(us: seq<string>, vs: seq<string>)
    requires us != [] && vs != []
    ensures Join(us + vs) == Join(us) + " " + Join(vs)
  {
    if |us| == 1 {
      assert (us + vs)[1..] == vs;
    } else {
      assert (us + vs)[1..] == us[1..] + vs;
      JoinAppend(us[1..], vs);
    }
  }

  /** Splitting joined words gives the words back. */
  lemma {:induction false} SplitJoin(ws: seq<string>)
    requires AllWords(ws)
    ensures Split(Join(ws)) == ws
  {
    if |ws| == 1 {
      SplitWord(ws[0]);
    } else if |ws| > 1 {
      SplitJoin(ws[1..]);
      var rest := Join(ws[1..]);
      assert Join(ws) == ws[0] + (" " + rest);
      SplitAround(ws[0], " " + rest);
      SplitWord(ws[0]);
      assert (" " + rest)[1..] == rest;
      assert [ws[0]] + ws[1..] == ws;
    }
  }

  /** The output of the last stage is normalized, and empty exactly for blank input. */
  lemma CollapseNormalized(s: string)
    ensures Normalized(Collapse(s))
    ensures Collapse(s) == [] <==> AllSpace(s)
  {
    JoinNormalized(Split(s));
    SplitBlank(s);
  }

  /** Collapsing an already normalized string leaves it unchanged. */
  lemma {:induction false} CollapseOfNormalized(s: string)
    requires Normalized(s)
    ensures Collapse(s) == s
    decreases |s|
  {
    if s != [] {
      var n := WordRun(s);
      if n == |s| {
        assert s[..n] == s;
        SplitWord(s);
      } else {
        var w, rest := s[..n], s[n + 1..];
        NormalizedAfterSpace(s, n);
        CollapseOfNormalized(rest);
        SplitNormalizedHead(s, n);
        SplitBlank(rest);
        JoinAppend([w], Split(rest));
        assert Join([w]) == w;
        SliceAround(s, n);
      }
    }
  }

  lemma SliceAround(s: string, n: nat)
    requires n < |s| && s[n] == ' '
    ensures s == s[..n] + " " + s[n + 1..]
    ensures s == s[..n] + ([' '] + s[n + 1..])
  {
  }

  /** Normalized text splits into its first word and the words after the space that ends it. */
  lemma SplitNormalizedHead(s: string, n: nat)
    requires Normalized(s) && s != [] && n == WordRun(s) && n < |s|
    ensures Split(s) == [s[..n]] + Split(s[n + 1..])
  {
    var w, rest := s[..n], s[n + 1..];
    assert s[n] == ' ';
    assert IsWord(w) by {
      assert !IsSpace(s[0]);
    }
    SplitWord(w);
    SliceAround(s, n);
    SplitAround(w, [' '] + rest);
    assert ([' '] + rest)[1..] == rest;
  }

  /** What follows a space in normalized text is normalized and not empty. */
  lemma NormalizedAfterSpace(s: string, k: nat)
    requires Normalized(s) && k < |s| && s[k] == ' '
    ensures s[k + 1..] != [] && Normalized(s[k + 1..])
  {
    var rest := s[k + 1..];
    assert k < |s| - 1;
    assert !IsSpace(rest[0]) by { assert s[k + 1] == rest[0]; }
    assert rest[|rest| - 1] == s[|s| - 1];
    forall i | 0 <= i < |rest| - 1 && rest[i] == ' ' ensures rest[i + 1] != ' ' {
      assert rest[i] == s[k + 1 + i] && rest[i + 1] == s[k + 1 + i + 1];
    }
  }

  /** Two normalized texts around one whitespace character collapse to the two texts around one space. */
  lemma CollapseAround(x: string, c: char, y: string)
    requires IsSpace(c) && x != [] && y != []
    requires Normalized(x) && Normalized(y)
    ensures Collapse(x + [c] + y) == x + " " + y
  {
    assert x + [c] + y == x + ([c] + y);
    SplitAround(x, [c] + y);
    assert ([c] + y)[1..] == y;
    CollapseOfNormalized(x);
    CollapseOfNormalized(y);
    SplitBlank(x);
    SplitBlank(y);
    JoinAppend(Split(x), Split(y));
  }

  /** The last stage is idempotent. */
  lemma CollapseIdempotent(s: string)
    ensures Collapse(Collapse(s)) == Collapse(s)
  {
    SplitJoin(Split(s));
  }

  /** A character that is not a space and not in `s` is not in `Collapse(s)`. */
  lemma CollapseAvoids(s: string, c: char)
    requires c !in s && c != ' '
    ensures c !in Collapse(s)
  {
    SplitAvoids(s, c);
    JoinAvoids(Split(s), c);
  }

  lemma {:induction false} SplitAvoids(s: string, c: char)
    requires c !in s
    ensures forall i :: 0 <= i < |Split(s)| ==> c !in Split(s)[i]
    decreases |s|
  {
    if s != [] {
      var n := if IsSpace(s[0]) then 1 else WordRun(s);
      SliceAvoids(s, c, 0, n);
      SliceAvoids(s, c, n, |s|);
      SplitAvoids(s[n..], c);
    }
  }

  lemma {:induction false} JoinAvoids(ws: seq<string>, c: char)
    requires c != ' '
    requires forall i :: 0 <= i < |ws| ==> c !in ws[i]
    ensures c !in Join(ws)
  {
    if |ws| > 1 {
      JoinAvoids(ws[1..], c);
    }
  }

  lemma SliceAvoids(s: string, c: char, i: nat, j: nat)
    requires i <= j <= |s| && c !in s
    ensures c !in s[i..j]
  {
  }
}
