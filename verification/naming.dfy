/**
 * The name offered for downloading the voiceover:
 * `recipe_voiceover_<option, lower-cased, spaces as underscores>.mp3`.
 * Lower-casing is modelled for the ASCII letters `A`..`Z`.
 */
module Naming {

  const PREFIX: string := "recipe_voiceover_"
  const EXTENSION: string := ".mp3"

  predicate IsUpper(c: char)
  {
    'A' <= c <= 'Z'
  }

  /** `str.lower()` on one character. */
  function LowerChar(c: char): (d: char)
    ensures !IsUpper(d)
    ensures IsUpper(c) ==> 'a' <= d <= 'z' && d as int == c as int + 32
    ensures !IsUpper(c) ==> d == c
    ensures d == ' ' <==> c == ' '
  {
    if IsUpper(c) then (c as int - 'A' as int + 'a' as int) as char else c
  }

  /** `str.lower()`. */
  function Lower(s: string): (r: string)
    ensures |r| == |s|
    ensures forall i :: 0 <= i < |s| ==> r[i] == LowerChar(s[i])
  {
    seq(|s|, i requires 0 <= i < |s| => LowerChar(s[i]))
  }

  /** `str.replace(old, new)` for single characters. */
  function ReplaceChar(s: string, from: char, to: char): (r: string)
    ensures |r| == |s|
    ensures forall i :: 0 <= i < |s| ==> r[i] == if s[i] == from then to else s[i]
  {
    seq(|s|, i requires 0 <= i < |s| => if s[i] == from then to else s[i])
  }

  /** The file name built for the download link. */
  function DownloadFilename(option: string): string
  {
    PREFIX + ReplaceChar(Lower(option), ' ', '_') + EXTENSION
  }

  /**
   * The name is the fixed prefix, then one character per character of the
   * option with no upper-case letter and no space left, then `.mp3`; spaces
   * become underscores, upper-case letters their lower-case letters, and
   * everything else is kept.
   */
  lemma DownloadFilenameShape(option: string)
    ensures var name := DownloadFilename(option);
      && |name| == |option| + 21
      && name[..17] == "recipe_voiceover_"
      && name[|name| - 4..] == ".mp3"
      && (forall i :: 17 <= i < |name| - 4 ==> !IsUpper(name[i]) && name[i] != ' ')
      && (forall i :: 0 <= i < |option| ==> (option[i] == ' ' ==> name[17 + i] == '_'))
      && (forall i :: 0 <= i < |option| ==> (!IsUpper(option[i]) && option[i] != ' ' ==> name[17 + i] == option[i]))
      && (forall i :: 0 <= i < |option| ==> (IsUpper(option[i]) ==> name[17 + i] as int == option[i] as int + 32))
  {
    var middle := ReplaceChar(Lower(option), ' ', '_');
    var name := DownloadFilename(option);
    assert name == PREFIX + middle + EXTENSION;
    assert name[..17] == PREFIX;
    assert name[|name| - 4..] == EXTENSION;
    forall i | 0 <= i < |option|
      ensures name[17 + i] == middle[i]
    {
    }
  }

  /** The slug of an option is the expected lower-case, underscored text. */
  lemma SlugIs(option: string, slug: string)
    requires |slug| == |option|
    requires forall i :: 0 <= i < |option| ==> slug[i] == if option[i] == ' ' then '_' else LowerChar(option[i])
    ensures DownloadFilename(option) == PREFIX + slug + EXTENSION
  {
  }

  lemma AmericanFilename()
    ensures DownloadFilename("American English") == "recipe_voiceover_" + "american_english" + ".mp3"
  {
    SlugIs("American English", "american_english");
  }

  lemma BritishFilename()
    ensures DownloadFilename("British English") == "recipe_voiceover_" + "british_english" + ".mp3"
  {
    SlugIs("British English", "british_english");
  }

  lemma AustralianFilename()
    ensures DownloadFilename("Australian English") == "recipe_voiceover_" + "australian_english" + ".mp3"
  {
    SlugIs("Australian English", "australian_english");
  }

  lemma BangladeshiFilename()
    ensures DownloadFilename("Bangladeshi English") == "recipe_voiceover_" + "bangladeshi_english" + ".mp3"
  {
    SlugIs("Bangladeshi English", "bangladeshi_english");
  }

  lemma BengaliFilename()
    ensures DownloadFilename("Bengali") == "recipe_voiceover_" + "bengali" + ".mp3"
  {
    SlugIs("Bengali", "bengali");
  }
}
