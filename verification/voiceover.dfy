/**
 * `generate_voiceover`: the accent table, the request handed to the speech
 * synthesizer, and the path of the audio file it produced.
 */
module Voiceover {
  import opened Wrappers
  import opened Text
  import opened Cleaner

  /** The choices of the language/accent select box, in display order. */
  const ACCENT_OPTIONS: seq<string> :=
    ["American English", "British English", "Australian English", "Bangladeshi English", "Bengali"]

  /** The `lang` and `tld` arguments of the synthesizer. */
  datatype VoiceSettings = VoiceSettings(lang: string, tld: string)

  /** `language_map`. */
  const LANGUAGE_MAP: map<string, VoiceSettings> := map[
    "American English" := VoiceSettings("en", "com"),
    "British English" := VoiceSettings("en", "co.uk"),
    "Australian English" := VoiceSettings("en", "com.au"),
    "Bangladeshi English" := VoiceSettings("en", "co.in"),
    "Bengali" := VoiceSettings("bn", "com")
  ]

  /**
   * `language_map.get(language_option)`: an option is accepted exactly when
   * the select box offers it, and only "Bengali" speaks Bengali.
   */
  function LookupVoice(option: string): (r: Option<VoiceSettings>)
    ensures r.Some? <==> option in ACCENT_OPTIONS
    ensures r.Some? ==> r.value.lang == (if option == "Bengali" then "bn" else "en")
  {
    if option in LANGUAGE_MAP then Some(LANGUAGE_MAP[option]) else None
  }

  /** The table has exactly the five entries of the select box, with these settings. */
  lemma AccentTable()
    ensures |ACCENT_OPTIONS| == 5
    ensures forall i, j :: 0 <= i < j < |ACCENT_OPTIONS| ==> ACCENT_OPTIONS[i] != ACCENT_OPTIONS[j]
    ensures LANGUAGE_MAP.Keys == set o | o in ACCENT_OPTIONS
    ensures LookupVoice("American English") == Some(VoiceSettings("en", "com"))
    ensures LookupVoice("British English") == Some(VoiceSettings("en", "co.uk"))
    ensures LookupVoice("Australian English") == Some(VoiceSettings("en", "com.au"))
    ensures LookupVoice("Bangladeshi English") == Some(VoiceSettings("en", "co.in"))
    ensures LookupVoice("Bengali") == Some(VoiceSettings("bn", "com"))
  {
  }

  /** The arguments of the `gTTS(...)` call. */
  datatype SpeechRequest = SpeechRequest(text: string, lang: string, tld: string, slow: bool)

  /**
   * What `generate_voiceover` hands to the synthesizer: nothing for an
   * unknown option (the text is then not cleaned at all), otherwise the
   * cleaned text at normal speed with the option's settings.
   */
  function VoiceoverRequest(text: string, option: string): (r: Option<SpeechRequest>)
    ensures r.None? <==> option !in ACCENT_OPTIONS
    ensures r.Some? ==> r.value.text == Clean(text) && !r.value.slow
    ensures r.Some? ==> LookupVoice(option) == Some(VoiceSettings(r.value.lang, r.value.tld))
  {
    match LookupVoice(option)
    case None => None
    case Some(v) => Some(SpeechRequest(Clean(text), v.lang, v.tld, false))
  }

  /**
   * The text spoken never carries emphasis markers, has no whitespace at
   * either end and none but single spaces, and is empty for blank input.
   */
  lemma SpokenText(text: string, option: string)
    requires option in ACCENT_OPTIONS
    ensures VoiceoverRequest(text, option).Some?
    ensures NoMarkers(VoiceoverRequest(text, option).value.text)
    ensures Normalized(VoiceoverRequest(text, option).value.text)
    ensures AllSpace(text) ==> VoiceoverRequest(text, option).value.text == []
  {
    CleanHasNoMarkers(text);
    CleanIsNormalized(text);
  }

  /**
   * `generate_voiceover` returns the path of the saved file. `saved` is what
   * the synthesizer and the file system produced for the request: the temp
   * file's path, or None when synthesis or saving raised or the file is
   * missing afterwards.
   */
  function GenerateVoiceover(text: string, option: string, saved: Option<string>): (r: Option<string>)
    ensures option !in ACCENT_OPTIONS ==> r.None?
    ensures option in ACCENT_OPTIONS ==> r == saved
  {
    if VoiceoverRequest(text, option).None? then None else saved
  }
}
