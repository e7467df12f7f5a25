/**
 * The page's session state: the formatted recipe and the path of the
 * generated audio file, and how one run of the page script changes them.
 *
 * A run executes the script top to bottom. At most one button was pressed:
 * "Format Recipe" or "Generate Voiceover" (the latter is only drawn while a
 * formatted recipe is shown). After the buttons, the audio block always runs:
 * it plays the stored file, offers it for download and deletes it.
 *
 * Everything outside the page (the configured key, the completion service's
 * reply, the synthesizer, the file system) enters as parameters.
 */
module Session {
  import opened Wrappers
  import opened Text
  import opened Completion
  import opened Voiceover
  import opened Naming

  /** `st.session_state.formatted_recipe` and `st.session_state.audio_file`. */
  datatype State = State(formattedRecipe: Option<string>, audioFile: Option<string>)

  /** Both entries start as `None`. */
  const INITIAL: State := State(None, None)

  /**
   * Whatever is stored is truthy, and an audio file is only ever stored
   * while a formatted recipe is stored.
   */
  predicate Consistent(s: State)
  {
    && (s.formattedRecipe.Some? ==> Truthy(s.formattedRecipe))
    && (s.audioFile.Some? ==> Truthy(s.audioFile))
    && (s.audioFile.Some? ==> s.formattedRecipe.Some?)
  }

  // ---------------------------------------------------------------------
  // The three handlers as state transitions.
  // ---------------------------------------------------------------------

  /**
   * "Format Recipe" pressed: a truthy formatted text replaces the recipe
   * and drops the audio file; otherwise nothing changes.
   */
  function AfterFormat(s: State, apiKey: Option<string>, reply: Option<Json>): (t: State)
    ensures Truthy(FormatRecipe(apiKey, reply)) ==> t == State(FormatRecipe(apiKey, reply), None)
    ensures !Truthy(FormatRecipe(apiKey, reply)) ==> t == s
  {
    if Truthy(apiKey) then
      var formatted := FormatRecipe(apiKey, reply);
      if Truthy(formatted) then State(formatted, None) else s
    else s
  }

  /**
   * "Generate Voiceover" pressed: with a formatted recipe shown, a truthy
   * path from `generate_voiceover` becomes the audio file. The recipe
   * never changes.
   */
  function AfterGenerate(s: State, option: string, saved: Option<string>): (t: State)
    ensures t.formattedRecipe == s.formattedRecipe
    ensures t != s ==> Truthy(s.formattedRecipe) && option in ACCENT_OPTIONS && Truthy(saved) && t.audioFile == saved
    ensures Truthy(s.formattedRecipe) && option in ACCENT_OPTIONS && Truthy(saved) ==> t.audioFile == saved
  {
    if !Truthy(s.formattedRecipe) then s
    else
      var audio := GenerateVoiceover(s.formattedRecipe.value, option, saved);
      if Truthy(audio) then s.(audioFile := audio) else s
  }

  /**
   * Outcomes of the file operations in the audio block: the stored path
   * exists, reading and playing it succeeded, the download link was built,
   * and deleting the file succeeded.
   */
  datatype FileOutcomes = FileOutcomes(fileExists: bool, readOk: bool, linkOk: bool, unlinkOk: bool)

  /**
   * The audio block: the stored file is dropped only when it exists, was
   * read and was deleted; a missing file or a failed read or delete keeps it.
   */
  function AfterPlayback(s: State, io: FileOutcomes): (t: State)
    ensures t.formattedRecipe == s.formattedRecipe
    ensures t.audioFile == None <==> s.audioFile == None || (Truthy(s.audioFile) && io.fileExists && io.readOk && io.unlinkOk)
    ensures t.audioFile != None ==> t.audioFile == s.audioFile
  {
    if Truthy(s.audioFile) && io.fileExists && io.readOk && io.unlinkOk then s.(audioFile := None) else s
  }

  /** The audio block plays the file when it exists and can be read. */
  predicate Plays(s: State, io: FileOutcomes)
  {
    Truthy(s.audioFile) && io.fileExists && io.readOk
  }

  /** The name offered for download, when the audio block gets as far as the link. */
  function Offered(s: State, option: string, io: FileOutcomes): (r: Option<string>)
    ensures r.Some? <==> Plays(s, io) && io.linkOk
    ensures r.Some? ==> r.value == DownloadFilename(option)
  {
    if Plays(s, io) && io.linkOk then Some(DownloadFilename(option)) else None
  }

  // ---------------------------------------------------------------------
  // Whole runs.
  // ---------------------------------------------------------------------

  /** The button pressed in a run, with what the outside world answered. */
  datatype Click =
    | NoClick
    | FormatClick(recipeText: string, apiKey: Option<string>, reply: Option<Json>)
    | GenerateClick(saved: Option<string>)

  /** One run: the widgets' values, the button pressed and the file outcomes. */
  datatype Event = Event(click: Click, option: string, io: FileOutcomes)

  function AfterClick(s: State, click: Click, option: string): State
  {
    match click
    case NoClick => s
    case FormatClick(_, apiKey, reply) => AfterFormat(s, apiKey, reply)
    case GenerateClick(saved) => AfterGenerate(s, option, saved)
  }

  /** One run of the script: the pressed button's handler, then the audio block. */
  function AfterRun(s: State, e: Event): State
  {
    AfterPlayback(AfterClick(s, e.click, e.option), e.io)
  }

  /** Consecutive runs. */
  function AfterRuns(s: State, events: seq<Event>): State
    decreases |events|
  {
    if events == [] then s else AfterRuns(AfterRun(s, events[0]), events[1..])
  }

  /** Every handler keeps the state consistent. */
  lemma HandlersKeepConsistent(s: State, click: Click, option: string, io: FileOutcomes)
    requires Consistent(s)
    ensures Consistent(AfterClick(s, click, option))
    ensures Consistent(AfterPlayback(s, io))
  {
  }

  /** Every state the page reaches from a fresh session is consistent. */
  lemma {:induction false} RunsKeepConsistent(s: State, events: seq<Event>)
    requires Consistent(s)
    ensures Consistent(AfterRuns(s, events))
    decreases |events|
  {
    if events != [] {
      var e := events[0];
      HandlersKeepConsistent(s, e.click, e.option, e.io);
      HandlersKeepConsistent(AfterClick(s, e.click, e.option), NoClick, e.option, e.io);
      RunsKeepConsistent(AfterRun(s, e), events[1..]);
    }
  }

  /** In particular, from the initial state. */
  lemma ReachableConsistent(events: seq<Event>)
    ensures Consistent(AfterRuns(INITIAL, events))
  {
    RunsKeepConsistent(INITIAL, events);
  }

  /**
   * A successful format stores the stripped content of the reply's success
   * chain and drops the audio file; every other outcome leaves the state alone.
   */
  lemma FormatOutcome(s: State, apiKey: Option<string>, reply: Option<Json>)
    ensures AfterFormat(s, apiKey, reply) != s ==>
      && Truthy(apiKey) && reply.Some?
      && AfterFormat(s, apiKey, reply).audioFile == None
      && exists c :: SuccessChain(reply.value, c) && AfterFormat(s, apiKey, reply).formattedRecipe == Some(Strip(c))
    ensures (!Truthy(apiKey) || reply.None?) ==> AfterFormat(s, apiKey, reply) == s
  {
  }

  /** Content made only of whitespace strips to the empty string, which is falsy: the state is kept. */
  lemma BlankReplyKeepsState(s: State, apiKey: Option<string>, response: Json, content: string)
    requires SuccessChain(response, content) && AllSpace(content)
    ensures AfterFormat(s, apiKey, Some(response)) == s
  {
    BlankContentExtracted(response, content);
  }

  /**
   * A voiceover generated in a run is played and deleted by the same run's
   * audio block when the file operations succeed: the run ends with no audio
   * file stored and the download offered under the option's name.
   */
  lemma GeneratedAudioConsumed(s: State, saved: Option<string>, option: string, io: FileOutcomes)
    requires Truthy(s.formattedRecipe) && option in ACCENT_OPTIONS && Truthy(saved)
    requires io.fileExists && io.readOk && io.linkOk && io.unlinkOk
    ensures AfterRun(s, Event(GenerateClick(saved), option, io)).audioFile == None
    ensures AfterRun(s, Event(GenerateClick(saved), option, io)).formattedRecipe == s.formattedRecipe
    ensures Offered(AfterGenerate(s, option, saved), option, io) == Some(DownloadFilename(option))
  {
  }

  // ---------------------------------------------------------------------
  // The session object.
  // ---------------------------------------------------------------------

  class SessionState {
    var formattedRecipe: Option<string>
    var audioFile: Option<string>

    function Current(): State
      reads this
    {
      State(formattedRecipe, audioFile)
    }

    predicate Valid()
      reads this
    {
      Consistent(Current())
    }

    /** Lines 13-16: both entries are created as `None`. */
    constructor ()
      ensures Valid() && Current() == INITIAL
    {
      formattedRecipe := None;
      audioFile := None;
    }

    /**
     * The "Format Recipe" handler. Returns the completion request built for
     * the client, which is none when no key is configured. When creating the
     * client or the call raises, the request is built but `reply` is None.
     */
    method PressFormat(recipeText: string, option: string, model: string, apiKey: Option<string>, reply: Option<Json>)
      returns (sent: Option<CompletionRequest>)
      requires Valid()
      modifies this
      ensures Valid()
      ensures sent.Some? <==> Truthy(apiKey)
      ensures sent.Some? ==> sent.value == CompletionRequestFor(recipeText, FormatLanguage(option), model)
      ensures Current() == AfterFormat(old(Current()), apiKey, reply)
    {
      sent := None;
      if Truthy(apiKey) {
        sent := Some(CompletionRequestFor(recipeText, FormatLanguage(option), model));
        var formatted := FormatRecipe(apiKey, reply);
        if Truthy(formatted) {
          formattedRecipe := formatted;
          audioFile := None;
        }
      }
    }

    /**
     * The "Generate Voiceover" handler. Returns the request handed to the
     * synthesizer, which is none when no recipe is shown or the option is unknown.
     */
    method PressGenerate(option: string, saved: Option<string>) returns (request: Option<SpeechRequest>)
      requires Valid()
      modifies this
      ensures Valid()
      ensures request.Some? <==> Truthy(old(formattedRecipe)) && option in ACCENT_OPTIONS
      ensures request.Some? ==> request == VoiceoverRequest(old(formattedRecipe).value, option)
      ensures Current() == AfterGenerate(old(Current()), option, saved)
    {
      request := None;
      if Truthy(formattedRecipe) {
        request := VoiceoverRequest(formattedRecipe.value, option);
        var audio := GenerateVoiceover(formattedRecipe.value, option, saved);
        if Truthy(audio) {
          audioFile := audio;
        }
      }
    }

    /**
     * The audio block. Returns whether the file was played and the name the
     * download link offers.
     */
    method ShowAudio(option: string, io: FileOutcomes) returns (played: bool, download: Option<string>)
      requires Valid()
      modifies this
      ensures Valid()
      ensures played == Plays(old(Current()), io)
      ensures download == Offered(old(Current()), option, io)
      ensures Current() == AfterPlayback(old(Current()), io)
    {
      played, download := false, None;
      if Truthy(audioFile) {
        if io.fileExists && io.readOk {
          played := true;
          if io.linkOk {
            download := Some(DownloadFilename(option));
          }
          if io.unlinkOk {
            audioFile := None;
          }
        }
      }
    }

    /** One run of the page script: the pressed button's handler, then the audio block, whose outcome it returns. */
    method Run(e: Event, model: string) returns (played: bool, download: Option<string>)
      requires Valid()
      modifies this
      ensures Valid()
      ensures played == Plays(AfterClick(old(Current()), e.click, e.option), e.io)
      ensures download == Offered(AfterClick(old(Current()), e.click, e.option), e.option, e.io)
      ensures Current() == AfterRun(old(Current()), e)
    {
      match e.click {
        case NoClick =>
        case FormatClick(recipeText, apiKey, reply) =>
          var _ := PressFormat(recipeText, e.option, model, apiKey, reply);
        case GenerateClick(saved) =>
          var _ := PressGenerate(e.option, saved);
      }
      played, download := ShowAudio(e.option, e.io);
    }
  }
}
