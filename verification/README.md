# Recipe Voice Generator — a Dafny model of its core

The application is a Streamlit page. It sends a recipe to a completion service to be formatted. It reads the formatted
recipe aloud with a speech synthesizer in one of five accents, then plays the audio and offers it for download.
This project models the page's own logic:

- **The voiceover text cleaner** (`clean_text_for_voiceover`) — module `Cleaner`, with the whitespace operations in `Text`.
  It runs four stages:
  1. deletion of `*`/`_` emphasis markers;
  2. deletion of `#` heading markers;
  3. rewriting of numbered steps into `Step <word>: `;
  4. whitespace collapsing.

  Each of the three `re.sub` stages (app.py:28, 30, 38) is a function that scans the text the way the
  regular-expression engine does; the fourth is `split` and `join` (app.py:40). `Clean` is their composition.
- **The accent table** of `generate_voiceover` and the request handed to the synthesizer (module `Voiceover`).
- **The prompt-language choice, the completion request and the extraction** of the formatted text from the service's
  JSON reply (module `Completion`).
  Python's evaluation of the reply is modelled step by step, including the steps that raise.
- **The download file name** (module `Naming`).
- **The two session-state entries** `formatted_recipe` and `audio_file`, and how the "Format Recipe" handler, the
  "Generate Voiceover" handler and the audio block change them (module `Session`).
  - The handlers are the methods of the class `SessionState`. Each method is specified by a transition function on
    `State` values.
  - Whole runs of the page are sequences of `Event`s.

Concrete cleaning results, including the one that shows the cleaner is not idempotent, are in `CleanerExamples`.

## Model

| member | source | states |
|---|---|---|
| Cleaner.Clean | app.py:26-41 | `clean_text_for_voiceover`, the composition of the four stages. No contract of its own: `CleanHasNoMarkers`, `CleanIsNormalized` and the `CleanerExamples` lemmas state it. |
| Cleaner.StripEmphasis | app.py:28 | The emphasis substitution as a greedy scan for one or two equal markers. No contract of its own: `StripEmphasisIsWithoutMarkers` and `StripEmphasisKeeps` state it. |
| Cleaner.StripEmphasisIsWithoutMarkers | app.py:28 | Removing runs of one or two equal markers, as the regex `[\*]{1,2}\|[_]{1,2}` does, deletes exactly every `*` and `_` and keeps every other character in order. |
| Cleaner.WithoutMarkersAppend | app.py:28 | Marker deletion distributes over concatenation. |
| Cleaner.StripEmphasisKeeps | app.py:28 | Text without markers passes stage 1 unchanged. |
| Cleaner.StripHeadings | app.py:30 | The heading substitution as a scan for `#` runs followed by a space. No contract of its own: `StripHeadingsRemoves`, `StripHeadingsKeepsHashes`, `StripHeadingsAppend`, `StripHeadingsPlain` and `StripHeadingsLeavesNoMarker` state it. |
| Cleaner.StripHeadingsLeavesNoMarker | app.py:30 | After stage 2, no `#` is directly followed by a space, wherever it stands in the text. |
| Cleaner.StripHeadingsRemoves | app.py:30 | A run of `#` followed by a space is deleted. |
| Cleaner.StripHeadingsKeepsHashes | app.py:30 | A run of `#` followed by neither a space nor another `#` is kept as it is. |
| Cleaner.StripHeadingsAppend | app.py:30 | Text that does not end with `#` is rewritten the same whatever follows it. With the two rows above, a `#` run followed by a space is deleted wherever it occurs and any other `#` run is kept. |
| Cleaner.HashRunAll | app.py:30 | The run of `#` that a heading match consumes is made only of `#`. |
| Cleaner.StripHeadingsPlain | app.py:30 | A prefix without `#` passes stage 2 unchanged. |
| Cleaner.StripHeadingsKeeps | app.py:30 | Text without `#` passes stage 2 unchanged. |
| Cleaner.StripHeadingsKeepsNoMarkers | app.py:30 | Stage 2 introduces no `*` or `_`. |
| Cleaner.DigitsValue | app.py:33 | `int(digits)` on a run of decimal digits. No contract of its own: `Decimal`, `LeadingZeroDrops`, `DigitsValuePositive` and `DecimalOfDigits` state it. |
| Cleaner.PyIndex | app.py:36 | Python list indexing, where a negative index counts from the end. No contract of its own: `StepLabelOfDigits` states its effect, `Step ten: ` for the value 0. |
| Cleaner.DigitChar | app.py:33 | The digit character of a value below ten is a digit and reads back as that value. |
| Cleaner.Decimal | app.py:37 | `str(n)` is a non-empty digit string without leading zeros, and `int()` reads it back as `n`. |
| Cleaner.LeadingZeroDrops | app.py:33 | A leading zero does not change the value `int()` reads. |
| Cleaner.DigitsValuePositive | app.py:33 | Digits that start with a non-zero digit have a positive value. |
| Cleaner.DecimalOfDigits | app.py:33-37 | Digits without leading zeros print back as themselves. |
| Cleaner.StepLabel | app.py:32-37 | A step label never contains `*` or `_`. |
| Cleaner.StepLabelOfDigits | app.py:32-37 | Values 1 to 10 read as `Step one: ` … `Step ten: `. Value 0 reads as `Step ten: ` through index -1. A larger value reads as its own digits. |
| Cleaner.ReplaceSteps | app.py:38 | The numbered-list substitution as a scan for a digit run, a period and the whitespace after it. No contract of its own: `ReplaceStepsNumber`, `ReplaceStepsKeepsNumber`, `ReplaceStepsPlain`, `ReplaceStepsKeeps` and `ReplaceStepsKeepsNoMarkers` state it. |
| Cleaner.ReplaceStepsNumber | app.py:38 | A maximal digit run, a period and all the whitespace after it become the step label of the run's value. |
| Cleaner.ReplaceStepsKeepsNumber | app.py:38 | A digit run not followed by a period is kept as it is. |
| Cleaner.ReplaceStepsPlain | app.py:38 | A prefix without digits passes stage 3 unchanged. |
| Cleaner.ReplaceStepsKeeps | app.py:38 | Text without digits passes stage 3 unchanged. |
| Cleaner.ReplaceStepsKeepsNoMarkers | app.py:32-38 | Stage 3 introduces no `*` or `_`. |
| Cleaner.CleanHasNoMarkers | app.py:26-41 | The cleaned text never contains `*` or `_`. |
| Cleaner.CleanIsNormalized | app.py:26-41 | The cleaned text has no whitespace at either end and no whitespace other than single spaces. Blank input cleans to the empty string. |
| Text.Strip | app.py:91 | `str.strip()`: the result is the slice of the input between leading and trailing whitespace, neither end of it is whitespace, and it is empty exactly for blank input. |
| Text.StripRight | app.py:91 | The result is a prefix of the input, only whitespace is cut, and it does not end in whitespace. |
| Text.Split | app.py:40 | `str.split()` yields only non-empty words without whitespace. |
| Text.SplitBlank | app.py:40 | The word list is empty exactly for blank text. |
| Text.SplitAround | app.py:40 | Text split at a whitespace character splits into the words of both sides. |
| Text.SplitJoin | app.py:40 | Splitting joined words gives the same words back. |
| Text.JoinNormalized | app.py:40 | Words joined with single spaces have the normalized shape. |
| Text.JoinAppend | app.py:40 | Joining two word lists is joining each and putting one space between. |
| Text.Join | app.py:40 | `' '.join(words)`. No contract of its own: `JoinNormalized`, `JoinAppend` and `SplitJoin` state it. |
| Text.Collapse | app.py:40 | `' '.join(text.split())`. No contract of its own: `CollapseNormalized`, `CollapseOfNormalized`, `CollapseAround`, `CollapseIdempotent` and `CollapseAvoids` state it. |
| Text.CollapseNormalized | app.py:40 | The last stage's output is normalized, and empty exactly for blank input. |
| Text.CollapseOfNormalized | app.py:40 | Normalized text passes the last stage unchanged. |
| Text.CollapseAround | app.py:40 | Two normalized texts around one whitespace character collapse to the two texts around one space. |
| Text.CollapseIdempotent | app.py:40 | The last stage on its own is idempotent. |
| Text.CollapseAvoids | app.py:40 | The last stage introduces no character other than the space. |
| CleanerExamples.CleanNotIdempotent | app.py:30-40 | `#\nfoo` cleans to `# foo`, which again has a heading marker. Cleaning that gives `foo`, so the cleaner is not idempotent. |
| CleanerExamples.CleanTwoSteps | app.py:26-41 | `1. Boil water\n2. Add **pasta**` cleans to `Step one: Boil water Step two: Add pasta`. |
| CleanerExamples.CleanStepTwelve | app.py:26-41 | `12. Rest` cleans to `Step 12: Rest`. |
| CleanerExamples.CleanStepThree | app.py:26-41 | `3. Mix well` cleans to `Step three: Mix well`. |
| CleanerExamples.ReplaceStepsDecimalNumber | app.py:38 | The rewrite is unanchored: `1.5 cups` becomes `Step one: 5 cups`. |
| CleanerExamples.ReplaceStepsLeadingZeros | app.py:33-36 | `007. Bake` becomes `Step seven: Bake`. |
| CleanerExamples.ReplaceStepsZero | app.py:33-36 | `0. Serve` becomes `Step ten: Serve`. |
| Voiceover.LookupVoice | app.py:102-113 | An option has settings exactly when the select box offers it. Only `Bengali` speaks `bn`; every other accepted option speaks `en`. |
| Voiceover.AccentTable | app.py:102-108 | Exactly five distinct options are accepted, the table's keys are the select box's options, and each maps to its `lang`/`tld` pair. |
| Voiceover.VoiceoverRequest | app.py:110-124 | An unknown option yields no request and no cleaning. A known one yields the cleaned text at normal speed with the option's settings. |
| Voiceover.SpokenText | app.py:116-124 | The spoken text carries no emphasis markers, is normalized, and is empty for blank input. |
| Voiceover.GenerateVoiceover | app.py:100-139 | An unknown option gives no file. A known one gives the synthesizer's saved path, or none when synthesis, saving or the existence check failed. |
| Completion.FormatLanguage | app.py:199 | The format language is `Bengali` exactly for the `Bengali` option, and `English` otherwise. |
| Completion.PromptTemplate | app.py:53-76 | The Bengali prompt is used exactly for the language `Bengali`. |
| Completion.TemplateForOption | app.py:53-76 | The Bengali prompt is used exactly when the `Bengali` option is selected, and the English prompt otherwise. |
| Completion.CompletionRequestFor | app.py:78-82 | The request carries the recipe, the model, the language's template, temperature 0.7 and 800 tokens. |
| Completion.Contains | app.py:85-87 | Python's `in` raises for `None`, booleans and numbers, and tests the keys of a dictionary. |
| Completion.GetOr | app.py:86-88 | `.get` raises on anything but a dictionary, and returns the entry or the default. |
| Completion.JsonTruthy | app.py:87-90 | Python truthiness of a decoded JSON value, as tested at lines 87 and 90. No contract of its own: `BlankContentExtracted` and `ExtractTextIsChain` state its effect on the extraction. |
| Completion.ResponseTextOf | app.py:84-88 | The value `response_text` ends up with, or the exception one of the steps raises. No contract of its own: `ScalarChoiceRaises`, `NonDictChoiceRaises` and `ExtractTextIsChain` state it. |
| Completion.ExtractText | app.py:84-97 | The stripped text when `response_text` is a non-empty string, nothing otherwise, including when a step raised. No contract of its own: `ExtractTextIsChain` and `BlankContentExtracted` state it. |
| Completion.ExtractTextIsChain | app.py:84-94 | Text is extracted exactly when the reply follows the success chain. The chain is: a dictionary with `choices`, a non-empty list, a first entry that is a dictionary with `message`, and a message that is a dictionary whose `content` is a non-empty string. The text is the stripped content. |
| Completion.BlankContentExtracted | app.py:90-91 | Whitespace-only content passes the truthiness test and is extracted as the empty string. |
| Completion.ScalarChoiceRaises | app.py:84-97 | A first choice that is `None`, a boolean or a number makes the membership test raise, and nothing is extracted. |
| Completion.NonDictChoiceRaises | app.py:87-88 | A first choice that is a string or list mentioning `message` passes the membership test and then `.get` raises. |
| Completion.FormatRecipe | app.py:44-97 | Without a key or without a reply the result is none. Otherwise it is the extraction, and any result is the stripped content of a success chain. |
| Naming.LowerChar | app.py:243 | Lower-casing maps each letter `A`..`Z` to its lower-case letter, 32 code points further, keeps every other character, and maps only the space to the space. |
| Naming.Lower | app.py:243 | `lower()` lower-cases each character in place. |
| Naming.ReplaceChar | app.py:243 | `replace` substitutes every occurrence of one character and keeps the rest. |
| Naming.DownloadFilename | app.py:243 | The download file name. No contract of its own: `DownloadFilenameShape`, `SlugIs` and the five per-option lemmas state it. |
| Naming.DownloadFilenameShape | app.py:243 | The name is `recipe_voiceover_`, then one character per option character with no upper-case letter and no space left, then `.mp3`. Spaces become underscores, upper-case letters become their lower-case letters, and other characters are kept. |
| Naming.SlugIs | app.py:243 | A name is determined by the lower-cased, underscored slug of the option. |
| Naming.AmericanFilename | app.py:243 | `American English` downloads as `recipe_voiceover_american_english.mp3`. |
| Naming.BritishFilename | app.py:243 | `British English` downloads as `recipe_voiceover_british_english.mp3`. |
| Naming.AustralianFilename | app.py:243 | `Australian English` downloads as `recipe_voiceover_australian_english.mp3`. |
| Naming.BangladeshiFilename | app.py:243 | `Bangladeshi English` downloads as `recipe_voiceover_bangladeshi_english.mp3`. |
| Naming.BengaliFilename | app.py:243 | `Bengali` downloads as `recipe_voiceover_bengali.mp3`. |
| Session.AfterFormat | app.py:207-216 | A truthy formatted text replaces the recipe and resets the audio file. A failed or empty result changes nothing. |
| Session.AfterGenerate | app.py:218-228 | The recipe never changes. The audio file changes only while a truthy recipe is shown, for a known option and a truthy saved path, and then becomes that path. |
| Session.AfterPlayback | app.py:232-255 | The recipe never changes. The audio file is cleared exactly when it is set, exists, was read and was deleted. Otherwise it stays as it was. |
| Session.Plays | app.py:236-241 | The audio block plays the stored file when it is set, exists and can be read. No contract of its own: `Offered`, `ShowAudio` and `Run` are stated through it. |
| Session.Offered | app.py:241-246 | A download is offered exactly when the file plays and the link is built, under the option's file name. |
| Session.AfterClick | app.py:207-228 | The pressed button's handler: none, "Format Recipe" or "Generate Voiceover". No contract of its own: `HandlersKeepConsistent` states it, with the contracts of `AfterFormat` and `AfterGenerate`. |
| Session.AfterRun | app.py:207-255 | One run: the pressed button's handler, then the audio block. No contract of its own: `RunsKeepConsistent` and `GeneratedAudioConsumed` state it. |
| Session.AfterRuns | app.py:13-255 | Consecutive runs of the page. No contract of its own: `RunsKeepConsistent` and `ReachableConsistent` state it. |
| Session.HandlersKeepConsistent | app.py:207-255 | Every handler keeps the state consistent: stored values are truthy, and an audio file is stored only with a recipe. |
| Session.RunsKeepConsistent | app.py:207-255 | Any sequence of runs keeps a consistent state consistent. |
| Session.ReachableConsistent | app.py:13-255 | Every state reached from a fresh session is consistent. |
| Session.FormatOutcome | app.py:207-213 | A format that changes the state had a key and a reply, dropped the audio file, and stored the stripped content of a success chain. Without a key or a reply nothing changes. |
| Session.BlankReplyKeepsState | app.py:90-212 | Whitespace-only content extracts to the empty string, which is falsy, so the state is kept. |
| Session.GeneratedAudioConsumed | app.py:223-251 | A voiceover generated in a run is played, offered under the option's name and deleted by the same run's audio block when the file operations succeed. |
| Session.SessionState.constructor | app.py:13-16 | A new session has neither a recipe nor an audio file. |
| Session.SessionState.PressFormat | app.py:207-216 | A completion request is built exactly when a key is configured, with the option's template. A client that fails to be created or to answer shows up as no reply. The new state is `AfterFormat` of the old state, and consistency is kept. |
| Session.SessionState.PressGenerate | app.py:218-228 | The synthesizer receives a request exactly when a truthy recipe is shown and the option is known. The new state is `AfterGenerate` of the old state, and consistency is kept. |
| Session.SessionState.ShowAudio | app.py:232-255 | The file plays exactly when it is set, exists and is read, and the download is `Offered`. The new state is `AfterPlayback` of the old state, and consistency is kept. |
| Session.SessionState.Run | app.py:207-255 | One run of the page is the pressed button's handler followed by the audio block. It returns whether the audio block played the file and the download it offered, both judged on the state the handler left, and it keeps consistency. |

## Left out

- Streamlit rendering: widgets, spinners, success, warning and error messages, and the page layout are not modelled. The select boxes and the text area are parameters.
- The prompt wording (app.py:54-76) is not modelled: the two prompts are the two values of `Template`. The recipe text is carried alongside the template rather than spliced into it.
- Network and synthesis:
  - The completion client is not modelled, and neither is the synthesizer.
  - Their outcomes are parameters: the reply as a `Json` value, or none when the call raised.
  - The saved audio path is a parameter too, or none when synthesis, saving or the existence check failed. This includes the synthesizer's refusal of empty text.
- File-system effects:
  - Temporary-file creation, existence checks, reading, playing and deleting are not modelled.
  - Their outcomes are the boolean parameters in `FileOutcomes`.
- `get_api_key` and the secrets store are not modelled: the configured key is a parameter.
- The download link's base64 encoding (section 4 of RFC 4648) and the data-URI anchor around it (app.py:142-153) are not modelled. Only the file name and whether a link was produced are.
- Character classes are ASCII only:
  - Digits are `0`..`9`.
  - Whitespace is space, tab, line feed, carriage return, form feed and vertical tab.
  - `lower()` maps only `A`..`Z`.
  - Python's `\d`, `\s`, `split()`, `strip()` and `lower()` are broader, and not only outside ASCII: `\s`, `split()` and `strip()` also treat the separators `\x1c`..`\x1f` as whitespace, which this model keeps as ordinary characters.
- JSON numbers are integers; floating-point numbers in a reply are not represented.
- Clean: does not model the limit on integer conversion that recent Python releases impose (`sys.int_max_str_digits`, 4300 digits by default). Under that limit, `int()` at app.py:33 raises `ValueError` for a step number of more than 4300 digits, and the cleaner raises with it. The model reads every digit run.
- VoiceoverRequest: for the same reason, it promises a request for every known option, while under that limit `generate_voiceover` returns None through app.py:137-139 when the text holds a step number of more than 4300 digits.
- Behaviours of the code worth knowing, which the model keeps:
  - `#+ ` and `(\d+)\.\s*` are not anchored to line starts (app.py:30, 38), although the comments at app.py:29 and 31 speak of headers and numbered lists (`CleanerExamples.ReplaceStepsDecimalNumber`).
  - The cleaner is not idempotent (`CleanerExamples.CleanNotIdempotent`).
  - A failed `os.unlink` leaves `audio_file` set (app.py:249-253, `Session.AfterPlayback`), although the comment at app.py:248 speaks of cleaning up.
