# PariVaani voice studio — a Dafny model of the page logic

PariVaani is a web studio for Indian-language voiceovers. It has four working pages, and each one runs a little logic around calls to a hosted backend (AI text and speech, a database, file storage). This project models that logic and proves what the pages promise:

- **Voice generator.** A five-step wizard: script, language, voice persona, speed, generate. On the last step it translates the script unless the target is English. It maps the persona to a provider voice, synthesizes the speech and saves a record. It also builds a download filename and falls back through three download strategies.
- **Video dubbing.** A five-step wizard: upload, original language, target language, voice, process. Uploads are checked for MIME type and size and stored under a per-user path. Processing transcribes, translates, synthesizes and saves, and moves a progress bar through six labelled checkpoints. The video duration is shown as `m:ss`.
- **Support.** A case-insensitive search over the FAQ categories that drops the categories left empty. There is also a contact form that is cleared once it is sent.
- **Dashboard.** Figures computed from the user's recent generations: their count, the characters of script, how many are from this month, and a fixed favourite language. It also has the lookups that turn a language code or a voice id into a name.

Every call to the backend is a parameter of type `Outcome<T>`: either the value it resolved to or the error it threw. The clock (timestamps, the current month), the signed-in user and the browser's verdicts (the email format, whether a tab opened) are parameters too.

Each workflow has two parts:

- a specification function (`GenerateAttempt`, `ProcessAttempt`) that returns the calls made, in order, and the result;
- an imperative method that follows the handler step by step (`RunGeneration`, `RunProcessing`) and is proved equal to that function.

The wizards are classes whose methods update their fields. A `Valid()` invariant keeps the step in [1, 5] and requires every step already passed to have its field filled.

Files:

- `common.dfy`: `Option`, `Outcome`, and the catalog records with their `find`.
- `strings.dfy`: the JavaScript string operations used: `trim`, `toLowerCase`, `includes`, `startsWith`/`endsWith`, number rendering and `padStart`.
- `voice_generator.dfy`, `video_dubbing.dfy`, `support.dfy`, `dashboard.dfy`: one module per page.

Where the code and the intended behaviour part ways, the model follows the code:

- The generate guard tests the untrimmed script (`!script`), although Next on step 1 needs a non-blank trimmed script.
- A video duration of 0 is falsy, so the upload card renders a literal `0` instead of `0:00` (`DurationSuffix`).
- The dashboard names voice `female-2` "Ananya", while the generator's picker calls the same persona "Anita". The dashboard also shows the ids `male-3` and `female-3` unchanged (`VoiceNamesAgainstGenerator`).
- Dubbing speech always uses the voice "nova". The selected voice reaches only the saved record (`SelectedVoiceNotSpoken`).
- "Dub Another Video" resets the progress but leaves the stage label as it was.

## Model

| member | source | states |
|---|---|---|
| Common.FindLanguage | src/pages/VoiceGenerator.tsx:187 | `languages.find` by code: a found entry is the first in the list with the code; nothing is found exactly when no entry has the code |
| Common.FindLanguageOfDistinct | src/pages/VoiceGenerator.tsx:187 | when no two entries share a code, looking up an entry's code finds that entry |
| Common.FindPersona | src/pages/VoiceGenerator.tsx:98 | `voices.find` by id: a found persona is the first in the list with the id; nothing is found exactly when no persona has the id |
| Common.FindPersonaOfDistinct | src/pages/VoiceGenerator.tsx:188 | when no two personas share an id, looking up a persona's id finds that persona |
| Strings.Trim | src/pages/VoiceGenerator.tsx:93 | `trim()`: leading whitespace is dropped, then trailing whitespace; what the result is, is proved in `TrimSpec` |
| Strings.TrimSpec | src/pages/VoiceGenerator.tsx:252 | `trim()` returns the slice of the text between a leading and a trailing run of whitespace. The slice has no whitespace at either end, and it is empty exactly when the text is all whitespace |
| Strings.TrimStartSpec | src/pages/VoiceGenerator.tsx:93 | trimming the start drops only whitespace and leaves a suffix that starts with a non-whitespace character |
| Strings.TrimEndSpec | src/pages/VoiceGenerator.tsx:93 | trimming the end drops only whitespace and leaves a prefix that ends with a non-whitespace character |
| Strings.Lower | src/pages/Support.tsx:162-163 | `toLowerCase()` keeps the length and lower-cases each character on its own (ASCII letters only, as admitted under "## Left out") |
| Strings.Includes | src/pages/Support.tsx:162-163 | `includes`: the substring starts at the first position or occurs in the tail; `IncludesIff` proves it equal to "occurs at some index" |
| Strings.IncludesIff | src/pages/Support.tsx:162-163 | `includes` holds exactly when the substring occurs at some position |
| Strings.IncludesTransitive | src/pages/Support.tsx:162-163 | a substring of a substring is a substring |
| Strings.IncludesLower | src/pages/Support.tsx:162-163 | lower-casing both sides keeps a substring a substring |
| Strings.NatToString | src/pages/VoiceGenerator.tsx:189 | the decimal rendering of a timestamp is a non-empty string of digits with no leading zero |
| Strings.NatToStringRoundTrip | src/pages/VoiceGenerator.tsx:189 | reading the rendered digits back gives the number |
| Strings.NatToStringInjective | src/pages/VideoDubbing.tsx:103 | distinct numbers render differently |
| Strings.TwoDigits | src/pages/VideoDubbing.tsx:373 | `padStart(2, '0')` of a number below 100 is two digits worth that number |
| VoiceGenerator.CanProceed | src/pages/VoiceGenerator.tsx:250-258 | Next is enabled on step 1 iff the trimmed script is non-empty, on step 2 iff a language is chosen, on step 3 iff a voice is chosen, always on step 4, and never on any other step |
| VoiceGenerator.ProviderVoice | src/pages/VoiceGenerator.tsx:98-111 | the provider voice is one of six; it is a male voice exactly when the persona is male |
| VoiceGenerator.CatalogVoicesDistinct | src/pages/VoiceGenerator.tsx:59-66 | the six catalog personas get six different provider voices |
| VoiceGenerator.MapProviderVoice | src/pages/VoiceGenerator.tsx:98-111 | the reassignments of `openaiVoice`, starting from "nova", give the persona's provider voice |
| VoiceGenerator.NeedsTranslation | src/pages/VoiceGenerator.tsx:84 | the script is translated exactly when the chosen code is not "en"; `GenerateStartsWithTranslation` ties it to the calls made |
| VoiceGenerator.CatalogAlwaysTranslated | src/pages/VoiceGenerator.tsx:44-57 | no picker language is English, so every pickable language is translated to |
| VoiceGenerator.EstimatedSeconds | src/pages/VoiceGenerator.tsx:139 | `ceil(length / 10)`: the least number of seconds that covers the text at ten characters a second |
| VoiceGenerator.DurationLabel | src/pages/VoiceGenerator.tsx:139 | the saved duration text: the estimated seconds of the spoken text followed by "s"; its reading is proved in `DurationLabelMeaning` |
| VoiceGenerator.DurationLabelMeaning | src/pages/VoiceGenerator.tsx:139 | the duration label is decimal digits followed by "s", worth the estimated seconds of the spoken text |
| VoiceGenerator.GenerateAttempt | src/pages/VoiceGenerator.tsx:76-150 | at most three calls are made, and a success ends with the record's save |
| VoiceGenerator.GenerateIncompleteIsNoOp | src/pages/VoiceGenerator.tsx:77 | an empty script, language or voice makes no call and gives no result |
| VoiceGenerator.GenerateStartsWithTranslation | src/pages/VoiceGenerator.tsx:81-95 | the first call translates the script exactly when the language is not "en"; no later call translates; for "en" the script itself is synthesized |
| VoiceGenerator.GenerateSucceedsIff | src/pages/VoiceGenerator.tsx:80-143 | generation succeeds iff it runs and every call it makes succeeds |
| VoiceGenerator.GenerateSuccessRecord | src/pages/VoiceGenerator.tsx:126-142 | on success one record is saved, last. It holds the original script, the spoken text, the language code, the voice id and the speed. The synthesis before it speaks the same text, and the result's duration is that of the spoken text |
| VoiceGenerator.GenerateFailureSavesNothing | src/pages/VoiceGenerator.tsx:143-149 | a failed generation has saved nothing unless the save itself failed |
| VoiceGenerator.ReadyToGenerate | src/pages/VoiceGenerator.tsx:77-85 | with the wizard's fields filled from the catalogs, the guard passes and the first call is a translation |
| VoiceGenerator.RunGeneration | src/pages/VoiceGenerator.tsx:80-142 | the step-by-step try block makes exactly the calls of `GenerateAttempt` and returns its result |
| VoiceGenerator.DownloadFilename | src/pages/VoiceGenerator.tsx:187-189 | the filename starts with `parivaani-<language or "audio">-` and ends with `-<voice or "voice">-<timestamp>.mp3`. Its length is that of the parts, so the two overlap on one `-` and nothing else lies between them |
| VoiceGenerator.DownloadFilenameNamed | src/pages/VoiceGenerator.tsx:189 | with both names present, the filename is exactly `parivaani-<language>-<voice>-<timestamp>.mp3` |
| VoiceGenerator.CatalogKeysDistinct | src/pages/VoiceGenerator.tsx:44-66 | the picker codes are distinct, the persona ids are distinct, and every entry has a non-empty name |
| VoiceGenerator.WizardDownloadFilename | src/pages/VoiceGenerator.tsx:187-189 | the wizard's download name: the picked code and id are looked up with `find`, and their names (or the fallbacks) go into `DownloadFilename` |
| VoiceGenerator.WizardDownloadFilenameNames | src/pages/VoiceGenerator.tsx:187-189 | for a language and a voice picked from the catalogs, the filename carries their display names: `parivaani-<name>-<persona name>-<timestamp>.mp3` |
| VoiceGenerator.DownloadFilenameFallbacks | src/pages/VoiceGenerator.tsx:189 | a language missing from the catalog shows as "audio", a missing voice as "voice" |
| VoiceGenerator.DownloadAudio | src/pages/VoiceGenerator.tsx:177-248 | strategies are tried in order, each only after the earlier ones failed. Nothing is tried without an audio URL; a non-empty fetch saves; otherwise a new tab is tried and ends the download when it opens; otherwise the clipboard is tried, ending as copied when it accepts the URL and as a reported failure when it does not |
| VoiceGenerator.VoiceWizard.constructor | src/pages/VoiceGenerator.tsx:26-32 | the wizard starts valid on an empty step 1 at speed 1.0 with no result |
| VoiceGenerator.VoiceWizard.EditScript | src/pages/VoiceGenerator.tsx:364 | typing on step 1 sets the script and keeps the wizard valid |
| VoiceGenerator.VoiceWizard.SelectLanguage | src/pages/VoiceGenerator.tsx:392 | picking a catalog language on step 2 sets it and keeps the wizard valid |
| VoiceGenerator.VoiceWizard.SelectVoice | src/pages/VoiceGenerator.tsx:418 | picking a catalog persona on step 3 sets it and keeps the wizard valid |
| VoiceGenerator.VoiceWizard.SetSpeed | src/pages/VoiceGenerator.tsx:447-466 | the slider sets a speed within 0.5x to 2.0x |
| VoiceGenerator.VoiceWizard.Next | src/pages/VoiceGenerator.tsx:658-663 | Next moves forward exactly one step when the step is below 5 and can be left, and otherwise does nothing; the step stays within [1, 5] |
| VoiceGenerator.VoiceWizard.Previous | src/pages/VoiceGenerator.tsx:650-653 | Previous sets the step to `max(1, step - 1)` |
| VoiceGenerator.VoiceWizard.Generate | src/pages/VoiceGenerator.tsx:76-150 | the calls are those of `GenerateAttempt` on the wizard's fields. The result is replaced only on success. The in-flight flag ends false. On step 5 the first call is a translation |
| VoiceGenerator.VoiceWizard.GenerateFor | src/pages/VoiceGenerator.tsx:77-149 | the guard, the in-flight flag and the result kept only on success, for a request read from the fields |
| VoiceGenerator.VoiceWizard.CreateAnother | src/pages/VoiceGenerator.tsx:629-636 | back to step 1 with the script, language, voice and result cleared; the speed is kept |
| VideoDubbing.CanProceed | src/pages/VideoDubbing.tsx:223-231 | Next is enabled on step 1 iff a video is uploaded, on steps 2 to 4 iff the original language, the target language and the voice are chosen, and never otherwise |
| VideoDubbing.CheckUpload | src/pages/VideoDubbing.tsx:84-97 | the verdict is "no file" iff none was picked; "not a video" iff the type does not start with `video/`; "too large" iff it is a video over 100 MiB; accepted otherwise |
| VideoDubbing.UploadCheckOrder | src/pages/VideoDubbing.tsx:88-97 | the type check comes first, and a video of exactly 104857600 bytes is accepted while one byte more is rejected |
| VideoDubbing.StoragePath | src/pages/VideoDubbing.tsx:103 | the path starts with `videos/<user id>/`, ends with `-<file name>`, and holds exactly the timestamp's digits between the two |
| VideoDubbing.StoragePathInjective | src/pages/VideoDubbing.tsx:103 | for user ids without '/', the path determines the user, the timestamp and the file name |
| VideoDubbing.FormatDuration | src/pages/VideoDubbing.tsx:373 | whole minutes, a colon and the remaining seconds padded to two digits; its reading, round trip and injectivity are the next three rows |
| VideoDubbing.FormatDurationMeaning | src/pages/VideoDubbing.tsx:373 | the display is the decimal minutes, a colon and exactly two digits of seconds below 60 |
| VideoDubbing.FormatDurationRoundTrip | src/pages/VideoDubbing.tsx:373 | reading the `m:ss` display back gives the duration |
| VideoDubbing.FormatDurationInjective | src/pages/VideoDubbing.tsx:373 | different durations display differently |
| VideoDubbing.DurationSuffix | src/pages/VideoDubbing.tsx:373 | no duration adds nothing; a duration of 0 renders "0"; any other adds exactly ` • ` followed by its `m:ss` |
| VideoDubbing.TargetChoices | src/pages/VideoDubbing.tsx:438 | the target cards are exactly the languages whose code differs from the original |
| VideoDubbing.TargetChoicesOffered | src/pages/VideoDubbing.tsx:438 | a code is offered as target iff it is listed and is not the original |
| VideoDubbing.TargetChoicesCount | src/pages/VideoDubbing.tsx:438 | with distinct codes, exactly one card is dropped when the original is listed, and none otherwise |
| VideoDubbing.StageLabel | src/pages/VideoDubbing.tsx:134-175 | the label each checkpoint shows, from "Extracting audio..." to "Finalizing..." |
| VideoDubbing.StageProgress | src/pages/VideoDubbing.tsx:133-174 | the percentage each checkpoint shows: 0, 20, 40, 60, 80, 100 |
| VideoDubbing.StageLabelsDistinct | src/pages/VideoDubbing.tsx:134-175 | no two checkpoints share a label, so the label shown identifies the stage |
| VideoDubbing.CheckpointsIncrease | src/pages/VideoDubbing.tsx:133-175 | the progress checkpoints are 0, 20, 40, 60, 80, 100: strictly increasing, each stage passed once |
| VideoDubbing.ProcessAttempt | src/pages/VideoDubbing.tsx:129-204 | at most four calls are made and the checkpoints shown are a prefix of the six. A success makes all four calls, ends with the dubbing's save, and has shown every checkpoint |
| VideoDubbing.RunProcessing | src/pages/VideoDubbing.tsx:136-196 | the step-by-step try block makes exactly the calls of `ProcessAttempt`, passes its checkpoints and returns its result |
| VideoDubbing.ProcessNotReadyIsNoOp | src/pages/VideoDubbing.tsx:130 | without a video and all three selections nothing is called and no checkpoint is shown |
| VideoDubbing.ProcessTraceFollowsCalls | src/pages/VideoDubbing.tsx:133-177 | a ready request transcribes first; the checkpoints shown are a prefix of the six, one more for each call that settles |
| VideoDubbing.ProcessSucceedsIff | src/pages/VideoDubbing.tsx:136-199 | processing succeeds iff it runs and every call succeeds |
| VideoDubbing.ProcessSuccessRecord | src/pages/VideoDubbing.tsx:151-196 | on success the translation is of the transcription and the speech is of the translation, in voice "nova". The record's processed URL is the uploaded URL, and the result carries the saved id and both texts |
| VideoDubbing.SelectedVoiceNotSpoken | src/pages/VideoDubbing.tsx:160-164 | the calls before the save, the checkpoints and the result do not depend on the selected voice |
| VideoDubbing.DubbingWizard.constructor | src/pages/VideoDubbing.tsx:27-35 | the wizard starts valid on an empty step 1 with no progress |
| VideoDubbing.DubbingWizard.UploadVideo | src/pages/VideoDubbing.tsx:83-119 | a file is uploaded to the storage path only when it passes the checks. It is kept only when the upload succeeds; a rejection leaves the video unchanged |
| VideoDubbing.DubbingWizard.SetDuration | src/pages/VideoDubbing.tsx:121-127 | the preview's metadata sets the duration of the uploaded video |
| VideoDubbing.DubbingWizard.RemoveVideo | src/pages/VideoDubbing.tsx:387-390 | "Choose Different Video" clears the upload |
| VideoDubbing.DubbingWizard.SelectOriginalLanguage | src/pages/VideoDubbing.tsx:417 | picking a catalog language on step 2 sets it and keeps the wizard valid |
| VideoDubbing.DubbingWizard.SelectTargetLanguage | src/pages/VideoDubbing.tsx:438-446 | picking an offered target on step 3 sets it and keeps the wizard valid |
| VideoDubbing.DubbingWizard.SelectVoice | src/pages/VideoDubbing.tsx:475 | picking a catalog voice on step 4 sets it and keeps the wizard valid |
| VideoDubbing.DubbingWizard.Next | src/pages/VideoDubbing.tsx:655-660 | Next moves forward exactly one step when the step is below 5 and can be left; the step stays within [1, 5] |
| VideoDubbing.DubbingWizard.Previous | src/pages/VideoDubbing.tsx:647-650 | Previous sets the step to `max(1, step - 1)` |
| VideoDubbing.DubbingWizard.ShowCheckpoints | src/pages/VideoDubbing.tsx:133-175 | the progress bar passes the given checkpoints in order and ends on the last one's percentage and label |
| VideoDubbing.DubbingWizard.ProcessVideo | src/pages/VideoDubbing.tsx:129-204 | the calls and checkpoints are those of `ProcessAttempt` on the wizard's fields. The progress ends on the last checkpoint shown. The result is replaced only on success, and the in-flight flag ends false |
| VideoDubbing.DubbingWizard.ProcessFor | src/pages/VideoDubbing.tsx:130-203 | the guard, the in-flight flag, the checkpoints and the result kept only on success, for a request read from the fields |
| VideoDubbing.DubbingWizard.DubAnother | src/pages/VideoDubbing.tsx:624-633 | back to step 1 with the video, selections and result cleared and the progress at 0 |
| Support.Matches | src/pages/Support.tsx:160-163 | a question matches when the query is empty or its lower-cased text occurs in the lower-cased question or answer |
| Support.FilterQuestions | src/pages/Support.tsx:160-164 | the question filter keeps no more questions than it is given |
| Support.FilterQuestionsKeeps | src/pages/Support.tsx:160-164 | a question is kept iff it belongs to the category and the lower-cased query is empty or a substring of its lower-cased question or answer |
| Support.FilterFaqs | src/pages/Support.tsx:158-165 | `filteredFAQs`: at most as many categories as given. What it shows is proved in the `FilterFaqs…` lemmas, `NoResultsIff` and `NarrowFaqs` |
| Support.FilterCategory | src/pages/Support.tsx:158-165 | one category with its questions filtered, kept only when questions remain: at most one category |
| Support.FilterFaqsShowsMatches | src/pages/Support.tsx:158-165 | no category shown is empty, and every question shown matches the query |
| Support.FilterQuestionsIsSubsequence | src/pages/Support.tsx:160 | the kept questions keep their order |
| Support.FilterFaqsIsSubsequence | src/pages/Support.tsx:158-165 | the result is a subsequence of the categories, each keeping its name and a subsequence of its questions |
| Support.FilterFaqsComplete | src/pages/Support.tsx:158-165 | every matching question is shown under its category's name |
| Support.NoResultsIff | src/pages/Support.tsx:256 | "No results found" is shown iff no question of any category matches |
| Support.EmptyQueryKeepsAll | src/pages/Support.tsx:161 | an empty query returns categories without empty ones unchanged |
| Support.CatalogShownInFull | src/pages/Support.tsx:36-105 | with an empty search the page shows its whole FAQ |
| Support.MatchesWeaker | src/pages/Support.tsx:161-163 | a question matching a query also matches every query that query contains |
| Support.NarrowQuestions | src/pages/Support.tsx:160-164 | filtering questions by a longer query equals filtering the shorter query's results by it |
| Support.NarrowFaqs | src/pages/Support.tsx:158-165 | the results for a longer query are the shorter query's results filtered again, so typing more only narrows them |
| Support.CanSubmit | src/pages/Support.tsx:316-348 | the form reaches the handler only when all four `required` fields are filled and the browser accepts the email |
| Support.SupportPage.constructor | src/pages/Support.tsx:28-34 | the page starts with an empty search and an empty form |
| Support.SupportPage.Search | src/pages/Support.tsx:228 | typing sets the search query |
| Support.SupportPage.EditField | src/pages/Support.tsx:321-346 | typing in one input sets that field and leaves the others |
| Support.SupportPage.SubmitContact | src/pages/Support.tsx:167-173 | a form the browser accepts is handed over and every field is reset to ""; a blocked one is left as it was |
| Dashboard.TotalCharacters | src/pages/Dashboard.tsx:47 | the `reduce` total of the script lengths, with a missing script counting 0; its laws are the next three rows |
| Dashboard.TotalCharactersAppend | src/pages/Dashboard.tsx:47 | the character total adds up over any split of the list |
| Dashboard.TotalCharactersCountsEachRow | src/pages/Dashboard.tsx:47 | each row's script length, 0 when missing, is part of the total |
| Dashboard.TotalCharactersZero | src/pages/Dashboard.tsx:47 | the total is 0 iff no row has a non-empty script |
| Dashboard.ThisMonthRows | src/pages/Dashboard.tsx:48-52 | a row is counted iff it is listed and its (year, month) is now's; the count is at most the number of rows |
| Dashboard.ThisMonthRowsAppend | src/pages/Dashboard.tsx:48-52 | filtering a concatenation of rows filters each part, so the count adds up over any split |
| Dashboard.ThisMonthRowsMultiset | src/pages/Dashboard.tsx:48-52 | each row of this month is kept as often as it is listed and no other row is kept, so the count shown is the number of listed rows from this month |
| Dashboard.ThisMonthAll | src/pages/Dashboard.tsx:48-52 | the count is the whole list iff every row is from this month |
| Dashboard.ThisMonthNone | src/pages/Dashboard.tsx:48-52 | the count is 0 iff no row is from this month |
| Dashboard.ComputeStats | src/pages/Dashboard.tsx:47-58 | the count is the number of rows; this month's count is at most that; the favourite language is always "Hindi"; no rows give the initial figures |
| Dashboard.GetLanguageName | src/pages/Dashboard.tsx:83-98 | the name of one of the twelve known codes, or the code itself |
| Dashboard.GetVoiceName | src/pages/Dashboard.tsx:100-108 | the name of one of the four known voice ids, or the id itself |
| Dashboard.PickerLanguagesNamed | src/pages/Dashboard.tsx:83-99 | every picker language of the voice generator gets its picker name |
| Dashboard.NamedLanguagesInPicker | src/pages/Dashboard.tsx:83-99 | every code the lookup knows is a picker language of the voice generator |
| Dashboard.LanguageNameAgreesWithGenerator | src/pages/Dashboard.tsx:83-99 | a known code gets the same name the generator's picker shows; any other code is returned as is |
| Dashboard.VoiceNamesAgainstGenerator | src/pages/Dashboard.tsx:101-109 | the first three personas are named as in the generator; "female-2" is named differently; "male-3" and "female-3" are returned as is |
| Dashboard.DashboardPage.constructor | src/pages/Dashboard.tsx:27-34 | the page starts loading, with no rows and the initial figures |
| Dashboard.DashboardPage.LoadGenerations | src/pages/Dashboard.tsx:36-65 | a loaded list replaces the rows and the figures; a failure leaves both; loading ends either way |

## Left out

- Authentication: the signed-in user is an input. The pages' "sign in required" views and the dashboard's `if (user)` guard are not modelled.
- The backend client: AI text, transcription and speech, the database and storage are `Outcome` parameters. The prompt texts are represented by the language codes they name.
- The 2-second delays between dubbing checkpoints are not modelled, because their only effect is timing.
- Console logging and `alert` messages are not modelled, because they are output only.
- Audio and video playback, the DOM anchor, the blob and the `File` object are browser I/O. The download's fetch, tab and clipboard are reduced to their outcomes.
- VoiceGenerator.VoiceWizard.SetSpeed: the slider's floating-point value (0.5 to 2.0, step 0.1) is modelled as integer tenths.
- VideoDubbing.DubbingWizard.SetDuration: `Math.round(video.duration)` is taken as a given natural number.
- The size display in MB (`toFixed(1)`) is left out, because it is floating point.
- Dates: `createdAt` is an opaque string where it is saved. The dashboard receives each row's (year, month), and None for an unparseable date. Time zones and `toLocaleDateString` are not modelled.
- Strings.Lower: only the ASCII letters are lower-cased, not the full Unicode `toLowerCase`.
- Dashboard.ScriptLength, VoiceGenerator.DurationLabel: a string's length is its number of Unicode scalar values, while JavaScript's `length` counts UTF-16 code units. The two agree on text in the Basic Multilingual Plane, which holds all the Indic scripts. They differ for characters outside it, such as emoji, which count twice in JavaScript, so the character total and the estimated seconds can be lower in the model.
- VoiceGenerator.VoiceWizard.Generate, VideoDubbing.DubbingWizard.ProcessVideo, VideoDubbing.DubbingWizard.UploadVideo: each asynchronous handler is modelled as one atomic event. The page does not enforce this. Previous stays enabled while a generation or a dubbing is awaited (src/pages/VoiceGenerator.tsx:650-653, src/pages/VideoDubbing.tsx:647-650), so the user can step back, edit the fields or choose a different video before the result lands. A second file can also be picked while an upload is still awaited. These interleavings, and the stale or out-of-order updates they can cause, are not captured.
- JavaScript object lookups with inherited keys (such as `languages["toString"]`) are not modelled.
- Dashboard.DashboardPage.LoadGenerations: the list request's `limit: 20` and its newest-first order belong to the backend. The list is taken as given.
- The generations list rendering and the preview estimate `~ceil(script.length / 10)s` are presentation.
- The landing, pricing and app pages are not modelled, because they hold static content and routing.
- Support.SupportPage.SubmitContact: the browser's email-format check is an input (`emailAccepted`), not a model of the HTML email grammar.
