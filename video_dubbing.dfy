/** The video dubbing page: a five-step wizard (upload, original language,
    target language, voice, process), the upload checks and storage path,
    the duration display, and the processing workflow with its progress
    checkpoints (transcribe, translate, synthesize, save). */
module VideoDubbing {
  import opened Common
  import opened Strings

  const DubbingLanguages: seq<Language> := [
    Language("en", "English"), Language("hi", "Hindi"), Language("ta", "Tamil"),
    Language("te", "Telugu"), Language("gu", "Gujarati"), Language("mr", "Marathi"),
    Language("bn", "Bengali"), Language("kn", "Kannada"), Language("ml", "Malayalam"),
    Language("pa", "Punjabi"), Language("ur", "Urdu"), Language("es", "Spanish"),
    Language("fr", "French"), Language("de", "German"), Language("zh", "Chinese"),
    Language("ja", "Japanese")
  ]

  const DubbingVoices: seq<Persona> := [
    Persona("male-1", "Arjun", "Male", "Professional"),
    Persona("female-1", "Priya", "Female", "Warm"),
    Persona("male-2", "Vikram", "Male", "Energetic"),
    Persona("female-2", "Anita", "Female", "Calm"),
    Persona("neutral-1", "Alex", "Neutral", "Friendly")
  ]

  const LastStep: int := 5

  /** 100 MiB: the largest accepted upload, in bytes. */
  const MaxUploadBytes: nat := 100 * 1024 * 1024

  /** The voice the speech call always asks for. */
  const DubbingSpeechVoice: string := "nova"

  /** `canProceed`: whether Next is enabled on `step`, judged only from the
      field that step collects. */
  function CanProceed(step: int, hasVideo: bool, original: string, target: string, voice: string): (ok: bool)
    ensures step == 1 ==> (ok <==> hasVideo)
    ensures step == 2 ==> (ok <==> original != "")
    ensures step == 3 ==> (ok <==> target != "")
    ensures step == 4 ==> (ok <==> voice != "")
    ensures !(1 <= step <= 4) ==> !ok
  {
    match step
    case 1 => hasVideo
    case 2 => original != ""
    case 3 => target != ""
    case 4 => voice != ""
    case _ => false
  }

  // ---------------------------------------------------------------------
  // Upload

  /** The part of the picked file the checks read. */
  datatype FileInfo = FileInfo(name: string, mimeType: string, size: nat)

  /** How `handleVideoUpload` ends before the upload call. */
  datatype UploadCheck = NoFile | NotAVideo | TooLarge | Accepted

  /** The checks of `handleVideoUpload`, in order: a file was picked, its
      type starts with "video/", its size is at most 100 MiB. */
  function CheckUpload(file: Option<FileInfo>): (c: UploadCheck)
    ensures c == NoFile <==> file.None?
    ensures c == NotAVideo <==> file.Some? && !StartsWith(file.value.mimeType, "video/")
    ensures c == TooLarge <==>
      file.Some? && StartsWith(file.value.mimeType, "video/") && file.value.size > MaxUploadBytes
    ensures c == Accepted <==>
      file.Some? && StartsWith(file.value.mimeType, "video/") && file.value.size <= MaxUploadBytes
  {
    if file.None? then NoFile
    else if !StartsWith(file.value.mimeType, "video/") then NotAVideo
    else if file.value.size > MaxUploadBytes then TooLarge
    else Accepted
  }

  /** The type check comes first: a file that is not a video is reported as
      such whatever its size, and a video of exactly 100 MiB is accepted. */
  lemma UploadCheckOrder(name: string, mimeType: string, size: nat)
    ensures !StartsWith(mimeType, "video/") ==> CheckUpload(Some(FileInfo(name, mimeType, size))) == NotAVideo
    ensures StartsWith(mimeType, "video/") && size == 104857600 ==>
      CheckUpload(Some(FileInfo(name, mimeType, size))) == Accepted
    ensures StartsWith(mimeType, "video/") && size == 104857601 ==>
      CheckUpload(Some(FileInfo(name, mimeType, size))) == TooLarge
  {
  }

  /** The storage path `videos/<user id>/<timestamp>-<file name>`. */
  function StoragePath(userId: string, timestamp: nat, fileName: string): (p: string)
    ensures StartsWith(p, "videos/" + userId + "/")
    ensures EndsWith(p, "-" + fileName)
    ensures |p| == |"videos/" + userId + "/"| + |NatToString(timestamp)| + 1 + |fileName|
    ensures p[|"videos/" + userId + "/"|..|p| - 1 - |fileName|] == NatToString(timestamp)
  {
    var head := "videos/" + userId + "/";
    var tail := NatToString(timestamp) + "-" + fileName;
    ConcatStartsEnds(head, tail);
    ConcatStartsEnds(head + NatToString(timestamp), "-" + fileName);
    assert head + NatToString(timestamp) + ("-" + fileName) == head + tail;
    head + tail
  }

  /** For user ids without '/', the path determines the user, the timestamp
      and the file name: two uploads with different parts never share a path. */
  lemma StoragePathInjective(u: string, t: nat, f: string, u': string, t': nat, f': string)
    requires '/' !in u && '/' !in u'
    requires StoragePath(u, t, f) == StoragePath(u', t', f')
    ensures u == u' && t == t' && f == f'
  {
    var prefix := "videos/";
    var rest := u + ['/'] + (NatToString(t) + ['-'] + f);
    var rest' := u' + ['/'] + (NatToString(t') + ['-'] + f');
    assert StoragePath(u, t, f) == prefix + rest;
    assert StoragePath(u', t', f') == prefix + rest';
    assert rest == (prefix + rest)[|prefix|..];
    assert rest' == (prefix + rest')[|prefix|..];
    SplitAtFirst(u, NatToString(t) + ['-'] + f, u', NatToString(t') + ['-'] + f', '/');
    assert '-' !in NatToString(t) && '-' !in NatToString(t');
    SplitAtFirst(NatToString(t), f, NatToString(t'), f', '-');
    NatToStringInjective(t, t');
  }

  // ---------------------------------------------------------------------
  // Duration display

  /** A duration in seconds as whole minutes, a colon, and the remaining
      seconds padded to two digits. */
  function FormatDuration(d: nat): string {
    NatToString(d / 60) + ":" + PadStart2(NatToString(d % 60))
  }

  /** The display reads back: before the colon are the decimal minutes,
      after it exactly two digits of seconds below 60. */
  lemma FormatDurationMeaning(d: nat)
    ensures var s := FormatDuration(d);
      && |s| >= 4 && s[|s| - 3] == ':'
      && AllDigits(s[..|s| - 3]) && DigitsValue(s[..|s| - 3]) == d / 60
      && AllDigits(s[|s| - 2..]) && DigitsValue(s[|s| - 2..]) == d % 60 < 60
  {
    var m := NatToString(d / 60);
    var sec := PadStart2(NatToString(d % 60));
    TwoDigits(d % 60);
    NatToStringRoundTrip(d / 60);
    var s := m + ":" + sec;
    assert s[..|s| - 3] == m;
    assert s[|s| - 2..] == sec;
  }

  /** Reads an `m:ss` display back into seconds. */
  function ParseDuration(s: string): Option<nat> {
    if |s| >= 4 && s[|s| - 3] == ':' && AllDigits(s[..|s| - 3]) && AllDigits(s[|s| - 2..])
    then Some(60 * DigitsValue(s[..|s| - 3]) + DigitsValue(s[|s| - 2..]))
    else None
  }

  /** Reading the display back gives the duration again. */
  lemma FormatDurationRoundTrip(d: nat)
    ensures ParseDuration(FormatDuration(d)) == Some(d)
  {
    FormatDurationMeaning(d);
  }

  /** Different durations are displayed differently. */
  lemma FormatDurationInjective(d: nat, e: nat)
    requires FormatDuration(d) == FormatDuration(e)
    ensures d == e
  {
    FormatDurationRoundTrip(d);
    FormatDurationRoundTrip(e);
  }

  /** What follows the size in the upload card. The card guards the
      duration with a truthiness test: a missing duration adds nothing, and
      a duration of 0 fails the test, so the number 0 itself is rendered. */
  function DurationSuffix(duration: Option<nat>): (shown: string)
    ensures duration.None? ==> shown == ""
    ensures duration == Some(0) ==> shown == "0"
    ensures duration.Some? && duration.value > 0 ==>
      EndsWith(shown, FormatDuration(duration.value)) && StartsWith(shown, " • ")
      && |shown| == 3 + |FormatDuration(duration.value)|
  {
    if duration.None? then ""
    else if duration.value == 0 then "0"
    else
      ConcatStartsEnds(" • ", FormatDuration(duration.value));
      " • " + FormatDuration(duration.value)
  }

  // ---------------------------------------------------------------------
  // Target language choices

  /** The target language cards: the listed languages other than the
      original one, in their listed order. */
  function TargetChoices(languages: seq<Language>, original: string): (r: seq<Language>)
    ensures |r| <= |languages|
    ensures forall l :: l in r <==> l in languages && l.code != original
  {
    if languages == [] then []
    else
      (if languages[0].code != original then [languages[0]] else []) + TargetChoices(languages[1..], original)
  }

  /** The target cards offer exactly the listed codes other than the original one. */
  lemma TargetChoicesOffered(languages: seq<Language>, original: string, code: string)
    ensures HasLanguage(TargetChoices(languages, original), code) <==> HasLanguage(languages, code) && code != original
  {
    var r := TargetChoices(languages, original);
    if HasLanguage(r, code) {
      var i :| 0 <= i < |r| && r[i].code == code;
      assert r[i] in languages;
      var j :| 0 <= j < |languages| && languages[j] == r[i];
    }
    if HasLanguage(languages, code) && code != original {
      var j :| 0 <= j < |languages| && languages[j].code == code;
      assert languages[j] in r;
      var i :| 0 <= i < |r| && r[i] == languages[j];
    }
  }

  predicate CodesDistinct(languages: seq<Language>) {
    forall i, j :: 0 <= i < j < |languages| ==> languages[i].code != languages[j].code
  }

  /** With distinct codes, exactly one entry is dropped when the original
      language is in the list, and none otherwise. */
  lemma {:induction false} TargetChoicesCount(languages: seq<Language>, original: string)
    requires CodesDistinct(languages)
    ensures HasLanguage(languages, original) ==> |TargetChoices(languages, original)| == |languages| - 1
    ensures !HasLanguage(languages, original) ==> TargetChoices(languages, original) == languages
  {
    if languages != [] {
      var tail := languages[1..];
      assert CodesDistinct(tail) by {
        forall i, j | 0 <= i < j < |tail| ensures tail[i].code != tail[j].code {
          assert tail[i] == languages[i + 1] && tail[j] == languages[j + 1];
        }
      }
      TargetChoicesCount(tail, original);
      if languages[0].code == original {
        assert !HasLanguage(tail, original) by {
          forall i | 0 <= i < |tail| ensures tail[i].code != original {
            assert tail[i] == languages[i + 1];
          }
        }
      } else {
        assert HasLanguage(languages, original) <==> HasLanguage(tail, original) by {
          if HasLanguage(languages, original) {
            var i :| 0 <= i < |languages| && languages[i].code == original;
            assert tail[i - 1] == languages[i];
          }
          if HasLanguage(tail, original) {
            var i :| 0 <= i < |tail| && tail[i].code == original;
            assert languages[i + 1] == tail[i];
          }
        }
        assert languages == [languages[0]] + tail;
      }
    }
  }

  // ---------------------------------------------------------------------
  // Processing

  /** The stages of processing, each shown with its own label and percentage. */
  datatype Stage = ExtractingAudio | TranscribingSpeech | TranslatingText
                 | GeneratingVoiceover | ProcessingVideo | Finalizing

  function StageLabel(stage: Stage): string {
    match stage
    case ExtractingAudio => "Extracting audio..."
    case TranscribingSpeech => "Transcribing speech..."
    case TranslatingText => "Translating text..."
    case GeneratingVoiceover => "Generating new voiceover..."
    case ProcessingVideo => "Processing video..."
    case Finalizing => "Finalizing..."
  }

  function StageProgress(stage: Stage): nat {
    match stage
    case ExtractingAudio => 0
    case TranscribingSpeech => 20
    case TranslatingText => 40
    case GeneratingVoiceover => 60
    case ProcessingVideo => 80
    case Finalizing => 100
  }

  /** Each stage is shown with its own label. */
  lemma StageLabelsDistinct(s: Stage, t: Stage)
    requires StageLabel(s) == StageLabel(t)
    ensures s == t
  {
  }

  /** The checkpoints `handleProcessVideo` passes, in order. */
  const Stages: seq<Stage> := [ExtractingAudio, TranscribingSpeech, TranslatingText,
                               GeneratingVoiceover, ProcessingVideo, Finalizing]

  /** The progress starts at 0, rises by 20 at each checkpoint (so strictly)
      and ends at 100; no stage is passed twice. */
  lemma CheckpointsIncrease()
    ensures StageProgress(Stages[0]) == 0 && StageProgress(Stages[|Stages| - 1]) == 100
    ensures forall i :: 0 <= i < |Stages| ==> StageProgress(Stages[i]) == 20 * i
    ensures forall i, j :: 0 <= i < j < |Stages| ==> StageProgress(Stages[i]) < StageProgress(Stages[j])
    ensures forall i, j :: 0 <= i < j < |Stages| ==> Stages[i] != Stages[j]
  {
  }

  /** The uploaded video as the page keeps it (the `File` object itself is not modelled). */
  datatype UploadedVideo = UploadedVideo(url: string, name: string, size: nat, duration: Option<nat>)

  /** The record saved in the `videoDubbings` collection. */
  datatype DubbingRecord = DubbingRecord(
    userId: string, originalVideoUrl: string, originalLanguage: string, targetLanguage: string,
    voice: string, originalText: string, translatedText: string, newAudioUrl: string,
    processedVideoUrl: string, createdAt: string)

  /** The result held by the wizard once processing succeeds. */
  datatype ProcessedVideo = ProcessedVideo(id: string, url: string, audioUrl: string,
                                           originalText: string, translatedText: string)

  /** What `handleProcessVideo` reads: the wizard's fields, the signed-in user and the clock. */
  datatype DubbingRequest = DubbingRequest(
    userId: string, video: Option<UploadedVideo>, originalLanguage: string,
    targetLanguage: string, voiceId: string, createdAt: string)

  /** A call on the backend client, in the order they are awaited. The
      translation prompt names both languages; it is identified here by their codes. */
  datatype DubbingCall =
    | TranscribeAudio(audioUrl: string, language: string)
    | TranslateText(fromLanguage: string, toLanguage: string, text: string)
    | GenerateSpeech(text: string, voice: string)
    | CreateDubbing(record: DubbingRecord)

  /** The calls made, the checkpoints shown (in order) and the result. */
  datatype DubbingAttempt = DubbingAttempt(calls: seq<DubbingCall>, shown: seq<Stage>,
                                           result: Option<ProcessedVideo>)

  predicate IsReady(req: DubbingRequest) {
    req.video.Some? && req.originalLanguage != "" && req.targetLanguage != "" && req.voiceId != ""
  }

  /** The processing workflow, given how each remote call settles. */
  function ProcessAttempt(req: DubbingRequest, transcription: Outcome<string>, translation: Outcome<string>,
                          speech: Outcome<string>, saved: Outcome<string>): (a: DubbingAttempt)
    ensures |a.calls| <= 4 && |a.shown| <= |Stages| && a.shown == Stages[..|a.shown|]
    ensures a.result.Some? ==> |a.calls| == 4 && a.calls[3].CreateDubbing? && a.shown == Stages
  {
    if !IsReady(req) then DubbingAttempt([], [], None)
    else
      var video := req.video.value;
      var transcribe := [TranscribeAudio(video.url, req.originalLanguage)];
      if transcription.Failed? then DubbingAttempt(transcribe, [ExtractingAudio, TranscribingSpeech], None)
      else
        var translate := transcribe + [TranslateText(req.originalLanguage, req.targetLanguage, transcription.value)];
        if translation.Failed? then DubbingAttempt(translate, [ExtractingAudio, TranscribingSpeech, TranslatingText], None)
        else
          var synthesize := translate + [GenerateSpeech(translation.value, DubbingSpeechVoice)];
          if speech.Failed? then DubbingAttempt(synthesize, [ExtractingAudio, TranscribingSpeech, TranslatingText, GeneratingVoiceover], None)
          else
            var rec := DubbingRecord(req.userId, video.url, req.originalLanguage, req.targetLanguage,
                                     req.voiceId, transcription.value, translation.value, speech.value,
                                     video.url, req.createdAt);
            var save := synthesize + [CreateDubbing(rec)];
            if saved.Failed? then DubbingAttempt(save, Stages, None)
            else DubbingAttempt(save, Stages,
                                Some(ProcessedVideo(saved.value, video.url, speech.value, transcription.value, translation.value)))
  }

  /** The body of `handleProcessVideo`'s try block, step by step: returns
      the calls made, the checkpoints passed and the result (None on a failure). */
  method RunProcessing(req: DubbingRequest, transcription: Outcome<string>, translation: Outcome<string>,
                       speech: Outcome<string>, saved: Outcome<string>)
    returns (calls: seq<DubbingCall>, shown: seq<Stage>, result: Option<ProcessedVideo>)
    requires IsReady(req)
    ensures DubbingAttempt(calls, shown, result) == ProcessAttempt(req, transcription, translation, speech, saved)
    ensures shown != []
  {
    var video := req.video.value;
    result := None;
    shown := [ExtractingAudio, TranscribingSpeech];
    calls := [TranscribeAudio(video.url, req.originalLanguage)];
    if transcription.Failed? {
      return;
    }
    shown := shown + [TranslatingText];
    calls := calls + [TranslateText(req.originalLanguage, req.targetLanguage, transcription.value)];
    if translation.Failed? {
      return;
    }
    shown := shown + [GeneratingVoiceover];
    calls := calls + [GenerateSpeech(translation.value, DubbingSpeechVoice)];
    if speech.Failed? {
      return;
    }
    shown := shown + [ProcessingVideo, Finalizing];
    var rec := DubbingRecord(req.userId, video.url, req.originalLanguage, req.targetLanguage, req.voiceId,
                             transcription.value, translation.value, speech.value, video.url, req.createdAt);
    calls := calls + [CreateDubbing(rec)];
    if saved.Failed? {
      return;
    }
    result := Some(ProcessedVideo(saved.value, video.url, speech.value, transcription.value, translation.value));
  }

  /** Without a video and all three selections nothing happens. */
  lemma ProcessNotReadyIsNoOp(req: DubbingRequest, transcription: Outcome<string>, translation: Outcome<string>,
                              speech: Outcome<string>, saved: Outcome<string>)
    requires !IsReady(req)
    ensures ProcessAttempt(req, transcription, translation, speech, saved) == DubbingAttempt([], [], None)
  {
  }

  /** A ready request always transcribes first, shows at least the first two
      checkpoints, and passes one more checkpoint for each call that settles. */
  lemma ProcessTraceFollowsCalls(req: DubbingRequest, transcription: Outcome<string>, translation: Outcome<string>,
                                 speech: Outcome<string>, saved: Outcome<string>)
    requires IsReady(req)
    ensures var a := ProcessAttempt(req, transcription, translation, speech, saved);
      && 1 <= |a.calls| <= 4
      && a.calls[0] == TranscribeAudio(req.video.value.url, req.originalLanguage)
      && a.shown == Stages[..if |a.calls| == 4 then |Stages| else |a.calls| + 1]
  {
  }

  /** Processing succeeds exactly when it runs and every call succeeds. */
  lemma ProcessSucceedsIff(req: DubbingRequest, transcription: Outcome<string>, translation: Outcome<string>,
                           speech: Outcome<string>, saved: Outcome<string>)
    ensures ProcessAttempt(req, transcription, translation, speech, saved).result.Some? <==>
      IsReady(req) && transcription.Ok? && translation.Ok? && speech.Ok? && saved.Ok?
  {
  }

  /** On success: the translation is of the transcription, the speech is of
      the translation and always in the "nova" voice, the saved record keeps
      the selected voice id and points at the uploaded video as the processed
      one, and the result carries the saved id and both texts. */
  lemma ProcessSuccessRecord(req: DubbingRequest, transcription: Outcome<string>, translation: Outcome<string>,
                             speech: Outcome<string>, saved: Outcome<string>)
    requires ProcessAttempt(req, transcription, translation, speech, saved).result.Some?
    ensures var a := ProcessAttempt(req, transcription, translation, speech, saved);
      var url := req.video.value.url;
      && |a.calls| == 4
      && a.calls[1] == TranslateText(req.originalLanguage, req.targetLanguage, transcription.value)
      && a.calls[2] == GenerateSpeech(translation.value, "nova")
      && a.calls[3].CreateDubbing?
      && a.calls[3].record.processedVideoUrl == url == a.calls[3].record.originalVideoUrl
      && a.calls[3].record.originalText == transcription.value
      && a.calls[3].record.translatedText == translation.value
      && a.calls[3].record.voice == req.voiceId
      && a.calls[3].record.newAudioUrl == speech.value
      && a.result.value == ProcessedVideo(saved.value, url, speech.value, transcription.value, translation.value)
  {
  }

  /** The selected voice reaches only the saved record: the calls before the
      save, and the result, are the same whatever voice was selected. */
  lemma SelectedVoiceNotSpoken(req: DubbingRequest, voiceId: string, transcription: Outcome<string>,
                               translation: Outcome<string>, speech: Outcome<string>, saved: Outcome<string>)
    requires req.voiceId != "" && voiceId != ""
    ensures var a := ProcessAttempt(req, transcription, translation, speech, saved);
      var b := ProcessAttempt(req.(voiceId := voiceId), transcription, translation, speech, saved);
      && |a.calls| == |b.calls|
      && (forall i :: 0 <= i < |a.calls| && !a.calls[i].CreateDubbing? ==> a.calls[i] == b.calls[i])
      && a.shown == b.shown && a.result == b.result
  {
  }

  // ---------------------------------------------------------------------
  // The wizard

  /** The page's state. The `File` object, the playback flag and the DOM
      references are not modelled. */
  class DubbingWizard {
    var currentStep: int
    var uploadedVideo: Option<UploadedVideo>
    var originalLanguage: string
    var targetLanguage: string
    var selectedVoice: string
    var isProcessing: bool
    var processedVideo: Option<ProcessedVideo>
    var processingProgress: nat
    var processingStage: string
    /** Every checkpoint the progress bar has shown, in order. */
    ghost var stagesShown: seq<Stage>

    /** The step stays in [1, 5]; every step already passed has its field
        filled; selections come from the catalogs. The model runs each
        asynchronous handler as one event, so between two events the
        in-flight flag is down; the page itself does not rule out other
        events while a call is awaited. */
    ghost predicate Valid()
      reads this
    {
      && 1 <= currentStep <= LastStep
      && (currentStep > 1 ==> uploadedVideo.Some?)
      && (currentStep > 2 ==> originalLanguage != "")
      && (currentStep > 3 ==> targetLanguage != "")
      && (currentStep > 4 ==> selectedVoice != "")
      && (originalLanguage == "" || HasLanguage(DubbingLanguages, originalLanguage))
      && (targetLanguage == "" || HasLanguage(DubbingLanguages, targetLanguage))
      && (selectedVoice == "" || HasPersona(DubbingVoices, selectedVoice))
      && !isProcessing
    }

    constructor ()
      ensures Valid()
      ensures currentStep == 1 && uploadedVideo == None && originalLanguage == ""
      ensures targetLanguage == "" && selectedVoice == "" && processedVideo == None
      ensures processingProgress == 0 && processingStage == "" && stagesShown == []
    {
      currentStep := 1;
      uploadedVideo := None;
      originalLanguage := "";
      targetLanguage := "";
      selectedVoice := "";
      isProcessing := false;
      processedVideo := None;
      processingProgress := 0;
      processingStage := "";
      stagesShown := [];
    }

    function CanProceedNow(): bool
      reads this
    {
      CanProceed(currentStep, uploadedVideo.Some?, originalLanguage, targetLanguage, selectedVoice)
    }

    /** `handleVideoUpload`, from the file input shown on step 1 while no
        video is uploaded. The file is uploaded only when it passes the
        checks, and kept (with no duration yet) only when the upload
        succeeds; returns the checks' verdict and the path uploaded to. */
    method UploadVideo(userId: string, timestamp: nat, file: Option<FileInfo>, upload: Outcome<string>)
      returns (check: UploadCheck, path: Option<string>)
      requires Valid() && currentStep == 1 && uploadedVideo.None?
      modifies this`uploadedVideo
      ensures Valid()
      ensures check == CheckUpload(file)
      ensures path.Some? <==> check == Accepted
      ensures path.Some? ==> path.value == StoragePath(userId, timestamp, file.value.name)
      ensures uploadedVideo == if check == Accepted && upload.Ok?
                               then Some(UploadedVideo(upload.value, file.value.name, file.value.size, None))
                               else old(uploadedVideo)
    {
      path := None;
      check := CheckUpload(file);
      if check != Accepted {
        return;
      }
      path := Some(StoragePath(userId, timestamp, file.value.name));
      if upload.Ok? {
        uploadedVideo := Some(UploadedVideo(upload.value, file.value.name, file.value.size, None));
      }
    }

    /** `handleVideoMetadata`: the preview on step 1 reports the duration,
        already rounded to whole seconds. */
    method SetDuration(seconds: nat)
      requires Valid() && currentStep == 1 && uploadedVideo.Some?
      modifies this`uploadedVideo
      ensures Valid()
      ensures uploadedVideo == Some(old(uploadedVideo.value).(duration := Some(seconds)))
    {
      uploadedVideo := Some(uploadedVideo.value.(duration := Some(seconds)));
    }

    /** "Choose Different Video" on step 1. */
    method RemoveVideo()
      requires Valid() && currentStep == 1 && uploadedVideo.Some?
      modifies this`uploadedVideo
      ensures Valid() && uploadedVideo == None
    {
      uploadedVideo := None;
    }

    /** A language card of step 2. */
    method SelectOriginalLanguage(code: string)
      requires Valid() && currentStep == 2 && HasLanguage(DubbingLanguages, code)
      modifies this`originalLanguage
      ensures Valid() && originalLanguage == code
    {
      originalLanguage := code;
    }

    /** A language card of step 3: the cards are `TargetChoices`, so the
        code is a catalog one other than the original (`TargetChoicesOffered`). */
    method SelectTargetLanguage(code: string)
      requires Valid() && currentStep == 3 && HasLanguage(DubbingLanguages, code) && code != originalLanguage
      modifies this`targetLanguage
      ensures Valid() && targetLanguage == code
    {
      targetLanguage := code;
    }

    /** A voice card of step 4. */
    method SelectVoice(id: string)
      requires Valid() && currentStep == 4 && HasPersona(DubbingVoices, id)
      modifies this`selectedVoice
      ensures Valid() && selectedVoice == id
    {
      selectedVoice := id;
    }

    /** Next: shown below step 5 and enabled when the step can be left. */
    method Next()
      requires Valid()
      modifies this`currentStep
      ensures Valid()
      ensures currentStep == if old(currentStep) < LastStep && old(CanProceedNow())
                             then old(currentStep) + 1 else old(currentStep)
    {
      if currentStep < LastStep && CanProceedNow() {
        currentStep := currentStep + 1;
      }
    }

    /** Previous: `Math.max(1, currentStep - 1)`. */
    method Previous()
      requires Valid()
      modifies this`currentStep
      ensures Valid()
      ensures currentStep == if old(currentStep) - 1 > 1 then old(currentStep) - 1 else 1
    {
      currentStep := if currentStep - 1 > 1 then currentStep - 1 else 1;
    }

    /** Shows the checkpoints `shown` on the progress bar, one after the other. */
    method ShowCheckpoints(shown: seq<Stage>)
      requires shown != []
      modifies this`processingProgress, this`processingStage, this`stagesShown
      ensures processingProgress == StageProgress(shown[|shown| - 1])
      ensures processingStage == StageLabel(shown[|shown| - 1])
      ensures stagesShown == old(stagesShown) + shown
    {
      ghost var start := stagesShown;
      for i := 0 to |shown|
        invariant stagesShown == start + shown[..i]
        invariant i > 0 ==> processingProgress == StageProgress(shown[i - 1]) && processingStage == StageLabel(shown[i - 1])
      {
        processingProgress := StageProgress(shown[i]);
        processingStage := StageLabel(shown[i]);
        stagesShown := stagesShown + [shown[i]];
        assert shown[..i + 1] == shown[..i] + [shown[i]];
      }
      assert shown[..|shown|] == shown;
    }

    /** `handleProcessVideo`: runs the workflow on the wizard's fields,
        moving the progress bar through the checkpoints as the calls settle,
        and keeps the result on success; returns the calls made. */
    method ProcessVideo(userId: string, createdAt: string, transcription: Outcome<string>,
                        translation: Outcome<string>, speech: Outcome<string>, saved: Outcome<string>)
      returns (calls: seq<DubbingCall>)
      requires Valid()
      modifies this`isProcessing, this`processingProgress, this`processingStage, this`stagesShown, this`processedVideo
      ensures Valid()
      ensures var a := ProcessAttempt(
                DubbingRequest(userId, uploadedVideo, originalLanguage, targetLanguage, selectedVoice, createdAt),
                transcription, translation, speech, saved);
        && calls == a.calls
        && stagesShown == old(stagesShown) + a.shown
        && (a.shown == [] ==> processingProgress == old(processingProgress) && processingStage == old(processingStage))
        && (a.shown != [] ==> processingProgress == StageProgress(a.shown[|a.shown| - 1])
                              && processingStage == StageLabel(a.shown[|a.shown| - 1]))
        && processedVideo == if a.result.Some? then a.result else old(processedVideo)
      ensures currentStep == LastStep ==> calls != []
    {
      var req := DubbingRequest(userId, uploadedVideo, originalLanguage, targetLanguage, selectedVoice, createdAt);
      calls := ProcessFor(req, transcription, translation, speech, saved);
    }

    /** `handleProcessVideo` on the request read from the fields: the guard,
        the in-flight flag around the workflow, the checkpoints shown one
        after the other, and the result kept on success. */
    method ProcessFor(req: DubbingRequest, transcription: Outcome<string>,
                      translation: Outcome<string>, speech: Outcome<string>, saved: Outcome<string>)
      returns (calls: seq<DubbingCall>)
      requires Valid()
      requires req.video == uploadedVideo && req.originalLanguage == originalLanguage
      requires req.targetLanguage == targetLanguage && req.voiceId == selectedVoice
      modifies this`isProcessing, this`processingProgress, this`processingStage, this`stagesShown, this`processedVideo
      ensures Valid()
      ensures var a := ProcessAttempt(req, transcription, translation, speech, saved);
        && calls == a.calls
        && stagesShown == old(stagesShown) + a.shown
        && (a.shown == [] ==> processingProgress == old(processingProgress) && processingStage == old(processingStage))
        && (a.shown != [] ==> processingProgress == StageProgress(a.shown[|a.shown| - 1])
                              && processingStage == StageLabel(a.shown[|a.shown| - 1]))
        && processedVideo == if a.result.Some? then a.result else old(processedVideo)
      ensures currentStep == LastStep ==> calls != []
    {
      if !IsReady(req) {
        return [];
      }
      isProcessing := true;
      var shown, result;
      calls, shown, result := RunProcessing(req, transcription, translation, speech, saved);
      ShowCheckpoints(shown);
      if result.Some? {
        processedVideo := result;
      }
      isProcessing := false;
    }

    /** "Dub Another Video": back to an empty step 1 with the progress at 0;
        the stage label is left as it was. */
    method DubAnother()
      requires Valid()
      modifies this`currentStep, this`uploadedVideo, this`originalLanguage, this`targetLanguage,
               this`selectedVoice, this`processedVideo, this`processingProgress
      ensures Valid()
      ensures currentStep == 1 && uploadedVideo == None && originalLanguage == ""
      ensures targetLanguage == "" && selectedVoice == "" && processedVideo == None
      ensures processingProgress == 0 && processingStage == old(processingStage)
    {
      currentStep := 1;
      uploadedVideo := None;
      originalLanguage := "";
      targetLanguage := "";
      selectedVoice := "";
      processedVideo := None;
      processingProgress := 0;
    }
  }
}
