/** The voice generator page: a five-step wizard (script, language, voice,
    settings, generate) and the generation workflow that runs on its last
    step (translate unless the target is English, map the chosen persona to
    a provider voice, synthesize speech, save a record). */
module VoiceGenerator {
  import opened Common
  import opened Strings

  const Languages: seq<Language> := [
    Language("hi", "Hindi"), Language("ta", "Tamil"), Language("te", "Telugu"),
    Language("gu", "Gujarati"), Language("mr", "Marathi"), Language("bn", "Bengali"),
    Language("kn", "Kannada"), Language("ml", "Malayalam"), Language("pa", "Punjabi"),
    Language("or", "Odia"), Language("as", "Assamese"), Language("ur", "Urdu")
  ]

  const Personas: seq<Persona> := [
    Persona("male-1", "Arjun", "Male", "Professional"),
    Persona("female-1", "Priya", "Female", "Warm"),
    Persona("male-2", "Vikram", "Male", "Energetic"),
    Persona("female-2", "Anita", "Female", "Calm"),
    Persona("male-3", "Rohit", "Male", "Friendly"),
    Persona("female-3", "Kavya", "Female", "Authoritative")
  ]

  const LastStep: int := 5

  /** The speed slider in tenths: 0.5x to 2.0x in steps of 0.1x, starting at 1x. */
  const MinSpeedTenths: nat := 5
  const MaxSpeedTenths: nat := 20
  const DefaultSpeedTenths: nat := 10

  /** `canProceed`: whether Next is enabled on `step`, judged only from the
      field that step collects. */
  function CanProceed(step: int, script: string, language: string, voice: string): (ok: bool)
    ensures step == 1 ==> (ok <==> !AllWhitespace(script))
    ensures step == 2 ==> (ok <==> language != "")
    ensures step == 3 ==> (ok <==> voice != "")
    ensures step == 4 ==> ok
    ensures !(1 <= step <= 4) ==> !ok
  {
    match step
    case 1 => TrimSpec(script); |Trim(script)| > 0
    case 2 => language != ""
    case 3 => voice != ""
    case 4 => true
    case _ => false
  }

  /** Provider voices used for male personas, and for all others. */
  const MaleProviderVoices: set<string> := {"onyx", "echo", "fable"}
  const OtherProviderVoices: set<string> := {"nova", "shimmer", "alloy"}

  /** The provider voice for a persona (None when the chosen id is not in
      the catalog): by tone among the male voices for a male persona, by
      tone among the other voices otherwise. */
  function ProviderVoice(persona: Option<Persona>): (v: string)
    ensures v in MaleProviderVoices + OtherProviderVoices
    ensures v in MaleProviderVoices <==> persona.Some? && persona.value.gender == "Male"
  {
    if persona.Some? && persona.value.gender == "Male" then
      if persona.value.tone == "Professional" then "onyx"
      else if persona.value.tone == "Energetic" then "echo"
      else "fable"
    else
      if persona.Some? && persona.value.tone == "Warm" then "nova"
      else if persona.Some? && persona.value.tone == "Calm" then "shimmer"
      else "alloy"
  }

  /** The six catalog personas get six different provider voices. */
  lemma CatalogVoicesDistinct()
    ensures forall i, j :: 0 <= i < j < |Personas| ==>
      ProviderVoice(Some(Personas[i])) != ProviderVoice(Some(Personas[j]))
  {
  }

  /** Whether the script is sent for translation before synthesis. */
  function NeedsTranslation(language: string): bool {
    language != "en"
  }

  /** English is not in the picker, so every language the user can pick is translated to. */
  lemma CatalogAlwaysTranslated(code: string)
    requires HasLanguage(Languages, code)
    ensures NeedsTranslation(code)
  {
  }

  /** The estimated length in seconds, rounded up: the least number of
      seconds that covers the text at ten characters a second. */
  function EstimatedSeconds(length: nat): (k: nat)
    ensures 10 * k >= length
    ensures k > 0 ==> 10 * (k - 1) < length
  {
    (length + 9) / 10
  }

  /** The duration shown for a generated voiceover: the estimated seconds of
      its text, followed by "s". */
  function DurationLabel(text: string): string {
    NatToString(EstimatedSeconds(|text|)) + "s"
  }

  /** The shown duration is a decimal number followed by "s", and that number
      is the estimated length in seconds of the spoken text. */
  lemma DurationLabelMeaning(text: string)
    ensures var shown := DurationLabel(text);
      && EndsWith(shown, "s") && AllDigits(shown[..|shown| - 1])
      && DigitsValue(shown[..|shown| - 1]) == EstimatedSeconds(|text|)
  {
    var digits := NatToString(EstimatedSeconds(|text|));
    NatToStringRoundTrip(EstimatedSeconds(|text|));
    assert (digits + "s")[..|digits|] == digits;
  }

  /** The record saved in the `voiceGenerations` collection. */
  datatype VoiceGenerationRecord = VoiceGenerationRecord(
    userId: string, script: string, translatedText: string, language: string,
    voice: string, speedTenths: nat, audioUrl: string, createdAt: string)

  /** The result held by the wizard once generation succeeds. */
  datatype GeneratedAudio = GeneratedAudio(url: string, duration: string, id: string, translatedText: string)

  /** What `handleGenerate` reads: the wizard's fields, the catalog entry
      of the chosen voice id (None if it is not in the catalog), the
      signed-in user and the clock. */
  datatype GenerationRequest = GenerationRequest(
    userId: string, script: string, language: string, voiceId: string,
    persona: Option<Persona>, speedTenths: nat, createdAt: string)

  /** A call on the backend client, in the order they are awaited. A
      translation names its target by language code; the prompt the page
      sends spells out the catalog name of that code. */
  datatype RemoteCall =
    | TranslateText(targetLanguage: string, text: string)
    | GenerateSpeech(text: string, voice: string, speedTenths: nat)
    | CreateRecord(record: VoiceGenerationRecord)

  /** The calls a generation issues and its result (None: it failed or did not run). */
  datatype Attempt = Attempt(calls: seq<RemoteCall>, audio: Option<GeneratedAudio>)

  predicate IsComplete(req: GenerationRequest) {
    req.script != "" && req.language != "" && req.voiceId != ""
  }

  /** The generation workflow, given how each remote call settles. The
      translation, speech and save outcomes are used only if that call is made. */
  function GenerateAttempt(req: GenerationRequest, translation: Outcome<string>,
                           speech: Outcome<string>, saved: Outcome<string>): (a: Attempt)
    ensures |a.calls| <= 3
    ensures a.audio.Some? ==> |a.calls| >= 2 && a.calls[|a.calls| - 1].CreateRecord?
  {
    if !IsComplete(req) then Attempt([], None)
    else
      var translate := if NeedsTranslation(req.language)
                       then [TranslateText(req.language, req.script)]
                       else [];
      if NeedsTranslation(req.language) && translation.Failed? then Attempt(translate, None)
      else
        var text := if NeedsTranslation(req.language) then Trim(translation.value) else req.script;
        var synthesize := translate + [GenerateSpeech(text, ProviderVoice(req.persona), req.speedTenths)];
        if speech.Failed? then Attempt(synthesize, None)
        else
          var rec := VoiceGenerationRecord(req.userId, req.script, text, req.language,
                                           req.voiceId, req.speedTenths, speech.value, req.createdAt);
          var save := synthesize + [CreateRecord(rec)];
          if saved.Failed? then Attempt(save, None)
          else Attempt(save, Some(GeneratedAudio(speech.value, DurationLabel(text), saved.value, text)))
  }

  /** An incomplete request makes no call and leaves the result unchanged. */
  lemma GenerateIncompleteIsNoOp(req: GenerationRequest, translation: Outcome<string>,
                                 speech: Outcome<string>, saved: Outcome<string>)
    requires !IsComplete(req)
    ensures GenerateAttempt(req, translation, speech, saved) == Attempt([], None)
  {
  }

  /** The first call is a translation of the script exactly when the target
      is not English, and no later call translates; for English the script
      itself is synthesized. */
  lemma GenerateStartsWithTranslation(req: GenerationRequest, translation: Outcome<string>,
                                      speech: Outcome<string>, saved: Outcome<string>)
    requires IsComplete(req)
    ensures var a := GenerateAttempt(req, translation, speech, saved);
      && a.calls != []
      && (a.calls[0].TranslateText? <==> req.language != "en")
      && (a.calls[0].TranslateText? ==> a.calls[0].text == req.script)
      && (forall i :: 1 <= i < |a.calls| ==> !a.calls[i].TranslateText?)
      && (req.language == "en" ==>
            a.calls[0] == GenerateSpeech(req.script, ProviderVoice(req.persona), req.speedTenths))
  {
  }

  /** The workflow succeeds exactly when it runs and every call it makes succeeds. */
  lemma GenerateSucceedsIff(req: GenerationRequest, translation: Outcome<string>,
                            speech: Outcome<string>, saved: Outcome<string>)
    ensures GenerateAttempt(req, translation, speech, saved).audio.Some? <==>
      IsComplete(req) && (req.language == "en" || translation.Ok?) && speech.Ok? && saved.Ok?
  {
  }

  /** On success exactly one record is saved, by the last call, right after
      the synthesis; it holds the original script, the spoken text (the
      trimmed translation, or the script for English), the language code,
      the persona id and the speed; the shown duration is that of the
      spoken text. */
  lemma GenerateSuccessRecord(req: GenerationRequest, translation: Outcome<string>,
                              speech: Outcome<string>, saved: Outcome<string>)
    requires GenerateAttempt(req, translation, speech, saved).audio.Some?
    ensures var a := GenerateAttempt(req, translation, speech, saved);
      var spoken := if req.language == "en" then req.script else Trim(translation.value);
      && |a.calls| >= 2
      && a.calls[|a.calls| - 1] == CreateRecord(VoiceGenerationRecord(
           req.userId, req.script, spoken, req.language, req.voiceId, req.speedTenths, speech.value, req.createdAt))
      && (forall i :: 0 <= i < |a.calls| - 1 ==> !a.calls[i].CreateRecord?)
      && a.calls[|a.calls| - 2] == GenerateSpeech(spoken, ProviderVoice(req.persona), req.speedTenths)
      && a.audio.value == GeneratedAudio(speech.value, DurationLabel(spoken), saved.value, spoken)
  {
  }

  /** A failed workflow has saved no record: either no save was requested or
      the save itself failed. */
  lemma GenerateFailureSavesNothing(req: GenerationRequest, translation: Outcome<string>,
                                    speech: Outcome<string>, saved: Outcome<string>)
    requires GenerateAttempt(req, translation, speech, saved).audio.None?
    ensures saved.Failed? || forall c :: c in GenerateAttempt(req, translation, speech, saved).calls ==> !c.CreateRecord?
  {
  }

  /** The name used for an entry in the download filename: `name || fallback`. */
  function NameOr(name: Option<string>, fallback: string): string {
    if name.Some? && name.value != "" then name.value else fallback
  }

  /** The download filename `parivaani-<language>-<voice>-<timestamp>.mp3`,
      from the names of the chosen catalog entries (None when the chosen code
      or id is not in the catalog). */
  function DownloadFilename(languageName: Option<string>, voiceName: Option<string>, timestamp: nat): (f: string)
    ensures StartsWith(f, "parivaani-" + NameOr(languageName, "audio") + "-")
    ensures EndsWith(f, "-" + NameOr(voiceName, "voice") + "-" + NatToString(timestamp) + ".mp3")
    ensures |f| == 10 + |NameOr(languageName, "audio")| + 1 + |NameOr(voiceName, "voice")| + 1 + |NatToString(timestamp)| + 4
  {
    var head := "parivaani-" + NameOr(languageName, "audio");
    var tail := "-" + NameOr(voiceName, "voice") + "-" + NatToString(timestamp) + ".mp3";
    ConcatStartsEnds(head + "-", tail[1..]);
    ConcatStartsEnds(head, tail);
    assert (head + "-") + tail[1..] == head + tail;
    head + tail
  }

  /** A choice missing from its catalog shows up as "audio" or "voice". */
  lemma DownloadFilenameFallbacks(languageName: Option<string>, voiceName: Option<string>, timestamp: nat)
    ensures languageName.None? ==> StartsWith(DownloadFilename(languageName, voiceName, timestamp), "parivaani-audio-")
    ensures voiceName.None? ==> EndsWith(DownloadFilename(languageName, voiceName, timestamp), "-voice-" + NatToString(timestamp) + ".mp3")
  {
    var ts := NatToString(timestamp);
    assert "parivaani-" + "audio" + "-" == "parivaani-audio-";
    assert "-" + "voice" + "-" + ts + ".mp3" == "-voice-" + ts + ".mp3";
  }

  /** With both names present, the filename is exactly
      `parivaani-<language>-<voice>-<timestamp>.mp3`. */
  lemma DownloadFilenameNamed(languageName: string, voiceName: string, timestamp: nat)
    requires languageName != "" && voiceName != ""
    ensures DownloadFilename(Some(languageName), Some(voiceName), timestamp)
      == "parivaani-" + languageName + "-" + voiceName + "-" + NatToString(timestamp) + ".mp3"
  {
    var ts := NatToString(timestamp);
    assert NameOr(Some(languageName), "audio") == languageName;
    assert NameOr(Some(voiceName), "voice") == voiceName;
    assert ("parivaani-" + languageName) + ("-" + voiceName + "-" + ts + ".mp3")
      == "parivaani-" + languageName + "-" + voiceName + "-" + ts + ".mp3";
  }

  /** The download filename for the wizard's choices: the picked language
      code and voice id are looked up in the picker catalogs. */
  function WizardDownloadFilename(languageCode: string, voiceId: string, timestamp: nat): string {
    DownloadFilename(LanguageName(FindLanguage(Languages, languageCode)),
                     PersonaName(FindPersona(Personas, voiceId)), timestamp)
  }

  /** No two picker languages share a code, no two personas share an id,
      and every entry has a name to show. */
  lemma CatalogKeysDistinct()
    ensures forall a, b :: 0 <= a < b < |Languages| ==> Languages[a].code != Languages[b].code
    ensures forall a, b :: 0 <= a < b < |Personas| ==> Personas[a].id != Personas[b].id
    ensures forall a :: 0 <= a < |Languages| ==> Languages[a].name != ""
    ensures forall a :: 0 <= a < |Personas| ==> Personas[a].name != ""
  {
  }

  /** For a language and a persona picked from the catalogs, the filename
      carries their display names. */
  lemma WizardDownloadFilenameNames(i: nat, k: nat, timestamp: nat)
    requires i < |Languages| && k < |Personas|
    ensures WizardDownloadFilename(Languages[i].code, Personas[k].id, timestamp)
      == "parivaani-" + Languages[i].name + "-" + Personas[k].name + "-" + NatToString(timestamp) + ".mp3"
  {
    CatalogKeysDistinct();
    FindLanguageOfDistinct(Languages, i);
    FindPersonaOfDistinct(Personas, k);
    DownloadFilenameNamed(Languages[i].name, Personas[k].name, timestamp);
  }

  /** The ways of getting the audio out of the page, tried in this order. */
  datatype DownloadStrategy = FetchAndSave | OpenInNewTab | CopyUrlToClipboard

  datatype DownloadEnd = NothingToDownload | Saved | OpenedInNewTab | UrlCopied | ReportedFailure

  datatype DownloadRun = DownloadRun(tried: seq<DownloadStrategy>, end: DownloadEnd)

  const Strategies: seq<DownloadStrategy> := [FetchAndSave, OpenInNewTab, CopyUrlToClipboard]

  predicate HasAudioUrl(audio: Option<GeneratedAudio>) {
    audio.Some? && audio.value.url != ""
  }

  /** `handleDownloadAudio` as a decision chain. `fetched` is the size of the
      downloaded blob, or the failure of the request; `tabOpened` says whether
      the browser returned a window; `copied` whether the clipboard accepted
      the URL. A strategy is tried only when every earlier one failed. */
  function DownloadAudio(audio: Option<GeneratedAudio>, fetched: Outcome<nat>, tabOpened: bool, copied: bool): (r: DownloadRun)
    ensures |r.tried| <= |Strategies| && r.tried == Strategies[..|r.tried|]
    ensures r.end == NothingToDownload <==> !HasAudioUrl(audio)
    ensures r.end == NothingToDownload <==> r.tried == []
    ensures r.end == Saved <==> HasAudioUrl(audio) && fetched.Ok? && fetched.value > 0
    ensures OpenInNewTab in r.tried <==> HasAudioUrl(audio) && !(fetched.Ok? && fetched.value > 0)
    ensures CopyUrlToClipboard in r.tried <==> OpenInNewTab in r.tried && !tabOpened
    ensures r.end == OpenedInNewTab <==> OpenInNewTab in r.tried && tabOpened
    ensures r.end == UrlCopied <==> CopyUrlToClipboard in r.tried && copied
    ensures r.end == ReportedFailure <==> CopyUrlToClipboard in r.tried && !copied
  {
    if !HasAudioUrl(audio) then DownloadRun([], NothingToDownload)
    else if fetched.Ok? && fetched.value > 0 then DownloadRun([FetchAndSave], Saved)
    else if tabOpened then DownloadRun([FetchAndSave, OpenInNewTab], OpenedInNewTab)
    else if copied then DownloadRun(Strategies, UrlCopied)
    else DownloadRun(Strategies, ReportedFailure)
  }

  /** On step 5 of a valid wizard the request is complete and its language
      is a catalog one, so the workflow runs and starts with a translation. */
  lemma ReadyToGenerate(req: GenerationRequest, translation: Outcome<string>,
                        speech: Outcome<string>, saved: Outcome<string>)
    requires !AllWhitespace(req.script) && req.language != "" && req.voiceId != ""
    requires HasLanguage(Languages, req.language)
    ensures IsComplete(req)
    ensures var a := GenerateAttempt(req, translation, speech, saved);
      a.calls != [] && a.calls[0].TranslateText?
  {
    CatalogAlwaysTranslated(req.language);
    GenerateStartsWithTranslation(req, translation, speech, saved);
  }

  /** Step 2 of `handleGenerate`: the provider voice starts as "nova" and is
      reassigned by gender, then by tone. */
  method MapProviderVoice(persona: Option<Persona>) returns (openaiVoice: string)
    ensures openaiVoice == ProviderVoice(persona)
  {
    openaiVoice := "nova";
    if persona.Some? && persona.value.gender == "Male" {
      if persona.value.tone == "Professional" {
        openaiVoice := "onyx";
      } else if persona.value.tone == "Energetic" {
        openaiVoice := "echo";
      } else {
        openaiVoice := "fable";
      }
    } else {
      if persona.Some? && persona.value.tone == "Warm" {
        openaiVoice := "nova";
      } else if persona.Some? && persona.value.tone == "Calm" {
        openaiVoice := "shimmer";
      } else {
        openaiVoice := "alloy";
      }
    }
  }

  /** The body of `handleGenerate`'s try block, step by step: translate
      unless the target is English, pick the provider voice, synthesize,
      save. Returns the calls made and the result (None on a failure). */
  method RunGeneration(req: GenerationRequest, translation: Outcome<string>,
                       speech: Outcome<string>, saved: Outcome<string>)
    returns (calls: seq<RemoteCall>, audio: Option<GeneratedAudio>)
    requires IsComplete(req)
    ensures Attempt(calls, audio) == GenerateAttempt(req, translation, speech, saved)
  {
    var persona := req.persona;
    var providerVoice := MapProviderVoice(persona);
    assert providerVoice == ProviderVoice(persona);
    calls := [];
    var translatedText := req.script;
    if req.language != "en" {
      calls := calls + [TranslateText(req.language, req.script)];
      if translation.Failed? {
        return calls, None;
      }
      translatedText := Trim(translation.value);
    }
    calls := calls + [GenerateSpeech(translatedText, providerVoice, req.speedTenths)];
    if speech.Failed? {
      return calls, None;
    }
    var record := VoiceGenerationRecord(req.userId, req.script, translatedText, req.language,
                                        req.voiceId, req.speedTenths, speech.value, req.createdAt);
    calls := calls + [CreateRecord(record)];
    if saved.Failed? {
      return calls, None;
    }
    audio := Some(GeneratedAudio(speech.value, DurationLabel(translatedText), saved.value, translatedText));
  }

  /** The page's state. Every field that the source keeps in React state and
      that the logic reads is a field here. */
  class VoiceWizard {
    var currentStep: int
    var script: string
    var selectedLanguage: string
    var selectedVoice: string
    var speedTenths: nat
    var isGenerating: bool
    var generatedAudio: Option<GeneratedAudio>

    /** The step stays in [1, 5]; every step already passed has its field
        filled; selections come from the catalogs. The model runs each
        asynchronous handler as one event, so between two events the
        in-flight flag is down; the page itself does not rule out other
        events while a call is awaited. */
    ghost predicate Valid()
      reads this
    {
      && 1 <= currentStep <= LastStep
      && (currentStep > 1 ==> !AllWhitespace(script))
      && (currentStep > 2 ==> selectedLanguage != "")
      && (currentStep > 3 ==> selectedVoice != "")
      && (selectedLanguage == "" || HasLanguage(Languages, selectedLanguage))
      && (selectedVoice == "" || HasPersona(Personas, selectedVoice))
      && MinSpeedTenths <= speedTenths <= MaxSpeedTenths
      && !isGenerating
    }

    constructor ()
      ensures Valid()
      ensures currentStep == 1 && script == "" && selectedLanguage == "" && selectedVoice == ""
      ensures speedTenths == DefaultSpeedTenths && generatedAudio == None
    {
      currentStep := 1;
      script := "";
      selectedLanguage := "";
      selectedVoice := "";
      speedTenths := DefaultSpeedTenths;
      isGenerating := false;
      generatedAudio := None;
    }

    function CanProceedNow(): bool
      reads this
    {
      CanProceed(currentStep, script, selectedLanguage, selectedVoice)
    }

    /** The script text area, shown on step 1 only. */
    method EditScript(text: string)
      requires Valid() && currentStep == 1
      modifies this`script
      ensures Valid() && script == text
    {
      script := text;
    }

    /** A language card, shown on step 2 only. */
    method SelectLanguage(code: string)
      requires Valid() && currentStep == 2 && HasLanguage(Languages, code)
      modifies this`selectedLanguage
      ensures Valid() && selectedLanguage == code
    {
      selectedLanguage := code;
    }

    /** A voice card, shown on step 3 only. */
    method SelectVoice(id: string)
      requires Valid() && currentStep == 3 && HasPersona(Personas, id)
      modifies this`selectedVoice
      ensures Valid() && selectedVoice == id
    {
      selectedVoice := id;
    }

    /** The speed slider, shown on step 4 only. */
    method SetSpeed(tenths: nat)
      requires Valid() && currentStep == 4 && MinSpeedTenths <= tenths <= MaxSpeedTenths
      modifies this`speedTenths
      ensures Valid() && speedTenths == tenths
    {
      speedTenths := tenths;
    }

    /** Next: shown below step 5 and enabled when the step can be left; it
        moves forward by exactly one step. Pressing it otherwise does nothing. */
    method Next()
      requires Valid()
      modifies this`currentStep
      ensures Valid()
      ensures currentStep == if old(currentStep) < LastStep && old(CanProceedNow())
                             then old(currentStep) + 1 else old(currentStep)
    {
      if currentStep < LastStep && CanProceedNow() {
        currentStep := currentStep + 1;
      }
    }

    /** Previous: one step back, never below step 1. */
    method Previous()
      requires Valid()
      modifies this`currentStep
      ensures Valid()
      ensures currentStep == if old(currentStep) - 1 > 1 then old(currentStep) - 1 else 1
    {
      currentStep := if currentStep - 1 > 1 then currentStep - 1 else 1;
    }

    /** `handleGenerate`: runs the workflow on the wizard's fields and keeps
        the result on success; returns the calls made on the backend client.
        On step 5 the guard always passes and the first call is a translation. */
    method Generate(userId: string, createdAt: string, translation: Outcome<string>,
                    speech: Outcome<string>, saved: Outcome<string>) returns (calls: seq<RemoteCall>)
      requires Valid()
      modifies this`isGenerating, this`generatedAudio
      ensures Valid()
      ensures var a := GenerateAttempt(
                GenerationRequest(userId, script, selectedLanguage, selectedVoice, FindPersona(Personas, selectedVoice), speedTenths, createdAt),
                translation, speech, saved);
              calls == a.calls && generatedAudio == (if a.audio.Some? then a.audio else old(generatedAudio))
      ensures currentStep == LastStep ==> calls != [] && calls[0].TranslateText?
    {
      var persona := FindPersona(Personas, selectedVoice);
      calls := GenerateFor(GenerationRequest(userId, script, selectedLanguage, selectedVoice, persona, speedTenths, createdAt),
                           translation, speech, saved);
    }

    /** `handleGenerate` once the persona of the chosen voice id is resolved:
        the guard, the in-flight flag around the workflow, and the result kept
        on success. */
    method GenerateFor(req: GenerationRequest, translation: Outcome<string>,
                       speech: Outcome<string>, saved: Outcome<string>) returns (calls: seq<RemoteCall>)
      requires Valid()
      requires req.script == script && req.language == selectedLanguage && req.voiceId == selectedVoice
      modifies this`isGenerating, this`generatedAudio
      ensures Valid()
      ensures var a := GenerateAttempt(req, translation, speech, saved);
              calls == a.calls && generatedAudio == (if a.audio.Some? then a.audio else old(generatedAudio))
      ensures currentStep == LastStep ==> calls != [] && calls[0].TranslateText?
    {
      if currentStep == LastStep {
        ReadyToGenerate(req, translation, speech, saved);
      }
      if !IsComplete(req) {
        return [];
      }
      isGenerating := true;
      var audio;
      calls, audio := RunGeneration(req, translation, speech, saved);
      if audio.Some? {
        generatedAudio := audio;
      }
      isGenerating := false;
    }

    /** "Create Another Voiceover": back to an empty step 1; the speed is kept. */
    method CreateAnother()
      requires Valid()
      modifies this`currentStep, this`script, this`selectedLanguage, this`selectedVoice, this`generatedAudio
      ensures Valid()
      ensures currentStep == 1 && script == "" && selectedLanguage == "" && selectedVoice == ""
      ensures generatedAudio == None && speedTenths == old(speedTenths)
    {
      currentStep := 1;
      script := "";
      selectedLanguage := "";
      selectedVoice := "";
      generatedAudio := None;
    }
  }
}
