/** The recording and transcription orchestrator: starting and stopping the recorder, the
    cancel short-circuits, dispatch on the model's provider, post-processing of the transcript,
    the `Transcription` record written on each path, the retry gate and the default-model
    setters; plus the names derived from a whisper.cpp model. */
module Whisper {
  import opened Common

  // ---------------------------------------------------------------- models and dispatch

  /** The model providers the orchestrator distinguishes; every provider other than the
      local whisper.cpp one and the OS-native one is `Other`. */
  datatype Provider = Local | NativeApple | Other(rawValue: string)

  datatype TranscriptionModel = TranscriptionModel(id: string, name: string, displayName: string, provider: Provider)

  /** The three transcription services `transcribeAudio` can hand a recording to. */
  datatype Service = LocalService | NativeAppleService | CloudService

  /** The provider switch: the local service for `.local`, the native one for
      `.nativeApple`, the cloud service for every other provider. */
  function ServiceFor(p: Provider): (s: Service)
    ensures s == LocalService <==> p == Local
    ensures s == NativeAppleService <==> p == NativeApple
    ensures s == CloudService <==> p.Other?
  {
    match p
    case Local => LocalService
    case NativeApple => NativeAppleService
    case _ => CloudService
  }

  /** The first model in `models` called `name`, as `first(where: { $0.name == name })`. */
  function FirstNamed(models: seq<TranscriptionModel>, name: string): (r: Option<TranscriptionModel>)
    ensures r.Some? ==> r.value in models && r.value.name == name
    ensures r.None? <==> forall k :: 0 <= k < |models| ==> models[k].name != name
    ensures r.Some? ==> exists i :: 0 <= i < |models| && models[i] == r.value && forall k :: 0 <= k < i ==> models[k].name != name
  {
    var i := FirstWhere(models, (m: TranscriptionModel) => m.name == name);
    if i.Some? then Some(models[i.value]) else None
  }

  /** The first model in `models` whose id is `id`, as `first(where: { $0.id == id })`. */
  function FirstWithId(models: seq<TranscriptionModel>, id: string): (r: Option<TranscriptionModel>)
    ensures r.Some? ==> r.value in models && r.value.id == id
    ensures r.None? <==> forall k :: 0 <= k < |models| ==> models[k].id != id
    ensures forall i :: 0 <= i < |models| && models[i].id == id && (forall k :: 0 <= k < i ==> models[k].id != id) ==>
      r == Some(models[i])
  {
    var i := FirstWhere(models, (m: TranscriptionModel) => m.id == id);
    if i.Some? then Some(models[i.value]) else None
  }

  /** A whisper.cpp model on disk. */
  datatype WhisperModel = WhisperModel(name: string, url: string, coreMLEncoderURL: Option<string>)

  const ModelHost: string := "https://huggingface.co/ggerganov/whisper.cpp/resolve/main/"

  function Filename(m: WhisperModel): string {
    m.name + ".bin"
  }

  function DownloadURL(m: WhisperModel): string {
    ModelHost + Filename(m)
  }

  function IsCoreMLDownloaded(m: WhisperModel): bool {
    m.coreMLEncoderURL.Some?
  }

  /** Only non-quantised models (no "q5", no "q8" in the name) have a Core ML encoder. */
  function CoreMLZipDownloadURL(m: WhisperModel): Option<string> {
    if ContainsSub(m.name, "q5") || ContainsSub(m.name, "q8") then None
    else Some(ModelHost + m.name + "-encoder.mlmodelc.zip")
  }

  function CoreMLEncoderDirectoryName(m: WhisperModel): Option<string> {
    if CoreMLZipDownloadURL(m).None? then None
    else Some(m.name + "-encoder.mlmodelc")
  }

  /** The derived names fit together: the weights are `<name>.bin` under the model host,
      a quantised model has neither a Core ML archive nor an encoder directory, and the
      archive of any other model is its encoder directory zipped under the same host. */
  lemma DerivedNames(m: WhisperModel)
    ensures DownloadURL(m) == ModelHost + m.name + ".bin"
    ensures CoreMLZipDownloadURL(m).None? <==> ContainsSub(m.name, "q5") || ContainsSub(m.name, "q8")
    ensures CoreMLEncoderDirectoryName(m).Some? <==> CoreMLZipDownloadURL(m).Some?
    ensures CoreMLEncoderDirectoryName(m).Some? ==>
      CoreMLZipDownloadURL(m).value == ModelHost + CoreMLEncoderDirectoryName(m).value + ".zip"
    ensures CoreMLEncoderDirectoryName(m).Some? ==> StartsWith(CoreMLEncoderDirectoryName(m).value, m.name)
    ensures IsCoreMLDownloaded(m) <==> m.coreMLEncoderURL.Some?
  {
    if CoreMLEncoderDirectoryName(m).Some? {
      var dir := CoreMLEncoderDirectoryName(m).value;
      assert ModelHost + m.name + "-encoder.mlmodelc.zip" == ModelHost + dir + ".zip";
      StartsWithAppend(m.name, "-encoder.mlmodelc");
    }
  }

  /** A quantised model such as "ggml-large-v3-q5_0" has no Core ML encoder. */
  lemma QuantisedModelHasNoCoreML(m: WhisperModel)
    requires m.name == "ggml-large-v3-q5_0"
    ensures CoreMLZipDownloadURL(m).None? && CoreMLEncoderDirectoryName(m).None?
  {
    assert m.name[14..16] == "q5";
    ContainsSubAt(m.name, "q5", 14);
  }

  // ---------------------------------------------------------------- transcript text and records

  /** A stored transcription (the SwiftData `Transcription`); `timestamp` is its creation time. */
  datatype Transcription = Transcription(
    text: string,
    duration: real,
    enhancedText: Option<string>,
    audioFileURL: Option<string>,
    timestamp: int)

  /** The transcript after the service: trimmed of Unicode whitespace, then passed through
      the word-replacement service when that is enabled. */
  function PostProcess(raw: string, wordReplacementEnabled: bool, replace: string -> string): string {
    if wordReplacementEnabled then replace(Trim(raw)) else Trim(raw)
  }

  /** Without word replacement the transcript is the raw text trimmed (the middle slice
      `TrimIsMaximalSlice` describes): it neither starts nor ends with whitespace, and
      post-processing it again changes nothing. */
  lemma PostProcessTrims(raw: string, replace: string -> string)
    ensures PostProcess(raw, false, replace) == Trim(raw)
    ensures var t := PostProcess(raw, false, replace);
      t == [] || (!IsWhitespace(t[0]) && !IsWhitespace(t[|t| - 1]))
    ensures PostProcess(PostProcess(raw, false, replace), false, replace) == PostProcess(raw, false, replace)
  {
    TrimIsMaximalSlice(raw);
    TrimIdempotent(raw);
  }

  const EnhancementFailedPrefix: string := "Enhancement failed: "
  const TranscriptionFailedPrefix: string := "Transcription Failed: "
  /** The prefix the retry gate looks for (without the colon). */
  const RetryablePrefix: string := "Transcription Failed"

  /** The `enhancedText` stored when the enhancer throws. */
  function EnhancementFailedText(description: string): (r: string)
    ensures StartsWith(r, EnhancementFailedPrefix)
    ensures r[|EnhancementFailedPrefix|..] == description
  {
    StartsWithAppend(EnhancementFailedPrefix, description);
    EnhancementFailedPrefix + description
  }

  /** The `text` stored when transcription throws after the permanent copy was made. */
  function TranscriptionFailedText(description: string): (r: string)
    ensures StartsWith(r, TranscriptionFailedPrefix)
    ensures r[|TranscriptionFailedPrefix|..] == description
  {
    StartsWithAppend(TranscriptionFailedPrefix, description);
    TranscriptionFailedPrefix + description
  }

  /** The notice put in front of the text when the trial has expired: one line, then an
      escaped newline, so the text follows a blank line. */
  const TrialNotice: string := "Your trial has expired. Upgrade to VoiceInk Pro at tryvoiceink.com/buy\n\n"

  /** The text pasted at the cursor: the trial notice when the trial has expired, then the
      transcript, then one space. */
  function DeliveredText(text: string, trialExpired: bool): (r: string)
    ensures |r| > 0 && r[|r| - 1] == ' '
    ensures !trialExpired ==> StartsWith(r, text) && |r| == |text| + 1
    ensures trialExpired ==> StartsWith(r, TrialNotice) && r[|TrialNotice|..|r| - 1] == text
  {
    if trialExpired then
      StartsWithAppend(TrialNotice, text + " ");
      TrialNotice + text + " "
    else
      StartsWithAppend(text, " ");
      text + " "
  }

  /** The prompt-detection result for one transcript. */
  datatype Detection = Detection(processedText: string, shouldEnableAI: bool)

  /** The AI enhancement service as one transcription sees it: whether it is configured,
      whether enhancement is enabled once the detection result has been applied, its prompt
      detection and its `enhance`, which returns the enhanced text or the error description. */
  datatype Enhancer = Enhancer(
    isConfigured: bool,
    isEnhancementEnabled: bool,
    detect: string -> Detection,
    enhance: string -> Result<string, string>)

  /** What the collaborators of one `transcribeAudio` call do. */
  datatype TranscribeEnv = TranscribeEnv(
    // the UUID string naming the permanent copy, and what copying throws, if anything
    recordingName: string,
    copyError: Option<string>,
    // the description of `WhisperStateError.transcriptionFailed`
    missingModelError: string,
    // the chosen service's result for the recording and the model
    transcribe: (Service, TranscriptionModel) -> Result<string, string>,
    // whether a cancel arrives while the service is transcribing
    cancelledDuringTranscription: bool,
    wordReplacementEnabled: bool,
    replace: string -> string,
    // loading the duration of the recording, and of the permanent copy on the failure path
    duration: Result<real, string>,
    permanentDuration: Result<real, string>,
    enhancer: Option<Enhancer>,
    trialExpired: bool,
    pastePossible: bool,
    now: int)

  function RecordingURL(recordingsDirectory: string, name: string): string {
    recordingsDirectory + "/" + name + ".wav"
  }

  /** The error the `do` block of `transcribeAudio` throws before any record is written: the
      copy fails, there is no current model, the service fails, or the duration cannot be
      loaded, checked in that order. */
  function FailureOf(env: TranscribeEnv, model: Option<TranscriptionModel>): (e: Option<string>)
    ensures env.copyError.Some? ==> e == env.copyError
    ensures env.copyError.None? && model.None? ==> e == Some(env.missingModelError)
    ensures e.None? <==> (env.copyError.None? && model.Some?
      && env.transcribe(ServiceFor(model.value.provider), model.value).Ok? && env.duration.Ok?)
  {
    if env.copyError.Some? then env.copyError
    else if model.None? then Some(env.missingModelError)
    else
      var result := env.transcribe(ServiceFor(model.value.provider), model.value);
      if result.Err? then Some(result.error)
      else if env.duration.Err? then Some(env.duration.error)
      else None
  }

  /** Whether the transcript goes to the enhancer. */
  predicate EnhancementActive(env: TranscribeEnv) {
    env.enhancer.Some? && env.enhancer.value.isEnhancementEnabled && env.enhancer.value.isConfigured
  }

  /** The text handed to the enhancer: the detection's processed text. */
  function TextForAI(env: TranscribeEnv, transcript: string): string
    requires EnhancementActive(env)
  {
    env.enhancer.value.detect(transcript).processedText
  }

  /** The record stored once the transcript is ready: the post-processed transcript, with
      the enhanced text, or the enhancement error, or nothing in `enhancedText`. */
  function SuccessRecord(env: TranscribeEnv, transcript: string, duration: real, permanentURL: string): Transcription {
    var enhanced :=
      if !EnhancementActive(env) then None
      else match env.enhancer.value.enhance(TextForAI(env, transcript))
        case Ok(e) => Some(e)
        case Err(d) => Some(EnhancementFailedText(d));
    Transcription(transcript, duration, enhanced, Some(permanentURL), env.now)
  }

  /** The text pasted on success: the enhanced text when enhancement succeeded, otherwise
      the post-processed transcript. */
  function DeliveredBase(env: TranscribeEnv, transcript: string): string {
    if EnhancementActive(env) && env.enhancer.value.enhance(TextForAI(env, transcript)).Ok? then
      env.enhancer.value.enhance(TextForAI(env, transcript)).value
    else transcript
  }

  /** An enhancement failure stores exactly one record, which keeps the transcript and
      describes the failure in `enhancedText`, and the transcript itself is what is pasted. */
  lemma EnhancementFailureKeepsTranscript(env: TranscribeEnv, transcript: string, duration: real, url: string)
    requires EnhancementActive(env) && env.enhancer.value.enhance(TextForAI(env, transcript)).Err?
    ensures SuccessRecord(env, transcript, duration, url).text == transcript
    ensures SuccessRecord(env, transcript, duration, url).enhancedText.Some?
    ensures StartsWith(SuccessRecord(env, transcript, duration, url).enhancedText.value, EnhancementFailedPrefix)
    ensures DeliveredBase(env, transcript) == transcript
    ensures SuccessRecord(env, transcript, duration, url).audioFileURL == Some(url)
  {
  }

  /** A successful enhancement is stored beside the transcript and is what is pasted;
      without enhancement the record has no enhanced text and the transcript is pasted. */
  lemma EnhancedTextIsDelivered(env: TranscribeEnv, transcript: string, duration: real, url: string)
    ensures EnhancementActive(env) && env.enhancer.value.enhance(TextForAI(env, transcript)).Ok? ==>
      SuccessRecord(env, transcript, duration, url).enhancedText == Some(DeliveredBase(env, transcript))
    ensures !EnhancementActive(env) ==>
      SuccessRecord(env, transcript, duration, url).enhancedText.None? && DeliveredBase(env, transcript) == transcript
    ensures SuccessRecord(env, transcript, duration, url).text == transcript
  {
  }

  /** The record stored when transcription fails after the permanent copy was made. */
  function FailureRecord(description: string, duration: real, permanentURL: string, now: int): Transcription {
    Transcription(TranscriptionFailedText(description), duration, None, Some(permanentURL), now)
  }

  // ---------------------------------------------------------------- the retry gate

  /** The first record of a fetch sorted by descending timestamp (the earliest of equally
      new records, as the store lists them). */
  function Newest(records: seq<Transcription>): (r: Option<Transcription>)
    ensures r.None? <==> |records| == 0
    ensures r.Some? ==> r.value in records
    ensures r.Some? ==> forall k :: 0 <= k < |records| ==> records[k].timestamp <= r.value.timestamp
  {
    if |records| == 0 then None
    else
      var rest := Newest(records[1..]);
      assert forall k :: 1 <= k < |records| ==> records[k] == records[1..][k - 1];
      if rest.None? || records[0].timestamp >= rest.value.timestamp then Some(records[0]) else rest
  }

  /** A record newer than every stored one is the newest once stored. */
  lemma {:induction false} NewestOfAppended(records: seq<Transcription>, t: Transcription)
    requires forall k :: 0 <= k < |records| ==> records[k].timestamp < t.timestamp
    ensures Newest(records + [t]) == Some(t)
  {
    if |records| > 0 {
      assert (records + [t])[1..] == records[1..] + [t];
      NewestOfAppended(records[1..], t);
    }
  }

  /** The audio URL `retryLastTranscription` retranscribes, if any: only when the newest
      record's text starts with "Transcription Failed" and it has an audio URL that parses. */
  function RetryTarget(records: seq<Transcription>, parses: string -> bool): (r: Option<string>)
    ensures r.Some? <==> (Newest(records).Some? && StartsWith(Newest(records).value.text, RetryablePrefix)
      && Newest(records).value.audioFileURL.Some? && parses(Newest(records).value.audioFileURL.value))
    ensures r.Some? ==> Newest(records).value.audioFileURL == r
  {
    var newest := Newest(records);
    if newest.Some? && StartsWith(newest.value.text, RetryablePrefix)
       && newest.value.audioFileURL.Some? && parses(newest.value.audioFileURL.value)
    then newest.value.audioFileURL
    else None
  }

  /** The record written when transcription fails is what the retry gate accepts: once it
      is the newest record, retrying targets its permanent audio file. */
  lemma FailureRecordIsRetried(records: seq<Transcription>, description: string, duration: real,
                               url: string, now: int, parses: string -> bool)
    requires forall k :: 0 <= k < |records| ==> records[k].timestamp < now
    requires parses(url)
    ensures RetryTarget(records + [FailureRecord(description, duration, url, now)], parses) == Some(url)
  {
    var t := FailureRecord(description, duration, url, now);
    NewestOfAppended(records, t);
    assert TranscriptionFailedPrefix == RetryablePrefix + ": ";
    assert StartsWith(t.text, RetryablePrefix) by {
      assert t.text[..|RetryablePrefix|] == RetryablePrefix;
    }
  }

  /** A record from a successful transcription is never retried while it is the newest, and
      neither is anything while the store is empty. */
  lemma SuccessRecordIsNotRetried(records: seq<Transcription>, env: TranscribeEnv, transcript: string,
                                  duration: real, url: string, parses: string -> bool)
    requires forall k :: 0 <= k < |records| ==> records[k].timestamp < env.now
    requires !StartsWith(transcript, RetryablePrefix)
    ensures RetryTarget(records + [SuccessRecord(env, transcript, duration, url)], parses).None?
    ensures RetryTarget([], parses).None?
  {
    NewestOfAppended(records, SuccessRecord(env, transcript, duration, url));
  }

  // ---------------------------------------------------------------- side effects

  /** The calls the orchestrator makes on its collaborators, in order. */
  datatype Effect =
    | Notify(title: string, isError: bool, tapToRetry: bool)
    | StopRecorder
    | StartRecorder(file: string)
    | RemoveFile(file: string)
    | CopyFile(from: string, to: string)
    | TranscribeWith(service: Service)
    | ApplyDetection
    | Enhance(text: string)
    | Retranscribe(url: string)
    | PlayStopSound
    | Paste(text: string, preserveClipboard: bool)
    | CopyToClipboard(text: string)
    | ShowFallback(text: string)
    | RestoreEnhancementSettings
    | ApplyPowerMode
    | LoadLocalModel(name: string)
    | CaptureScreenContext
    | DismissMiniRecorder
    | CleanupModelResources
    | PostDidChangeModel(name: string)

  /** The delayed paste: paste at the cursor (keeping the clipboard unless auto-copy is on),
      copy to the clipboard when auto-copy is on, and show the fallback window when pasting
      is not possible. */
  function PasteEffects(pasted: string, plain: string, autoCopy: bool, pastePossible: bool): (es: seq<Effect>)
    ensures |es| >= 1 && es[0] == Paste(pasted, !autoCopy)
    ensures CopyToClipboard(plain) in es <==> autoCopy
    ensures ShowFallback(plain) in es <==> !pastePossible
  {
    [Paste(pasted, !autoCopy)]
      + (if autoCopy then [CopyToClipboard(plain)] else [])
      + (if !pastePossible then [ShowFallback(plain)] else [])
  }

  /** The paste keeps the user's clipboard exactly when the text is not also copied to it. */
  lemma PasteKeepsClipboardUnlessCopied(pasted: string, plain: string, autoCopy: bool, pastePossible: bool)
    ensures PasteEffects(pasted, plain, autoCopy, pastePossible)[0].preserveClipboard
      <==> !exists e :: e in PasteEffects(pasted, plain, autoCopy, pastePossible) && e.CopyToClipboard?
  {
    var es := PasteEffects(pasted, plain, autoCopy, pastePossible);
    if autoCopy {
      assert CopyToClipboard(plain) in es;
    }
  }

  const NoModelTitle: string := "No AI Model Selected"
  const EnhancementFailedTitle: string := "AI enhancement failed"
  const RetryTitle: string := "Transcription Failed. Tap to retry."
  const RecordingFailedTitle: string := "Recording Failed"
  const RetrySucceededTitle: string := "Transcription Successful"
  const RetryFailedTitle: string := "Retry Failed"

  /** The post-processed transcript of a successful service call. */
  function Transcript(env: TranscribeEnv, model: TranscriptionModel): string
    requires env.transcribe(ServiceFor(model.provider), model).Ok?
  {
    PostProcess(env.transcribe(ServiceFor(model.provider), model).value, env.wordReplacementEnabled, env.replace)
  }

  /** Whether the enhancer's prompt detection runs: the enhancer exists and is configured. */
  predicate DetectionRuns(env: TranscribeEnv) {
    env.enhancer.Some? && env.enhancer.value.isConfigured
  }

  function DetectionEffects(env: TranscribeEnv): seq<Effect> {
    if DetectionRuns(env) then [ApplyDetection] else []
  }

  /** The enhancer call, followed by a notification when it fails. */
  function EnhancementEffects(env: TranscribeEnv, transcript: string): seq<Effect> {
    if !EnhancementActive(env) then []
    else if env.enhancer.value.enhance(TextForAI(env, transcript)).Ok? then [Enhance(TextForAI(env, transcript))]
    else [Enhance(TextForAI(env, transcript)), Notify(EnhancementFailedTitle, true, false)]
  }

  /** The stop sound, the delayed paste of `text`, and removing the temporary recording. */
  function DeliveryEffects(url: string, text: string, autoCopy: bool, pastePossible: bool): seq<Effect> {
    [PlayStopSound] + PasteEffects(text, text, autoCopy, pastePossible) + [RemoveFile(url)]
  }

  /** Restoring the enhancer's settings when the detection switched AI on, then clean-up. */
  function FinalEffects(env: TranscribeEnv, transcript: string): seq<Effect> {
    (if DetectionRuns(env) && env.enhancer.value.detect(transcript).shouldEnableAI
     then [RestoreEnhancementSettings] else [])
    + [DismissMiniRecorder, CleanupModelResources]
  }

  /** The calls made once the transcript is ready, when `cancelled` says whether a cancel is
      pending by then: detection, enhancement, the stop sound, the paste, removing the
      temporary recording, restoring the enhancer's settings, and clean-up; or, when a
      cancel is pending as enhancement would start, only the detection. */
  function CompletionEffects(url: string, transcript: string, env: TranscribeEnv, cancelled: bool, autoCopy: bool)
    : seq<Effect>
  {
    if EnhancementActive(env) && cancelled then DetectionEffects(env)
    else
      DetectionEffects(env) + EnhancementEffects(env, transcript)
        + DeliveryEffects(url, DeliveredText(DeliveredBase(env, transcript), env.trialExpired), autoCopy, env.pastePossible)
        + FinalEffects(env, transcript)
  }

  /** Once the transcript is ready no service is asked and nothing is copied, and the
      temporary recording is removed exactly when the transcript is delivered. */
  lemma CompletionEffectsKinds(url: string, transcript: string, env: TranscribeEnv, cancelled: bool, autoCopy: bool)
    ensures forall e :: e in CompletionEffects(url, transcript, env, cancelled, autoCopy) ==>
      !e.TranscribeWith? && !e.CopyFile?
    ensures RemoveFile(url) in CompletionEffects(url, transcript, env, cancelled, autoCopy)
      <==> !(EnhancementActive(env) && cancelled)
  {
    var text := DeliveredText(DeliveredBase(env, transcript), env.trialExpired);
    var d := DetectionEffects(env);
    var n := EnhancementEffects(env, transcript);
    var v := DeliveryEffects(url, text, autoCopy, env.pastePossible);
    var f := FinalEffects(env, transcript);
    SurroundingEffectsKinds(env, transcript);
    DeliveryEffectsKinds(url, text, autoCopy, env.pastePossible);
    if !(EnhancementActive(env) && cancelled) {
      assert CompletionEffects(url, transcript, env, cancelled, autoCopy) == d + n + v + f;
      assert RemoveFile(url) in v;
    }
  }

  /** The calls around delivery: detection, enhancement and the final clean-up. */
  lemma SurroundingEffectsKinds(env: TranscribeEnv, transcript: string)
    ensures forall e :: e in DetectionEffects(env) ==> e.ApplyDetection?
    ensures forall e :: e in EnhancementEffects(env, transcript) ==> e.Enhance? || e.Notify?
    ensures forall e :: e in FinalEffects(env, transcript) ==>
      e.RestoreEnhancementSettings? || e.DismissMiniRecorder? || e.CleanupModelResources?
  {
  }

  /** Delivery makes no service call and no copy, and removes only the recording at `url`. */
  lemma DeliveryEffectsKinds(url: string, text: string, autoCopy: bool, pastePossible: bool)
    ensures forall e :: e in DeliveryEffects(url, text, autoCopy, pastePossible) ==>
      !e.TranscribeWith? && !e.CopyFile? && (e.RemoveFile? ==> e.file == url)
    ensures RemoveFile(url) in DeliveryEffects(url, text, autoCopy, pastePossible)
  {
    var p := PasteEffects(text, text, autoCopy, pastePossible);
    PasteEffectsAreUserFacing(text, text, autoCopy, pastePossible);
    var v := DeliveryEffects(url, text, autoCopy, pastePossible);
    assert v == [PlayStopSound] + p + [RemoveFile(url)];
    assert v[|v| - 1] == RemoveFile(url);
  }

  /** Whether the service is asked at all: the permanent copy exists and a model is current. */
  predicate ServiceReached(env: TranscribeEnv, model: Option<TranscriptionModel>) {
    env.copyError.None? && model.Some?
  }

  /** Whether a cancel is pending after the service call. */
  predicate CancelPending(env: TranscribeEnv, model: Option<TranscriptionModel>) {
    ServiceReached(env, model) && env.cancelledDuringTranscription
  }

  /** Whether the transcript is stored and pasted: nothing failed and no cancel stopped the
      enhancement. */
  predicate Delivers(env: TranscribeEnv, model: Option<TranscriptionModel>) {
    FailureOf(env, model).None? && !(EnhancementActive(env) && CancelPending(env, model))
  }

  /** The call on the transcription service, made once the permanent copy exists and a
      model is current. */
  function ServiceEffects(env: TranscribeEnv, model: Option<TranscriptionModel>): seq<Effect> {
    if ServiceReached(env, model) then [TranscribeWith(ServiceFor(model.value.provider))] else []
  }

  /** The catch block's notification (offering a retry only when the permanent copy exists)
      and clean-up. */
  function FailureEffects(env: TranscribeEnv): seq<Effect> {
    [Notify(if env.copyError.None? then RetryTitle else RecordingFailedTitle, true, env.copyError.None?),
     CleanupModelResources, DismissMiniRecorder]
  }

  /** What follows the service call: the failure handling, or the completion. */
  function OutcomeEffects(url: string, env: TranscribeEnv, model: Option<TranscriptionModel>, autoCopy: bool)
    : seq<Effect>
  {
    if FailureOf(env, model).Some? then FailureEffects(env)
    else CompletionEffects(url, Transcript(env, model.value), env, CancelPending(env, model), autoCopy)
  }

  /** The clean-up deferred to the end of `transcribeAudio` when a cancel is pending. */
  function CancelEffects(env: TranscribeEnv, model: Option<TranscriptionModel>): seq<Effect> {
    if CancelPending(env, model) then [CleanupModelResources] else []
  }

  /** The calls `transcribeAudio` makes once its flags are set, for the current `model`, the
      recordings folder `dir` and the auto-copy setting. */
  function TranscriptionEffects(url: string, env: TranscribeEnv, model: Option<TranscriptionModel>, dir: string,
                                autoCopy: bool): seq<Effect>
  {
    [CopyFile(url, RecordingURL(dir, env.recordingName))] + ServiceEffects(env, model)
      + OutcomeEffects(url, env, model, autoCopy) + CancelEffects(env, model)
  }

  /** The records `transcribeAudio` stores once its flags are set. */
  function RecordsWritten(env: TranscribeEnv, model: Option<TranscriptionModel>, dir: string): seq<Transcription> {
    var permanentURL := RecordingURL(dir, env.recordingName);
    match FailureOf(env, model)
    case Some(description) =>
      if env.copyError.None? && env.permanentDuration.Ok?
      then [FailureRecord(description, env.permanentDuration.value, permanentURL, env.now)]
      else []
    case None =>
      if EnhancementActive(env) && CancelPending(env, model) then []
      else [SuccessRecord(env, Transcript(env, model.value), env.duration.value, permanentURL)]
  }

  /** At most one record is stored per transcription. On success it is the transcript
      (enhanced or not) with the permanent audio URL; after a failure that left a permanent
      copy it is a "Transcription Failed" record keeping that URL and no enhanced text. */
  lemma OneRecordPerTranscription(env: TranscribeEnv, model: Option<TranscriptionModel>, dir: string)
    ensures |RecordsWritten(env, model, dir)| <= 1
    ensures Delivers(env, model) <==> |RecordsWritten(env, model, dir)| == 1 && FailureOf(env, model).None?
    ensures Delivers(env, model) ==>
      RecordsWritten(env, model, dir)[0].text == Transcript(env, model.value)
      && RecordsWritten(env, model, dir)[0].audioFileURL == Some(RecordingURL(dir, env.recordingName))
    ensures FailureOf(env, model).Some? && env.copyError.None? && env.permanentDuration.Ok? ==>
      |RecordsWritten(env, model, dir)| == 1
      && StartsWith(RecordsWritten(env, model, dir)[0].text, TranscriptionFailedPrefix)
      && RecordsWritten(env, model, dir)[0].enhancedText.None?
      && RecordsWritten(env, model, dir)[0].audioFileURL == Some(RecordingURL(dir, env.recordingName))
    ensures FailureOf(env, model).Some? && (env.copyError.Some? || env.permanentDuration.Err?) ==>
      RecordsWritten(env, model, dir) == []
  {
  }

  /** The temporary recording is removed exactly when the transcript is delivered: never
      after a failure or a cancel before enhancement. */
  lemma TemporaryRecordingRemovedOnlyOnSuccess(url: string, env: TranscribeEnv, model: Option<TranscriptionModel>,
                                              dir: string, autoCopy: bool)
    ensures RemoveFile(url) in TranscriptionEffects(url, env, model, dir, autoCopy) <==> Delivers(env, model)
  {
    if FailureOf(env, model).None? {
      CompletionEffectsKinds(url, Transcript(env, model.value), env, CancelPending(env, model), autoCopy);
    }
  }

  /** A delivered transcript is pasted as `DeliveredText` of the enhanced text or the
      transcript, keeping the clipboard unless auto-copy is on. */
  lemma DeliveredTranscriptIsPasted(url: string, env: TranscribeEnv, model: Option<TranscriptionModel>,
                                    dir: string, autoCopy: bool)
    requires Delivers(env, model)
    ensures Paste(DeliveredText(DeliveredBase(env, Transcript(env, model.value)), env.trialExpired), !autoCopy)
      in TranscriptionEffects(url, env, model, dir, autoCopy)
  {
    var transcript := Transcript(env, model.value);
    var text := DeliveredText(DeliveredBase(env, transcript), env.trialExpired);
    assert Paste(text, !autoCopy) in PasteEffects(text, text, autoCopy, env.pastePossible);
  }

  /** The service asked is the one the current model's provider selects, and no service is
      asked without a permanent copy and a current model. */
  lemma ProviderSelectsService(url: string, env: TranscribeEnv, model: Option<TranscriptionModel>,
                               dir: string, autoCopy: bool, s: Service)
    ensures TranscribeWith(s) in TranscriptionEffects(url, env, model, dir, autoCopy)
      <==> ServiceReached(env, model) && s == ServiceFor(model.value.provider)
  {
    var outcome := OutcomeEffects(url, env, model, autoCopy);
    if FailureOf(env, model).None? {
      CompletionEffectsKinds(url, Transcript(env, model.value), env, CancelPending(env, model), autoCopy);
    }
    assert TranscribeWith(s) !in outcome;
  }

  /** After a failure the user is offered a retry exactly when a permanent copy was made. */
  lemma FailureNotification(url: string, env: TranscribeEnv, model: Option<TranscriptionModel>,
                            dir: string, autoCopy: bool)
    requires FailureOf(env, model).Some?
    ensures Notify(RetryTitle, true, true) in TranscriptionEffects(url, env, model, dir, autoCopy)
      <==> env.copyError.None?
    ensures Notify(RecordingFailedTitle, true, false) in TranscriptionEffects(url, env, model, dir, autoCopy)
      <==> env.copyError.Some?
  {
  }

  lemma AppendAssociates4<T>(a: seq<T>, b: seq<T>, c: seq<T>, d: seq<T>, e: seq<T>)
    ensures a + b + c + d + e == a + (b + c + d + e)
  {
  }

  /** A listed model is found again by its id. */
  lemma ListedIdIsFound(models: seq<TranscriptionModel>, m: TranscriptionModel)
    requires m in models
    ensures FirstWithId(models, m.id).Some? && FirstWithId(models, m.id).value.id == m.id
  {
    var k :| 0 <= k < |models| && models[k] == m;
    assert models[k].id == m.id;
  }

  /** The delayed paste touches only the cursor, the clipboard and the fallback window. */
  lemma PasteEffectsAreUserFacing(pasted: string, plain: string, autoCopy: bool, pastePossible: bool)
    ensures forall e :: e in PasteEffects(pasted, plain, autoCopy, pastePossible) ==>
      e.Paste? || e.CopyToClipboard? || e.ShowFallback?
  {
  }

  /** The first downloaded model called `name`. */
  function FirstLocalNamed(models: seq<WhisperModel>, name: string): (r: Option<WhisperModel>)
    ensures r.Some? ==> r.value in models && r.value.name == name
    ensures r.None? <==> forall k :: 0 <= k < |models| ==> models[k].name != name
    ensures r.Some? ==> exists i :: 0 <= i < |models| && models[i] == r.value && forall k :: 0 <= k < i ==> models[k].name != name
  {
    var i := FirstWhere(models, (m: WhisperModel) => m.name == name);
    if i.Some? then Some(models[i.value]) else None
  }

  // ---------------------------------------------------------------- the orchestrator

  class WhisperState {
    var isModelLoaded: bool
    var canTranscribe: bool
    var isRecording: bool
    var loadedLocalModel: Option<WhisperModel>
    var currentTranscriptionModel: Option<TranscriptionModel>
    var availableModels: seq<WhisperModel>
    var allAvailableModels: seq<TranscriptionModel>
    var isProcessing: bool
    var shouldCancelRecording: bool
    var isTranscribing: bool
    var isAutoCopyEnabled: bool
    var isVisualizerActive: bool
    /** Whether a whisper.cpp context is loaded. */
    var hasWhisperContext: bool
    var recordedFile: Option<string>
    /** The application-support folder; recordings live in its "Recordings" folder. */
    const appSupportDirectory: string
    /** The transcriptions saved in the model context. */
    var transcriptions: seq<Transcription>
    /** The "CurrentTranscriptionModel" user default. */
    var savedModelName: Option<string>
    /** The calls made on the collaborators so far. */
    ghost var effects: seq<Effect>

    function RecordingsDirectory(): string {
      appSupportDirectory + "/Recordings"
    }

    /** The temporary file a recording is written to. */
    function TemporaryRecording(): string {
      appSupportDirectory + "/output.wav"
    }

    /** `init`: the stored transcriptions, the user defaults and the predefined and local
        models are given; then the saved default is loaded and the model list refreshed. */
    constructor (appSupportDirectory: string, predefinedModels: seq<TranscriptionModel>,
                 localModels: seq<WhisperModel>, savedModelName: Option<string>,
                 isAutoCopyEnabled: bool, transcriptions: seq<Transcription>)
      ensures this.appSupportDirectory == appSupportDirectory
      ensures allAvailableModels == predefinedModels && availableModels == localModels
      ensures currentTranscriptionModel.Some? <==>
        (savedModelName.Some? && FirstNamed(predefinedModels, savedModelName.value).Some?)
      ensures currentTranscriptionModel.Some? ==>
        currentTranscriptionModel.value in predefinedModels
        && currentTranscriptionModel.value.id == FirstNamed(predefinedModels, savedModelName.value).value.id
      ensures !isRecording && !isProcessing && !isTranscribing && !shouldCancelRecording && recordedFile.None?
      ensures this.transcriptions == transcriptions && this.isAutoCopyEnabled == isAutoCopyEnabled
      // the refreshed model is set as the default again: a cloud or native model is ready at once
      ensures canTranscribe == isModelLoaded == (currentTranscriptionModel.Some? && currentTranscriptionModel.value.provider != Local)
      ensures loadedLocalModel.None? && !hasWhisperContext
      ensures currentTranscriptionModel.Some? ==>
        this.savedModelName == Some(currentTranscriptionModel.value.name)
        && effects == [PostDidChangeModel(currentTranscriptionModel.value.name)]
      ensures currentTranscriptionModel.None? ==> this.savedModelName == savedModelName && effects == []
    {
      this.appSupportDirectory := appSupportDirectory;
      isModelLoaded := false;
      canTranscribe := false;
      isRecording := false;
      loadedLocalModel := None;
      currentTranscriptionModel := None;
      availableModels := localModels;
      allAvailableModels := predefinedModels;
      isProcessing := false;
      shouldCancelRecording := false;
      isTranscribing := false;
      this.isAutoCopyEnabled := isAutoCopyEnabled;
      isVisualizerActive := false;
      hasWhisperContext := false;
      recordedFile := None;
      this.transcriptions := transcriptions;
      this.savedModelName := savedModelName;
      effects := [];
      new;
      SelectSavedModel(predefinedModels);
    }

    /** The model steps of `init`: load the saved default, then refresh the model list. */
    method SelectSavedModel(predefinedModels: seq<TranscriptionModel>)
      requires allAvailableModels == predefinedModels && currentTranscriptionModel.None?
      modifies this`allAvailableModels, this`currentTranscriptionModel, this`savedModelName,
        this`loadedLocalModel, this`canTranscribe, this`isModelLoaded, this`effects
      ensures allAvailableModels == predefinedModels
      ensures currentTranscriptionModel.Some? <==>
        (old(savedModelName).Some? && FirstNamed(predefinedModels, old(savedModelName).value).Some?)
      ensures currentTranscriptionModel.Some? ==>
        currentTranscriptionModel.value in predefinedModels
        && currentTranscriptionModel.value.id == FirstNamed(predefinedModels, old(savedModelName).value).value.id
      // a model found again becomes the default: its name is saved and the change is posted
      ensures currentTranscriptionModel.Some? ==>
        var current := currentTranscriptionModel.value;
        savedModelName == Some(current.name) && effects == old(effects) + [PostDidChangeModel(current.name)]
        && (current.provider != Local ==> loadedLocalModel.None? && canTranscribe && isModelLoaded)
        && (current.provider == Local ==>
              loadedLocalModel == old(loadedLocalModel) && canTranscribe == old(canTranscribe)
              && isModelLoaded == old(isModelLoaded))
      ensures currentTranscriptionModel.None? ==>
        savedModelName == old(savedModelName) && effects == old(effects) && loadedLocalModel == old(loadedLocalModel)
        && canTranscribe == old(canTranscribe) && isModelLoaded == old(isModelLoaded)
    {
      LoadCurrentTranscriptionModel();
      ghost var loaded := currentTranscriptionModel;
      if loaded.Some? {
        ListedIdIsFound(predefinedModels, loaded.value);
      }
      RefreshAllAvailableModels(predefinedModels);
    }

    /** `loadCurrentTranscriptionModel()`: the first available model named by the saved
        default becomes current; otherwise nothing changes. */
    method LoadCurrentTranscriptionModel()
      modifies this`currentTranscriptionModel
      ensures savedModelName.Some? && FirstNamed(allAvailableModels, savedModelName.value).Some? ==>
        currentTranscriptionModel == FirstNamed(allAvailableModels, savedModelName.value)
      ensures !(savedModelName.Some? && FirstNamed(allAvailableModels, savedModelName.value).Some?) ==>
        currentTranscriptionModel == old(currentTranscriptionModel)
    {
      if savedModelName.Some? {
        var saved := FirstNamed(allAvailableModels, savedModelName.value);
        if saved.Some? {
          currentTranscriptionModel := saved;
        }
      }
    }

    /** `setDefaultTranscriptionModel(_:)`: the model becomes current and its name the saved
        default; a model that needs no local loading also drops the loaded local model and
        makes transcription possible at once. */
    method SetDefaultTranscriptionModel(model: TranscriptionModel)
      modifies this`currentTranscriptionModel, this`savedModelName, this`loadedLocalModel,
        this`canTranscribe, this`isModelLoaded, this`effects
      ensures currentTranscriptionModel == Some(model) && savedModelName == Some(model.name)
      ensures model.provider != Local ==> loadedLocalModel.None? && canTranscribe && isModelLoaded
      ensures model.provider == Local ==>
        loadedLocalModel == old(loadedLocalModel) && canTranscribe == old(canTranscribe)
        && isModelLoaded == old(isModelLoaded)
      ensures effects == old(effects) + [PostDidChangeModel(model.name)]
    {
      currentTranscriptionModel := Some(model);
      savedModelName := Some(model.name);
      if model.provider != Local {
        loadedLocalModel := None;
      }
      if model.provider != Local {
        canTranscribe := true;
        isModelLoaded := true;
      }
      effects := effects + [PostDidChangeModel(model.name)];
    }

    /** `refreshAllAvailableModels()`: the list becomes the predefined models, and a current
        model whose id is still listed is replaced by the listed version, as a new default. */
    method RefreshAllAvailableModels(predefinedModels: seq<TranscriptionModel>)
      modifies this`allAvailableModels, this`currentTranscriptionModel, this`savedModelName,
        this`loadedLocalModel, this`canTranscribe, this`isModelLoaded, this`effects
      ensures allAvailableModels == predefinedModels
      ensures (old(currentTranscriptionModel).Some?
        && FirstWithId(predefinedModels, old(currentTranscriptionModel).value.id).Some?) ==>
        var updated := FirstWithId(predefinedModels, old(currentTranscriptionModel).value.id).value;
        currentTranscriptionModel == Some(updated) && savedModelName == Some(updated.name)
        && (updated.provider != Local ==> loadedLocalModel.None? && canTranscribe && isModelLoaded)
        && (updated.provider == Local ==>
              loadedLocalModel == old(loadedLocalModel) && canTranscribe == old(canTranscribe)
              && isModelLoaded == old(isModelLoaded))
        && effects == old(effects) + [PostDidChangeModel(updated.name)]
      ensures old(currentTranscriptionModel).None? || FirstWithId(predefinedModels, old(currentTranscriptionModel).value.id).None? ==>
        currentTranscriptionModel == old(currentTranscriptionModel) && savedModelName == old(savedModelName)
        && loadedLocalModel == old(loadedLocalModel) && canTranscribe == old(canTranscribe)
        && isModelLoaded == old(isModelLoaded) && effects == old(effects)
    {
      var currentId := if currentTranscriptionModel.Some? then Some(currentTranscriptionModel.value.id) else None;
      allAvailableModels := predefinedModels;
      if currentId.Some? {
        var updated := FirstWithId(allAvailableModels, currentId.value);
        if updated.Some? {
          SetDefaultTranscriptionModel(updated.value);
        }
      }
    }

    /** `toggleRecord()`: stop when recording, start otherwise. */
    method ToggleRecord(startSucceeds: bool, powerModeModel: Option<TranscriptionModel>,
                        screenContextEnabled: bool, env: TranscribeEnv)
      modifies this`isRecording, this`isVisualizerActive, this`shouldCancelRecording, this`currentTranscriptionModel,
        this`isProcessing, this`isTranscribing, this`canTranscribe, this`recordedFile,
        this`transcriptions, this`effects
      // stopping: the recorder stops, then the pending cancel resets, or the recording is transcribed
      ensures old(isRecording) ==>
        !isRecording && !isVisualizerActive && recordedFile == old(recordedFile)
        && currentTranscriptionModel == old(currentTranscriptionModel)
      ensures old(isRecording) && old(recordedFile).Some? && old(shouldCancelRecording) ==>
        !isProcessing && !isTranscribing && canTranscribe && shouldCancelRecording
        && transcriptions == old(transcriptions) && effects == old(effects) + [StopRecorder, CleanupModelResources]
      ensures old(isRecording) && old(recordedFile).Some? && !old(shouldCancelRecording) ==>
        isProcessing && isTranscribing && !canTranscribe
        && shouldCancelRecording == CancelPending(env, currentTranscriptionModel)
        && transcriptions == old(transcriptions) + RecordsWritten(env, currentTranscriptionModel, RecordingsDirectory())
        && effects == old(effects) + [StopRecorder]
           + TranscriptionEffects(old(recordedFile).value, env, currentTranscriptionModel, RecordingsDirectory(), isAutoCopyEnabled)
      ensures old(isRecording) && old(recordedFile).None? ==>
        isProcessing == old(isProcessing) && isTranscribing == old(isTranscribing)
        && canTranscribe == old(canTranscribe) && shouldCancelRecording == old(shouldCancelRecording)
        && transcriptions == old(transcriptions) && effects == old(effects) + [StopRecorder]
      // starting never touches the processing flags or the store
      ensures !old(isRecording) ==>
        isProcessing == old(isProcessing) && isTranscribing == old(isTranscribing)
        && canTranscribe == old(canTranscribe) && transcriptions == old(transcriptions)
      ensures !old(isRecording) && old(currentTranscriptionModel).None? ==>
        !isRecording && isVisualizerActive == old(isVisualizerActive)
        && shouldCancelRecording == old(shouldCancelRecording) && recordedFile == old(recordedFile)
        && currentTranscriptionModel.None? && effects == old(effects) + [Notify(NoModelTitle, true, false)]
      ensures !old(isRecording) && old(currentTranscriptionModel).Some? && !startSucceeds ==>
        !isRecording && !isVisualizerActive && recordedFile.None? && !shouldCancelRecording
        && currentTranscriptionModel == old(currentTranscriptionModel)
        && effects == old(effects) + [StartRecorder(TemporaryRecording()), RemoveFile(TemporaryRecording())]
      ensures !old(isRecording) && old(currentTranscriptionModel).Some? && startSucceeds ==>
        isRecording && isVisualizerActive && recordedFile == Some(TemporaryRecording()) && !shouldCancelRecording
        && currentTranscriptionModel == (if powerModeModel.Some? then powerModeModel else old(currentTranscriptionModel))
        && effects == old(effects) + [StartRecorder(TemporaryRecording())] + [ApplyPowerMode]
           + LocalModelLoad(currentTranscriptionModel.value)
           + (if screenContextEnabled then [CaptureScreenContext] else [])
    {
      if isRecording {
        StopRecording(env);
      } else {
        StartRecording(startSucceeds, powerModeModel, screenContextEnabled);
      }
    }

    /** The stopping half of `toggleRecord()`: stop the recorder and, when there is a
        recorded file, transcribe it, or reset the processing flags when a cancel is pending. */
    method StopRecording(env: TranscribeEnv)
      modifies this`isRecording, this`isVisualizerActive, this`shouldCancelRecording,
        this`isProcessing, this`isTranscribing, this`canTranscribe, this`transcriptions, this`effects
      ensures !isRecording && !isVisualizerActive
      ensures recordedFile.Some? && old(shouldCancelRecording) ==>
        !isProcessing && !isTranscribing && canTranscribe && shouldCancelRecording
        && transcriptions == old(transcriptions) && effects == old(effects) + [StopRecorder, CleanupModelResources]
      ensures recordedFile.Some? && !old(shouldCancelRecording) ==>
        isProcessing && isTranscribing && !canTranscribe
        && shouldCancelRecording == CancelPending(env, currentTranscriptionModel)
        && transcriptions == old(transcriptions) + RecordsWritten(env, currentTranscriptionModel, RecordingsDirectory())
        && effects == old(effects) + [StopRecorder]
           + TranscriptionEffects(recordedFile.value, env, currentTranscriptionModel, RecordingsDirectory(), isAutoCopyEnabled)
      ensures recordedFile.None? ==>
        isProcessing == old(isProcessing) && isTranscribing == old(isTranscribing)
        && canTranscribe == old(canTranscribe) && shouldCancelRecording == old(shouldCancelRecording)
        && transcriptions == old(transcriptions) && effects == old(effects) + [StopRecorder]
    {
      isRecording := false;
      isVisualizerActive := false;
      effects := effects + [StopRecorder];
      if recordedFile.Some? {
        if !shouldCancelRecording {
          TranscribeAudio(recordedFile.value, env);
        } else {
          isProcessing := false;
          isTranscribing := false;
          canTranscribe := true;
          effects := effects + [CleanupModelResources];
        }
      }
    }

    /** The model load that starting a recording triggers: for a local model with a matching
        downloaded model and no loaded context, that model is loaded. */
    function LocalModelLoad(model: TranscriptionModel): (es: seq<Effect>)
      reads this
      ensures |es| <= 1
      ensures |es| == 1 <==> model.provider == Local && FirstLocalNamed(availableModels, model.name).Some? && !hasWhisperContext
      ensures |es| == 1 ==> es[0] == LoadLocalModel(model.name)
    {
      if model.provider == Local && FirstLocalNamed(availableModels, model.name).Some? && !hasWhisperContext
      then [LoadLocalModel(FirstLocalNamed(availableModels, model.name).value.name)]
      else []
    }

    /** The starting half of `toggleRecord()`: it needs a current model; `startSucceeds` is
        whether the recorder starts and `screenContextEnabled` whether the enhancer wants the
        screen captured. Recording permission is always granted on macOS. `powerModeModel` is
        the model the Power Mode configuration of the frontmost app switches to, if any; the
        local model is loaded for the model current after that switch. */
    method StartRecording(startSucceeds: bool, powerModeModel: Option<TranscriptionModel>, screenContextEnabled: bool)
      modifies this`isRecording, this`isVisualizerActive, this`shouldCancelRecording, this`recordedFile,
        this`currentTranscriptionModel, this`effects
      // without a model it only notifies
      ensures old(currentTranscriptionModel).None? ==>
        currentTranscriptionModel.None? && isRecording == old(isRecording) && isVisualizerActive == old(isVisualizerActive)
        && shouldCancelRecording == old(shouldCancelRecording) && recordedFile == old(recordedFile)
        && effects == old(effects) + [Notify(NoModelTitle, true, false)]
      // a failed start leaves nothing recording and removes the temporary file
      ensures old(currentTranscriptionModel).Some? && !startSucceeds ==>
        currentTranscriptionModel == old(currentTranscriptionModel) && !isRecording && !isVisualizerActive && recordedFile.None? && !shouldCancelRecording
        && effects == old(effects) + [StartRecorder(TemporaryRecording()), RemoveFile(TemporaryRecording())]
      ensures old(currentTranscriptionModel).Some? && startSucceeds ==>
        currentTranscriptionModel == (if powerModeModel.Some? then powerModeModel else old(currentTranscriptionModel))
        && isRecording && isVisualizerActive && recordedFile == Some(TemporaryRecording()) && !shouldCancelRecording
        && effects == old(effects) + [StartRecorder(TemporaryRecording())] + [ApplyPowerMode]
           + LocalModelLoad(currentTranscriptionModel.value)
           + (if screenContextEnabled then [CaptureScreenContext] else [])
    {
      if currentTranscriptionModel.None? {
        effects := effects + [Notify(NoModelTitle, true, false)];
        return;
      }
      shouldCancelRecording := false;
      var file := TemporaryRecording();
      recordedFile := Some(file);
      effects := effects + [StartRecorder(file)];
      if !startSucceeds {
        isRecording := false;
        isVisualizerActive := false;
        effects := effects + [RemoveFile(file)];
        recordedFile := None;
        return;
      }
      BeginSession(powerModeModel, screenContextEnabled);
    }

    /** Once the recorder runs: show it, apply the frontmost app's Power Mode, load the local
        model the (possibly switched) current model needs, and capture the screen context. */
    method BeginSession(powerModeModel: Option<TranscriptionModel>, screenContextEnabled: bool)
      requires currentTranscriptionModel.Some?
      modifies this`isRecording, this`isVisualizerActive, this`currentTranscriptionModel, this`effects
      ensures isRecording && isVisualizerActive
      ensures currentTranscriptionModel == (if powerModeModel.Some? then powerModeModel else old(currentTranscriptionModel))
      ensures effects == old(effects) + [ApplyPowerMode] + LocalModelLoad(currentTranscriptionModel.value)
        + (if screenContextEnabled then [CaptureScreenContext] else [])
    {
      isRecording := true;
      isVisualizerActive := true;
      effects := effects + [ApplyPowerMode];
      if powerModeModel.Some? {
        currentTranscriptionModel := powerModeModel;
      }
      PrepareModel(currentTranscriptionModel.value);
      if screenContextEnabled {
        effects := effects + [CaptureScreenContext];
      }
    }

    /** Loading the local model a recording will need, unless a context is already loaded; a
        failed load is only logged. */
    method PrepareModel(model: TranscriptionModel)
      modifies this`effects
      ensures effects == old(effects) + LocalModelLoad(model)
    {
      if model.provider == Local {
        var local := FirstLocalNamed(availableModels, model.name);
        if local.Some? && !hasWhisperContext {
          effects := effects + [LoadLocalModel(local.value.name)];
        }
      }
    }

    /** `transcribeAudio(_:)` for the recording at `url`. */
    method TranscribeAudio(url: string, env: TranscribeEnv)
      modifies this`isProcessing, this`isTranscribing, this`canTranscribe, this`shouldCancelRecording,
        this`transcriptions, this`effects
      // a pending cancel: no transcription, flags reset
      ensures old(shouldCancelRecording) ==>
        !isProcessing && !isTranscribing && canTranscribe && shouldCancelRecording
        && transcriptions == old(transcriptions) && effects == old(effects) + [CleanupModelResources]
      ensures !old(shouldCancelRecording) ==>
        isProcessing && isTranscribing && !canTranscribe
        && shouldCancelRecording == CancelPending(env, currentTranscriptionModel)
        && transcriptions == old(transcriptions) + RecordsWritten(env, currentTranscriptionModel, RecordingsDirectory())
        && effects == old(effects)
           + TranscriptionEffects(url, env, currentTranscriptionModel, RecordingsDirectory(), isAutoCopyEnabled)
    {
      if shouldCancelRecording {
        isProcessing := false;
        isTranscribing := false;
        canTranscribe := true;
        effects := effects + [CleanupModelResources];
        return;
      }
      isProcessing := true;
      isTranscribing := true;
      canTranscribe := false;
      var saved := SaveRecordingPermanently(url, env);
      TranscribeSaved(url, saved, env);
      // the deferred clean-up
      if shouldCancelRecording {
        effects := effects + [CleanupModelResources];
      }
      AppendAssociates4(old(effects), [CopyFile(url, RecordingURL(RecordingsDirectory(), env.recordingName))],
        ServiceEffects(env, currentTranscriptionModel),
        OutcomeEffects(url, env, currentTranscriptionModel, isAutoCopyEnabled),
        CancelEffects(env, currentTranscriptionModel));
    }

    /** The `do` block of `transcribeAudio` after the permanent copy was attempted, with its
        catch block: `saved` is the copy's URL or error. */
    method TranscribeSaved(url: string, saved: Result<string, string>, env: TranscribeEnv)
      requires !shouldCancelRecording
      requires saved == (if env.copyError.None? then Ok(RecordingURL(RecordingsDirectory(), env.recordingName))
                         else Err(env.copyError.value))
      modifies this`shouldCancelRecording, this`transcriptions, this`effects
      ensures shouldCancelRecording == CancelPending(env, currentTranscriptionModel)
      ensures transcriptions == old(transcriptions) + RecordsWritten(env, currentTranscriptionModel, RecordingsDirectory())
      ensures effects == old(effects) + ServiceEffects(env, currentTranscriptionModel)
        + OutcomeEffects(url, env, currentTranscriptionModel, isAutoCopyEnabled)
    {
      if saved.Err? {
        RecordFailure(None, saved.error, env);
        return;
      }
      if currentTranscriptionModel.None? {
        RecordFailure(Some(saved.value), env.missingModelError, env);
        return;
      }
      var model := currentTranscriptionModel.value;
      var service := ServiceFor(model.provider);
      effects := effects + [TranscribeWith(service)];
      var result := env.transcribe(service, model);
      if env.cancelledDuringTranscription {
        shouldCancelRecording := true;
      }
      if result.Err? {
        RecordFailure(Some(saved.value), result.error, env);
      } else if env.duration.Err? {
        RecordFailure(Some(saved.value), env.duration.error, env);
      } else {
        CompleteTranscription(url, saved.value, result.value, env.duration.value, env);
      }
    }

    /** `saveRecordingPermanently(_:)`: copy the recording under a fresh name in the
        recordings folder, or throw the copy's error. */
    method SaveRecordingPermanently(url: string, env: TranscribeEnv) returns (r: Result<string, string>)
      modifies this`effects
      ensures env.copyError.None? ==> r == Ok(RecordingURL(RecordingsDirectory(), env.recordingName))
      ensures env.copyError.Some? ==> r == Err(env.copyError.value)
      ensures effects == old(effects) + [CopyFile(url, RecordingURL(RecordingsDirectory(), env.recordingName))]
    {
      var permanentURL := RecordingURL(RecordingsDirectory(), env.recordingName);
      effects := effects + [CopyFile(url, permanentURL)];
      if env.copyError.Some? {
        return Err(env.copyError.value);
      }
      return Ok(permanentURL);
    }

    /** The catch block of `transcribeAudio`: a failure record when the permanent copy
        exists and its duration loads, the failure notification, then clean-up. */
    method RecordFailure(permanentURL: Option<string>, description: string, env: TranscribeEnv)
      modifies this`transcriptions, this`effects
      ensures transcriptions == old(transcriptions)
        + (if permanentURL.Some? && env.permanentDuration.Ok?
           then [FailureRecord(description, env.permanentDuration.value, permanentURL.value, env.now)]
           else [])
      ensures effects == old(effects)
        + [Notify(if permanentURL.Some? then RetryTitle else RecordingFailedTitle, true, permanentURL.Some?),
           CleanupModelResources, DismissMiniRecorder]
    {
      if permanentURL.Some? && env.permanentDuration.Ok? {
        transcriptions := transcriptions
          + [FailureRecord(description, env.permanentDuration.value, permanentURL.value, env.now)];
      }
      if permanentURL.Some? {
        effects := effects + [Notify(RetryTitle, true, true)];
      } else {
        effects := effects + [Notify(RecordingFailedTitle, true, false)];
      }
      effects := effects + [CleanupModelResources, DismissMiniRecorder];
    }

    /** The rest of the `do` block once the service returned `raw` and the duration loaded:
        post-process, detect and enhance, store the record, paste, remove the temporary
        recording, restore the enhancer's settings and clean up. */
    method CompleteTranscription(url: string, permanentURL: string, raw: string, duration: real, env: TranscribeEnv)
      modifies this`transcriptions, this`effects
      ensures var transcript := PostProcess(raw, env.wordReplacementEnabled, env.replace);
        transcriptions == old(transcriptions)
          + (if EnhancementActive(env) && shouldCancelRecording then []
             else [SuccessRecord(env, transcript, duration, permanentURL)])
        && effects == old(effects) + CompletionEffects(url, transcript, env, shouldCancelRecording, isAutoCopyEnabled)
    {
      var text := PostProcessTranscript(raw, env);
      var detection: Option<Detection> := None;
      if env.enhancer.Some? && env.enhancer.value.isConfigured {
        detection := Some(env.enhancer.value.detect(text));
        effects := effects + [ApplyDetection];
      }
      assert effects == old(effects) + DetectionEffects(env);
      // the enhancement branch returns at once when a cancel is pending
      if EnhancementActive(env) && shouldCancelRecording {
        return;
      }
      EnhanceAndDeliver(url, permanentURL, text, detection, duration, env);
      AppendAssociates4(old(effects), DetectionEffects(env), EnhancementEffects(env, text),
        DeliveryEffects(url, DeliveredText(DeliveredBase(env, text), env.trialExpired), isAutoCopyEnabled,
                        env.pastePossible),
        FinalEffects(env, text));
    }

    /** The enhancement branch onwards, once no cancel stops it: store the record, paste the
        delivered text, remove the temporary recording, restore the enhancer's settings and
        clean up. */
    method EnhanceAndDeliver(url: string, permanentURL: string, text: string, detection: Option<Detection>,
                             duration: real, env: TranscribeEnv)
      requires detection == (if DetectionRuns(env) then Some(env.enhancer.value.detect(text)) else None)
      modifies this`transcriptions, this`effects
      ensures transcriptions == old(transcriptions) + [SuccessRecord(env, text, duration, permanentURL)]
      ensures effects == old(effects) + EnhancementEffects(env, text)
        + DeliveryEffects(url, DeliveredText(DeliveredBase(env, text), env.trialExpired), isAutoCopyEnabled,
                          env.pastePossible)
        + FinalEffects(env, text)
    {
      var delivered := StoreTranscription(text, detection, duration, permanentURL, env);
      if env.trialExpired {
        delivered := TrialNotice + delivered;
      }
      delivered := delivered + " ";
      Deliver(url, delivered, env.pastePossible);
      RestoreSettingsAndCleanUp(detection, env, text);
    }

    /** The transcript's post-processing, step by step: trim, then replace words when
        word replacement is enabled. */
    method PostProcessTranscript(raw: string, env: TranscribeEnv) returns (text: string)
      ensures text == PostProcess(raw, env.wordReplacementEnabled, env.replace)
    {
      text := Trim(raw);
      if env.wordReplacementEnabled {
        text := env.replace(text);
      }
    }

    /** The enhancement branch and the record it stores: returns the text to deliver (the
        enhanced text, or the transcript when enhancement is off or failed). */
    method StoreTranscription(transcript: string, detection: Option<Detection>, duration: real,
                              permanentURL: string, env: TranscribeEnv)
      returns (text: string)
      requires detection == (if DetectionRuns(env) then Some(env.enhancer.value.detect(transcript)) else None)
      modifies this`transcriptions, this`effects
      ensures transcriptions == old(transcriptions) + [SuccessRecord(env, transcript, duration, permanentURL)]
      ensures effects == old(effects) + EnhancementEffects(env, transcript)
      ensures text == DeliveredBase(env, transcript)
    {
      if EnhancementActive(env) {
        var textForAI := detection.value.processedText;
        var enhanced := env.enhancer.value.enhance(textForAI);
        if enhanced.Ok? {
          effects := effects + [Enhance(textForAI)];
          transcriptions := transcriptions + [Transcription(transcript, duration, Some(enhanced.value), Some(permanentURL), env.now)];
          text := enhanced.value;
        } else {
          effects := effects + [Enhance(textForAI), Notify(EnhancementFailedTitle, true, false)];
          transcriptions := transcriptions
            + [Transcription(transcript, duration, Some(EnhancementFailedText(enhanced.error)), Some(permanentURL), env.now)];
          text := transcript;
        }
      } else {
        transcriptions := transcriptions + [Transcription(transcript, duration, None, Some(permanentURL), env.now)];
        text := transcript;
      }
    }

    /** The stop sound, the delayed paste and removing the temporary recording. */
    method Deliver(url: string, text: string, pastePossible: bool)
      modifies this`effects
      ensures effects == old(effects) + DeliveryEffects(url, text, isAutoCopyEnabled, pastePossible)
    {
      effects := effects + [PlayStopSound];
      effects := effects + PasteEffects(text, text, isAutoCopyEnabled, pastePossible);
      effects := effects + [RemoveFile(url)];
    }

    /** Restore the enhancer's settings when the detection switched AI on, then dismiss the
        recorder and release the model's resources. */
    method RestoreSettingsAndCleanUp(detection: Option<Detection>, env: TranscribeEnv, transcript: string)
      requires detection == (if DetectionRuns(env) then Some(env.enhancer.value.detect(transcript)) else None)
      modifies this`effects
      ensures effects == old(effects) + FinalEffects(env, transcript)
    {
      if detection.Some? && detection.value.shouldEnableAI {
        effects := effects + [RestoreEnhancementSettings];
      }
      effects := effects + [DismissMiniRecorder, CleanupModelResources];
    }

    /** `retryLastTranscription()`: `fetchFails` is whether fetching the records throws,
        `parses` whether a string is a URL, `retranscribe` what retranscribing a URL gives. */
    method RetryLastTranscription(fetchFails: bool, parses: string -> bool,
                                  retranscribe: string -> Result<Transcription, string>, pastePossible: bool)
      modifies this`effects
      ensures fetchFails ==> effects == old(effects) + [Notify(RetryFailedTitle, true, false)]
      // the gate: nothing happens unless the newest record is a retryable failure
      ensures !fetchFails && RetryTarget(transcriptions, parses).None? ==> effects == old(effects)
      ensures !fetchFails && RetryTarget(transcriptions, parses).Some? && currentTranscriptionModel.None? ==>
        effects == old(effects) + [Notify(RetryFailedTitle, true, false)]
      ensures !fetchFails && RetryTarget(transcriptions, parses).Some? && currentTranscriptionModel.Some? ==>
        var target := RetryTarget(transcriptions, parses).value;
        match retranscribe(target)
        case Err(_) => effects == old(effects) + [Retranscribe(target), Notify(RetryFailedTitle, true, false)]
        case Ok(t) =>
          var text := if t.enhancedText.Some? then t.enhancedText.value else t.text;
          effects == old(effects) + [Retranscribe(target), Notify(RetrySucceededTitle, false, false)]
            + PasteEffects(text + " ", text, isAutoCopyEnabled, pastePossible)
    {
      if fetchFails {
        effects := effects + [Notify(RetryFailedTitle, true, false)];
        return;
      }
      var target := RetryTarget(transcriptions, parses);
      if target.None? {
        return;
      }
      if currentTranscriptionModel.None? {
        effects := effects + [Notify(RetryFailedTitle, true, false)];
        return;
      }
      effects := effects + [Retranscribe(target.value)];
      var result := retranscribe(target.value);
      if result.Err? {
        effects := effects + [Notify(RetryFailedTitle, true, false)];
        return;
      }
      effects := effects + [Notify(RetrySucceededTitle, false, false)];
      var textToPaste := if result.value.enhancedText.Some? then result.value.enhancedText.value else result.value.text;
      effects := effects + PasteEffects(textToPaste + " ", textToPaste, isAutoCopyEnabled, pastePossible);
    }
  }
}
