/** The Parakeet (on-device ASR) transcription service: WAV sample intake and the
    load / transcribe / clean-up lifecycle of its ASR manager. */
module Parakeet {
  import opened Common

  newtype Byte = b: int | 0 <= b < 256

  /** Size of the canonical WAV header that precedes the PCM payload. */
  const HeaderSize: nat := 44
  /** Fewest samples the service hands to the ASR manager (one second at 16 kHz). */
  const MinSamples: nat := 16000
  /** Divisor that maps a 16-bit sample to [-1, 1]. */
  const SampleScale: real := 32767.0

  // ---------------------------------------------------------------- sample decoding

  /** `Int16(littleEndian:)` of the two bytes `lo`, `hi`: two's-complement 16-bit value. */
  function Int16LE(lo: Byte, hi: Byte): (v: int)
    ensures -32768 <= v <= 32767
    ensures (v < 0) == (hi >= 128)
  {
    var u := lo as int + 256 * hi as int;
    if u >= 32768 then u - 65536 else u
  }

  /** The two little-endian bytes of a 16-bit value: the writer's side of `Int16LE`. */
  function EncodeInt16LE(v: int): (b: (Byte, Byte))
    requires -32768 <= v <= 32767
  {
    var u := if v < 0 then v + 65536 else v;
    ((u % 256) as Byte, (u / 256) as Byte)
  }

  /** Decoding what was encoded gives back the value, and encoding what was decoded gives
      back the bytes: the 16-bit little-endian form is a bijection. */
  lemma Int16RoundTrip(v: int, lo: Byte, hi: Byte)
    requires -32768 <= v <= 32767
    ensures Int16LE(EncodeInt16LE(v).0, EncodeInt16LE(v).1) == v
    ensures EncodeInt16LE(Int16LE(lo, hi)) == (lo, hi)
  {
  }

  /** `stride(from: 0, to: payload.count, by: 2).map { Int16(littleEndian: ...) }` */
  function DecodeSamples(payload: seq<Byte>): (r: seq<int>)
    requires |payload| % 2 == 0
    ensures |r| == |payload| / 2
    ensures forall i :: 0 <= i < |r| ==> r[i] == Int16LE(payload[2 * i], payload[2 * i + 1])
  {
    if |payload| == 0 then []
    else [Int16LE(payload[0], payload[1])] + DecodeSamples(payload[2..])
  }

  /** The PCM payload a recorder writes for a sequence of 16-bit samples. */
  function EncodeSamples(samples: seq<int>): (r: seq<Byte>)
    requires forall i :: 0 <= i < |samples| ==> -32768 <= samples[i] <= 32767
    ensures |r| == 2 * |samples|
  {
    if |samples| == 0 then []
    else [EncodeInt16LE(samples[0]).0, EncodeInt16LE(samples[0]).1] + EncodeSamples(samples[1..])
  }

  /** Decoding a payload written from samples gives back those samples. */
  lemma {:induction false} DecodeEncodeSamples(samples: seq<int>)
    requires forall i :: 0 <= i < |samples| ==> -32768 <= samples[i] <= 32767
    ensures DecodeSamples(EncodeSamples(samples)) == samples
  {
    if |samples| > 0 {
      var p := EncodeSamples(samples);
      assert p[2..] == EncodeSamples(samples[1..]);
      DecodeEncodeSamples(samples[1..]);
      Int16RoundTrip(samples[0], 0, 0);
    }
  }

  /** `max(-1.0, min(Float(short) / 32767.0, 1.0))`, over the reals. */
  function Normalize(sample: int): (f: real)
    ensures -1.0 <= f <= 1.0
  {
    var x := sample as real / SampleScale;
    if x > 1.0 then 1.0 else if x < -1.0 then -1.0 else x
  }

  /** The clamp only changes the one 16-bit value below -32767; every other sample is
      scaled exactly. */
  lemma NormalizeClampsOnlyMinimum(sample: int)
    requires -32768 <= sample <= 32767
    ensures sample >= -32767 ==> Normalize(sample) == sample as real / SampleScale
    ensures sample == -32768 ==> Normalize(sample) == -1.0
  {
  }

  datatype AsrError = NotInitialized | InvalidAudioData

  /** `readAudioSamples(from:)`: the file's bytes (None when it cannot be read), then the
      samples after the 44-byte header, normalised. An odd payload would trap in the source
      (a two-byte read past the end), so it is excluded. */
  function ReadAudioSamples(file: Option<seq<Byte>>): (r: Result<seq<real>, AsrError>)
    requires file.Some? ==> |file.value| <= HeaderSize || (|file.value| - HeaderSize) % 2 == 0
    ensures r.Err? <==> file.None? || |file.value| <= HeaderSize
    ensures r.Err? ==> r.error == InvalidAudioData
    ensures r.Ok? ==> |r.value| == (|file.value| - HeaderSize) / 2
    ensures r.Ok? ==> forall i :: 0 <= i < |r.value| ==>
      r.value[i] == Normalize(Int16LE(file.value[HeaderSize + 2 * i], file.value[HeaderSize + 2 * i + 1]))
    ensures r.Ok? ==> forall i :: 0 <= i < |r.value| ==> -1.0 <= r.value[i] <= 1.0
  {
    if file.None? || |file.value| <= HeaderSize then Err(InvalidAudioData)
    else
      var payload := file.value[HeaderSize..];
      var shorts := DecodeSamples(payload);
      Ok(seq(|shorts|, i requires 0 <= i < |shorts| => Normalize(shorts[i])))
  }

  // ---------------------------------------------------------------- model lifecycle

  /** The configuration the service builds its ASR manager with. */
  datatype AsrConfig = AsrConfig(
    maxSymbolsPerFrame: nat, realtimeMode: bool, chunkSizeMs: nat,
    durations: seq<nat>, maxSymbolsPerStep: nat)

  const ServiceAsrConfig: AsrConfig := AsrConfig(3, true, 1500, [0, 1, 2, 3, 4], 3)

  /** FluidAudio's `AsrManager`, reduced to the configuration it was built with. */
  datatype AsrManager = AsrManager(config: AsrConfig)

  /** The three kinds of error `loadModel` catches; all are handled alike. */
  datatype LoadError = AsrLoadError(description: string) | ModelsError(description: string) | OtherError(description: string)

  datatype TranscribeError = LoadFailed(cause: LoadError) | Asr(asrError: AsrError) | AsrCallFailed(description: string)

  /** Whether `transcribe` reaches the audio with a manager in place: the model was loaded
      with its manager, or it was not loaded and loading it now succeeds. */
  predicate LoadSucceeds(isModelLoaded: bool, asrManager: Option<AsrManager>, loadOutcome: Option<LoadError>) {
    (isModelLoaded && asrManager.Some?) || (!isModelLoaded && loadOutcome.None?)
  }

  class ParakeetService {
    var asrManager: Option<AsrManager>
    var isModelLoaded: bool
    const customModelsDirectory: Option<string>
    /** The sample buffers handed to the ASR manager so far (a record of the foreign calls). */
    ghost var asrCalls: seq<seq<real>>

    /** A loaded model always has a manager, and the manager is only ever given at least
        one second of audio. */
    ghost predicate Valid()
      reads this
    {
      (isModelLoaded ==> asrManager.Some?)
      && forall k :: 0 <= k < |asrCalls| ==> |asrCalls[k]| >= MinSamples
    }

    constructor (customModelsDirectory: Option<string>)
      ensures Valid() && asrManager == None && !isModelLoaded && asrCalls == []
      ensures this.customModelsDirectory == customModelsDirectory
    {
      this.customModelsDirectory := customModelsDirectory;
      asrManager := None;
      isModelLoaded := false;
      asrCalls := [];
    }

    /** `loadModel()`. `outcome` is what downloading and initialising the models did:
        None when both succeeded, or the error one of them threw. */
    method LoadModel(outcome: Option<LoadError>) returns (thrown: Option<LoadError>)
      modifies this
      ensures asrCalls == old(asrCalls)
      ensures old(isModelLoaded) ==> thrown == None && asrManager == old(asrManager) && isModelLoaded
      ensures !old(isModelLoaded) && outcome.None? ==>
        thrown == None && isModelLoaded && asrManager == Some(AsrManager(ServiceAsrConfig))
      ensures !old(isModelLoaded) && outcome.Some? ==>
        thrown == outcome && !isModelLoaded && asrManager == None
      ensures old(Valid()) ==> Valid()
    {
      if isModelLoaded {
        return None;
      }
      asrManager := Some(AsrManager(ServiceAsrConfig));
      if outcome.Some? {
        isModelLoaded := false;
        asrManager := None;
        return outcome;
      }
      isModelLoaded := true;
      thrown := None;
    }

    /** `transcribe(audioURL:model:)`. `file` is the recording's bytes, `loadOutcome` what
        a model load would do, `asrResult` what the ASR manager returns for the samples,
        and `format` the text formatter applied when formatting is enabled. */
    method Transcribe(file: Option<seq<Byte>>, loadOutcome: Option<LoadError>,
                      asrResult: Result<string, string>, formattingEnabled: bool,
                      format: string -> string)
      returns (r: Result<string, TranscribeError>)
      requires file.Some? ==> |file.value| <= HeaderSize || (|file.value| - HeaderSize) % 2 == 0
      modifies this
      // a model load is attempted when there is no manager or no loaded model, and its error is rethrown
      ensures !old(isModelLoaded) && loadOutcome.Some? ==>
        r == Err(LoadFailed(loadOutcome.value)) && asrManager == None && !isModelLoaded
        && asrCalls == old(asrCalls)
      // a loaded flag without a manager: loading is skipped and the manager is still missing
      ensures old(isModelLoaded) && old(asrManager).None? ==>
        r == Err(Asr(NotInitialized)) && asrManager == None && isModelLoaded
        && asrCalls == old(asrCalls)
      // short or unreadable audio is rejected before the ASR manager is called
      ensures r.Err? && r.error.Asr? && r.error.asrError == InvalidAudioData ==>
        asrCalls == old(asrCalls)
      ensures ReadAudioSamples(file).Err? && r.Err? ==> asrCalls == old(asrCalls)
      ensures ReadAudioSamples(file).Ok? && |ReadAudioSamples(file).value| < MinSamples && r.Err? ==>
        asrCalls == old(asrCalls)
      ensures r.Ok? ==>
        ReadAudioSamples(file).Ok? && |ReadAudioSamples(file).value| >= MinSamples
        && asrResult.Ok?
        && asrCalls == old(asrCalls) + [ReadAudioSamples(file).value]
        && r.value == (if formattingEnabled then format(asrResult.value) else asrResult.value)
      // after a successful call the model is marked unloaded, the manager is kept
      ensures r.Ok? ==> !isModelLoaded && asrManager.Some?
      // with a manager in place (already loaded, or loaded now), the audio decides
      ensures LoadSucceeds(old(isModelLoaded), old(asrManager), loadOutcome) && ReadAudioSamples(file).Err? ==>
        r == Err(Asr(ReadAudioSamples(file).error)) && asrCalls == old(asrCalls)
      ensures LoadSucceeds(old(isModelLoaded), old(asrManager), loadOutcome) && ReadAudioSamples(file).Ok?
              && |ReadAudioSamples(file).value| < MinSamples ==>
        r == Err(Asr(InvalidAudioData)) && asrCalls == old(asrCalls)
      ensures LoadSucceeds(old(isModelLoaded), old(asrManager), loadOutcome) && ReadAudioSamples(file).Ok?
              && |ReadAudioSamples(file).value| >= MinSamples ==>
        asrCalls == old(asrCalls) + [ReadAudioSamples(file).value]
        && (asrResult.Err? ==> r == Err(AsrCallFailed(asrResult.error)))
        && (asrResult.Ok? ==> r == Ok(if formattingEnabled then format(asrResult.value) else asrResult.value))
      // a rejection after a successful load keeps the model loaded with its manager
      ensures LoadSucceeds(old(isModelLoaded), old(asrManager), loadOutcome) && r.Err? ==>
        isModelLoaded && asrManager.Some?
      // the manager kept after a successful call is the one that was loaded, or the one built now
      ensures r.Ok? ==>
        asrManager == (if old(isModelLoaded) then old(asrManager) else Some(AsrManager(ServiceAsrConfig)))
      ensures old(Valid()) ==> Valid()
    {
      if asrManager.None? || !isModelLoaded {
        var thrown := LoadModel(loadOutcome);
        if thrown.Some? {
          return Err(LoadFailed(thrown.value));
        }
      }
      if asrManager.None? {
        return Err(Asr(NotInitialized));
      }
      var samples := ReadAudioSamples(file);
      if samples.Err? {
        return Err(Asr(samples.error));
      }
      if |samples.value| < MinSamples {
        return Err(Asr(InvalidAudioData));
      }
      asrCalls := asrCalls + [samples.value];
      if asrResult.Err? {
        return Err(AsrCallFailed(asrResult.error));
      }
      // the clean-up task: the manager releases its models and the flag is reset
      isModelLoaded := false;
      if formattingEnabled {
        r := Ok(format(asrResult.value));
      } else {
        r := Ok(asrResult.value);
      }
    }
  }

  /** Scenario: a recording shorter than one second (fewer than 16000 samples after the
      header) is rejected with `invalidAudioData`. */
  lemma ShortRecordingIsRejected(file: seq<Byte>)
    requires HeaderSize < |file| < HeaderSize + 2 * MinSamples
    requires (|file| - HeaderSize) % 2 == 0
    ensures ReadAudioSamples(Some(file)).Ok?
    ensures |ReadAudioSamples(Some(file)).value| < MinSamples
  {
  }
}
