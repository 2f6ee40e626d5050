/** The OS-native transcription service: its language-code mapping, its error descriptions
    and its live `transcribe`, which on this build always reports an unsupported OS. */
module NativeApple {
  import opened Common

  datatype ServiceError =
    | UnsupportedOS
    | TranscriptionFailed
    | LocaleNotSupported
    | InvalidModel
    | AssetAllocationFailed

  /** `errorDescription` of each `ServiceError` case. */
  function ErrorDescription(e: ServiceError): (d: Option<string>)
    ensures d.Some? && |d.value| > 0
  {
    match e
    case UnsupportedOS => Some("SpeechAnalyzer requires macOS 26 or later.")
    case TranscriptionFailed => Some("Transcription failed using SpeechAnalyzer.")
    case LocaleNotSupported => Some("The selected language is not supported by SpeechAnalyzer.")
    case InvalidModel => Some("Invalid model type provided for Native Apple transcription.")
    case AssetAllocationFailed => Some("Failed to allocate assets for the selected locale.")
  }

  /** Different errors are described differently. */
  lemma ErrorDescriptionsDistinct(e1: ServiceError, e2: ServiceError)
    ensures e1 != e2 ==> ErrorDescription(e1) != ErrorDescription(e2)
  {
  }

  /** The unsupported-OS error names the OS version it needs. */
  lemma UnsupportedOSNamesVersion()
    ensures ContainsSub(ErrorDescription(UnsupportedOS).value, "macOS 26")
  {
    var d := ErrorDescription(UnsupportedOS).value;
    assert d[24..32] == "macOS 26";
    ContainsSubAt(d, "macOS 26", 24);
  }

  /** The live `transcribe`: whatever the audio and model, it throws `unsupportedOS`. */
  function Transcribe<Audio, Model>(audio: Audio, model: Model): (r: Result<string, ServiceError>)
    ensures r == Err(UnsupportedOS)
  {
    Err(UnsupportedOS)
  }

  /** The fixed table from short language codes to Apple locale identifiers. */
  const AppleLocales: map<string, string> := map[
    "en" := "en-US",
    "es" := "es-ES",
    "fr" := "fr-FR",
    "de" := "de-DE",
    "ar" := "ar-SA",
    "it" := "it-IT",
    "ja" := "ja-JP",
    "ko" := "ko-KR",
    "pt" := "pt-BR",
    "yue" := "yue-CN",
    "zh" := "zh-CN"
  ]

  /** `mapToAppleLocale`: a table lookup that falls back to "en-US". */
  function MapToAppleLocale(code: string): string {
    if code in AppleLocales then AppleLocales[code] else "en-US"
  }

  predicate IsLower(c: char) { 'a' <= c <= 'z' }
  predicate IsUpper(c: char) { 'A' <= c <= 'Z' }

  /** A BCP 47 tag made of a 2- or 3-letter lower-case language subtag, a hyphen and a
      2-letter upper-case region subtag (the langtag form of section 2.1 of RFC 5646). */
  predicate IsLanguageRegionTag(t: string) {
    (|t| == 5 || |t| == 6)
    && t[|t| - 3] == '-'
    && (forall k :: 0 <= k < |t| - 3 ==> IsLower(t[k]))
    && IsUpper(t[|t| - 2]) && IsUpper(t[|t| - 1])
  }

  /** The language part of a language-region tag: everything before the hyphen. */
  function LanguageSubtag(t: string): string
    requires IsLanguageRegionTag(t)
  {
    t[..|t| - 3]
  }

  /** Every listed code is mapped to a locale whose language part is the code itself. */
  lemma ListedCodesKeepTheirLanguage(code: string)
    requires code in AppleLocales
    ensures IsLanguageRegionTag(MapToAppleLocale(code))
    ensures LanguageSubtag(MapToAppleLocale(code)) == code
  {
  }

  /** Every code not in the table maps to "en-US": the function is total. */
  lemma UnlistedCodesFallBack(code: string)
    requires code !in AppleLocales
    ensures MapToAppleLocale(code) == "en-US"
  {
  }

  /** Whatever the input, the output is a language-region tag, and it is one of the
      table's values. */
  lemma MapToAppleLocaleIsTag(code: string)
    ensures IsLanguageRegionTag(MapToAppleLocale(code))
    ensures MapToAppleLocale(code) in AppleLocales.Values
  {
    assert AppleLocales["en"] == "en-US";
  }

  /** The table lists exactly eleven codes. */
  lemma ListedCodes()
    ensures AppleLocales.Keys == {"en", "es", "fr", "de", "ar", "it", "ja", "ko", "pt", "yue", "zh"}
  {
  }

  /** Some concrete entries of the table. */
  lemma SampleMappings()
    ensures MapToAppleLocale("zh") == "zh-CN"
    ensures MapToAppleLocale("pt") == "pt-BR"
    ensures MapToAppleLocale("yue") == "yue-CN"
    ensures MapToAppleLocale("en-GB") == "en-US"
  {
  }
}
