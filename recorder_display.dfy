/** The display decisions of the recorder's controls: whether a toggle button's icon is an
    emoji, what the record button shows, and what the status area shows. */
module RecorderDisplay {

  /** `UnicodeScalar.isASCII` (Dafny's `char` is a Unicode scalar value). */
  predicate IsAscii(c: char) {
    c as int < 128
  }

  /** `icon.unicodeScalars.contains { !$0.isASCII }`, scanning from the front. */
  function HasNonAscii(icon: string): (r: bool)
    ensures r <==> exists i :: 0 <= i < |icon| && !IsAscii(icon[i])
  {
    if |icon| == 0 then false
    else if !IsAscii(icon[0]) then true
    else
      assert forall i :: 1 <= i < |icon| ==> icon[i] == icon[1..][i - 1];
      HasNonAscii(icon[1..])
  }

  /** `RecorderToggleButton.isEmoji`: an icon is drawn as text (an emoji) rather than as an
      SF Symbol name when it has no '.' and no '-' and some non-ASCII scalar. */
  function IsEmoji(icon: string): (r: bool)
    ensures r <==> '.' !in icon && '-' !in icon && exists i :: 0 <= i < |icon| && !IsAscii(icon[i])
  {
    !('.' in icon) && !('-' in icon) && HasNonAscii(icon)
  }

  /** Symbol names ("mic.fill", "arrow-up") and plain ASCII names are never emoji. */
  lemma SymbolNamesAreNotEmoji(icon: string)
    ensures '.' in icon || '-' in icon ==> !IsEmoji(icon)
    ensures (forall i :: 0 <= i < |icon| ==> IsAscii(icon[i])) ==> !IsEmoji(icon)
  {
  }

  /** What the record button shows, in priority order: processing over recording over idle. */
  datatype ButtonPhase = ProcessingPhase | RecordingPhase | IdlePhase

  datatype Glyph = Spinner | StopSquare | RecordDot
  datatype ButtonColor = Grey | Red | Slate

  function Phase(isRecording: bool, isProcessing: bool): ButtonPhase {
    if isProcessing then ProcessingPhase else if isRecording then RecordingPhase else IdlePhase
  }

  /** The inner shape of `RecorderRecordButton`. */
  function RecordGlyph(isRecording: bool, isProcessing: bool): Glyph {
    if isProcessing then Spinner else if isRecording then StopSquare else RecordDot
  }

  /** `RecorderRecordButton.buttonColor`. */
  function RecordButtonColor(isRecording: bool, isProcessing: bool): ButtonColor {
    if isProcessing then Grey else if isRecording then Red else Slate
  }

  /** `.disabled(isProcessing)` */
  function RecordButtonDisabled(isRecording: bool, isProcessing: bool): bool {
    isProcessing
  }

  /** Glyph and colour are both functions of one phase, chosen with processing first, then
      recording, then idle; the button is disabled exactly when it shows the spinner. */
  lemma RecordButtonFollowsPhase(isRecording: bool, isProcessing: bool)
    ensures RecordGlyph(isRecording, isProcessing) == match Phase(isRecording, isProcessing)
      case ProcessingPhase => Spinner case RecordingPhase => StopSquare case IdlePhase => RecordDot
    ensures RecordButtonColor(isRecording, isProcessing) == match Phase(isRecording, isProcessing)
      case ProcessingPhase => Grey case RecordingPhase => Red case IdlePhase => Slate
    ensures isProcessing ==> Phase(isRecording, isProcessing) == ProcessingPhase
    ensures RecordButtonDisabled(isRecording, isProcessing) <==> RecordGlyph(isRecording, isProcessing) == Spinner
  {
  }

  /** The colour tells the glyph: two flag pairs with the same colour show the same glyph. */
  lemma ColorDeterminesGlyph(r1: bool, p1: bool, r2: bool, p2: bool)
    requires RecordButtonColor(r1, p1) == RecordButtonColor(r2, p2)
    ensures RecordGlyph(r1, p1) == RecordGlyph(r2, p2)
    ensures RecordButtonDisabled(r1, p1) == RecordButtonDisabled(r2, p2)
  {
  }

  /** The cases of the recorder's state that the status display distinguishes. */
  datatype RecordingState = Idle | Recording | Transcribing | Enhancing

  datatype StatusView = Label(text: string) | AudioVisualizer(isActive: bool) | StaticVisualizer

  /** `RecorderStatusDisplay.body`: an if-chain over the state. */
  function StatusFor(state: RecordingState): StatusView {
    if state == Enhancing then Label("Enhancing")
    else if state == Transcribing then Label("Transcribing")
    else if state == Recording then AudioVisualizer(state == Recording)
    else StaticVisualizer
  }

  /** A text label is shown exactly while transcribing or enhancing, a live visualizer
      exactly while recording, and it is always active; otherwise the static one. */
  lemma StatusDisplayCases(state: RecordingState)
    ensures StatusFor(state).Label? <==> state == Transcribing || state == Enhancing
    ensures state == Enhancing ==> StatusFor(state) == Label("Enhancing")
    ensures state == Transcribing ==> StatusFor(state) == Label("Transcribing")
    ensures StatusFor(state).AudioVisualizer? <==> state == Recording
    ensures StatusFor(state).AudioVisualizer? ==> StatusFor(state).isActive
    ensures StatusFor(state) == StaticVisualizer <==> state == Idle
  {
  }
}
