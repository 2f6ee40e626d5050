/** The screen-context service: picks the window to capture from the on-screen window list,
    builds the context text handed to AI enhancement, and guards against overlapping captures. */
module ScreenCapture {
  import opened Common

  /** One entry of the window-server list; each key may be missing or of the wrong type. */
  datatype WindowInfo = WindowInfo(
    windowNumber: Option<nat>,
    ownerName: Option<string>,
    ownerPID: Option<int>,
    layer: Option<int>,
    width: Option<real>,
    height: Option<real>,
    name: Option<string>)

  /** `WindowCandidate` (the bounds reduced to the size the choice reads). */
  datatype WindowCandidate = WindowCandidate(
    title: string, ownerName: string, windowID: nat, ownerPID: int, layer: int,
    width: real, height: real)

  /** The window title: the trimmed window name when there is a non-empty one, else the
      owner's name. */
  function ResolvedTitle(name: Option<string>, ownerName: string): (t: string)
    ensures name.Some? && Trim(name.value) != [] ==> t == Trim(name.value)
    ensures name.None? || Trim(name.value) == [] ==> t == ownerName
  {
    if name.Some? && Trim(name.value) != [] then Trim(name.value) else ownerName
  }

  /** The `compactMap` body: an entry missing any required key yields no candidate. */
  function ToCandidate(info: WindowInfo): (c: Option<WindowCandidate>)
    ensures c.Some? <==> (info.windowNumber.Some? && info.ownerName.Some? && info.ownerPID.Some?
                          && info.layer.Some? && info.width.Some? && info.height.Some?)
    ensures c.Some? ==> c.value == WindowCandidate(
      ResolvedTitle(info.name, info.ownerName.value), info.ownerName.value, info.windowNumber.value,
      info.ownerPID.value, info.layer.value, info.width.value, info.height.value)
  {
    if info.windowNumber.None? || info.ownerName.None? || info.ownerPID.None?
       || info.layer.None? || info.width.None? || info.height.None?
    then None
    else Some(WindowCandidate(
      ResolvedTitle(info.name, info.ownerName.value), info.ownerName.value,
      info.windowNumber.value, info.ownerPID.value, info.layer.value,
      info.width.value, info.height.value))
  }

  /** `windowListInfo.compactMap(ToCandidate)`: the complete entries, in list order. */
  function Candidates(infos: seq<WindowInfo>): (cs: seq<WindowCandidate>)
    ensures |cs| <= |infos|
    ensures forall c :: c in cs ==> exists w :: w in infos && ToCandidate(w) == Some(c)
    ensures forall w :: w in infos && ToCandidate(w).Some? ==> ToCandidate(w).value in cs
    ensures |infos| > 0 && ToCandidate(infos[0]).Some? ==> cs[0] == ToCandidate(infos[0]).value
  {
    if |infos| == 0 then []
    else
      var rest := Candidates(infos[1..]);
      assert forall w :: w in infos[1..] ==> w in infos;
      assert forall w :: w in infos ==> w == infos[0] || w in infos[1..];
      match ToCandidate(infos[0])
      case Some(c) => [c] + rest
      case None => rest
  }

  /** The candidates of two lists one after the other are the candidates of the first list
      followed by those of the second: `compactMap` keeps list order. */
  lemma {:induction false} CandidatesOfConcat(a: seq<WindowInfo>, b: seq<WindowInfo>)
    ensures Candidates(a + b) == Candidates(a) + Candidates(b)
  {
    if |a| > 0 {
      assert (a + b)[1..] == a[1..] + b;
      CandidatesOfConcat(a[1..], b);
    } else {
      assert a + b == b;
    }
  }

  const MinWindowSide: real := 120.0

  /** `isEligible`: a normal-layer window of another process, at least 120 by 120 points. */
  predicate IsEligible(c: WindowCandidate, currentPID: int) {
    c.layer == 0 && c.ownerPID != currentPID && c.width >= MinWindowSide && c.height >= MinWindowSide
  }

  predicate IsFocused(c: WindowCandidate, currentPID: int, frontmostPID: int) {
    IsEligible(c, currentPID) && c.ownerPID == frontmostPID
  }

  /** The window choice of `getActiveWindowInfo`: the first eligible window of the
      frontmost application if it has one, else the first eligible window at all. */
  function ChooseWindow(cs: seq<WindowCandidate>, currentPID: int, frontmostPID: Option<int>): Option<WindowCandidate>
  {
    var focused := if frontmostPID.Some?
      then FirstWhere(cs, c => IsFocused(c, currentPID, frontmostPID.value)) else None;
    if focused.Some? then Some(cs[focused.value])
    else
      var fallback := FirstWhere(cs, c => IsEligible(c, currentPID));
      if fallback.Some? then Some(cs[fallback.value]) else None
  }

  /** The frontmost application wins: when it owns an eligible window, the first such
      window in list order is chosen. */
  lemma ChooseWindowPrefersFrontmost(cs: seq<WindowCandidate>, currentPID: int, frontmostPID: int, i: nat)
    requires i < |cs| && IsFocused(cs[i], currentPID, frontmostPID)
    requires forall k :: 0 <= k < i ==> !IsFocused(cs[k], currentPID, frontmostPID)
    ensures ChooseWindow(cs, currentPID, Some(frontmostPID)) == Some(cs[i])
  {
    var p := (c: WindowCandidate) => IsFocused(c, currentPID, frontmostPID);
    var f := FirstWhere(cs, p);
    assert p(cs[i]);
    assert f.Some? && f.value == i;
  }

  /** Otherwise the first eligible window is chosen, and nothing when none is eligible. */
  lemma ChooseWindowFallsBack(cs: seq<WindowCandidate>, currentPID: int, frontmostPID: Option<int>)
    requires frontmostPID.None? || forall k :: 0 <= k < |cs| ==> !IsFocused(cs[k], currentPID, frontmostPID.value)
    ensures (forall k :: 0 <= k < |cs| ==> !IsEligible(cs[k], currentPID)) ==> ChooseWindow(cs, currentPID, frontmostPID) == None
    ensures forall i :: 0 <= i < |cs| && IsEligible(cs[i], currentPID)
                        && (forall k :: 0 <= k < i ==> !IsEligible(cs[k], currentPID))
                     ==> ChooseWindow(cs, currentPID, frontmostPID) == Some(cs[i])
  {
    var p := (c: WindowCandidate) => IsEligible(c, currentPID);
    if frontmostPID.Some? {
      var q := (c: WindowCandidate) => IsFocused(c, currentPID, frontmostPID.value);
      assert FirstWhere(cs, q).None?;
    }
    var f := FirstWhere(cs, p);
    forall i | 0 <= i < |cs| && IsEligible(cs[i], currentPID) && (forall k :: 0 <= k < i ==> !IsEligible(cs[k], currentPID))
      ensures f == Some(i)
    {
      assert p(cs[i]);
    }
  }

  /** Whatever is chosen is an eligible member of the list. */
  lemma ChosenWindowIsEligibleMember(cs: seq<WindowCandidate>, currentPID: int, frontmostPID: Option<int>)
    ensures ChooseWindow(cs, currentPID, frontmostPID).Some? ==>
      ChooseWindow(cs, currentPID, frontmostPID).value in cs
      && IsEligible(ChooseWindow(cs, currentPID, frontmostPID).value, currentPID)
  {
    if frontmostPID.Some? {
      var q := (c: WindowCandidate) => IsFocused(c, currentPID, frontmostPID.value);
      var f := FirstWhere(cs, q);
      if f.Some? {
        assert q(cs[f.value]);
      }
    }
    var p := (c: WindowCandidate) => IsEligible(c, currentPID);
    var g := FirstWhere(cs, p);
    if g.Some? {
      assert p(cs[g.value]);
    }
  }

  /** The `(title, ownerName, windowID)` that `getActiveWindowInfo` returns. */
  datatype ActiveWindow = ActiveWindow(title: string, ownerName: string, windowID: nat)

  function ActiveWindowInfo(infos: seq<WindowInfo>, currentPID: int, frontmostPID: Option<int>): Option<ActiveWindow>
  {
    match ChooseWindow(Candidates(infos), currentPID, frontmostPID)
    case Some(c) => Some(ActiveWindow(c.title, c.ownerName, c.windowID))
    case None => None
  }

  /** `getActiveWindowInfo` finds a window exactly when some complete entry of the list is
      eligible, and what it returns is the title, owner name and window number of such an
      entry. */
  lemma ActiveWindowInfoFromEligibleEntry(infos: seq<WindowInfo>, currentPID: int, frontmostPID: Option<int>)
    ensures ActiveWindowInfo(infos, currentPID, frontmostPID).Some? <==>
      exists w :: w in infos && ToCandidate(w).Some? && IsEligible(ToCandidate(w).value, currentPID)
    ensures ActiveWindowInfo(infos, currentPID, frontmostPID).Some? ==>
      exists w :: w in infos && ToCandidate(w).Some? && IsEligible(ToCandidate(w).value, currentPID)
        && ActiveWindowInfo(infos, currentPID, frontmostPID).value
           == ActiveWindow(ToCandidate(w).value.title, ToCandidate(w).value.ownerName, ToCandidate(w).value.windowID)
  {
    var cs := Candidates(infos);
    var chosen := ChooseWindow(cs, currentPID, frontmostPID);
    ChosenWindowIsEligibleMember(cs, currentPID, frontmostPID);
    if chosen.None? {
      var p := (c: WindowCandidate) => IsEligible(c, currentPID);
      if frontmostPID.Some? {
        var q := (c: WindowCandidate) => IsFocused(c, currentPID, frontmostPID.value);
        assert FirstWhere(cs, q).None?;
      }
      assert FirstWhere(cs, p).None?;
      forall w | w in infos && ToCandidate(w).Some?
        ensures !IsEligible(ToCandidate(w).value, currentPID)
      {
        var c := ToCandidate(w).value;
        assert c in cs;
        var k :| 0 <= k < |cs| && cs[k] == c;
        assert !p(cs[k]);
      }
    }
  }

  // ---------------------------------------------------------------- OCR text

  /** `lines.joined(separator: "\n")` */
  function JoinLines(lines: seq<string>): string {
    if |lines| == 0 then "" else if |lines| == 1 then lines[0]
    else lines[0] + "\n" + JoinLines(lines[1..])
  }

  /** Splitting at line breaks: the inverse of `JoinLines` on lines without line breaks. */
  function SplitLines(s: string): (r: seq<string>)
    ensures |r| >= 1
    decreases |s|
  {
    match FirstWhere(s, (c: char) => c == '\n')
    case None => [s]
    case Some(i) => [s[..i]] + SplitLines(s[i + 1..])
  }

  /** Joining lines that hold no line break and splitting the result again gives back the
      lines. */
  lemma {:induction false} SplitJoinLines(lines: seq<string>)
    requires |lines| >= 1
    requires forall k :: 0 <= k < |lines| ==> '\n' !in lines[k]
    ensures SplitLines(JoinLines(lines)) == lines
  {
    if |lines| == 1 {
      assert FirstWhere(lines[0], (c: char) => c == '\n').None?;
    } else {
      SplitFirstLine(lines[0], JoinLines(lines[1..]));
      SplitJoinLines(lines[1..]);
    }
  }

  /** The first line break of `head + "\n" + rest`, when `head` has none, ends `head`. */
  lemma SplitFirstLine(head: string, rest: string)
    requires '\n' !in head
    ensures SplitLines(head + "\n" + rest) == [head] + SplitLines(rest)
  {
    var s := head + "\n" + rest;
    var nl := (c: char) => c == '\n';
    assert nl(s[|head|]);
    assert forall k :: 0 <= k < |head| ==> s[k] == head[k];
    assert FirstWhere(s, nl) == Some(|head|);
    assert s[..|head|] == head;
    assert s[|head| + 1..] == rest;
  }

  /** The joined text is empty exactly when there are no lines or one empty line. */
  lemma JoinLinesEmpty(lines: seq<string>)
    ensures JoinLines(lines) == "" <==> |lines| == 0 || lines == [""]
  {
    if |lines| >= 2 {
      assert |JoinLines(lines)| >= 1;
    }
  }

  /** What the OCR request produced: it failed, or it gave no observation array, or it gave
      observations whose top candidates are listed (None where an observation has none). */
  datatype OcrOutcome = OcrFailed | NoObservations | Observations(topCandidates: seq<Option<string>>)

  /** `compactMap { $0 }` over the top candidates. */
  function PresentLines(tops: seq<Option<string>>): (r: seq<string>)
    ensures |r| <= |tops|
    ensures forall l :: l in r ==> Some(l) in tops
    ensures forall i :: 0 <= i < |tops| && tops[i].Some? ==> tops[i].value in r
    ensures |tops| > 0 && tops[0].Some? ==> r[0] == tops[0].value
  {
    if |tops| == 0 then []
    else
      assert forall o :: o in tops[1..] ==> o in tops;
      assert forall i :: 1 <= i < |tops| ==> tops[i] == tops[1..][i - 1];
      match tops[0]
      case Some(l) => [l] + PresentLines(tops[1..])
      case None => PresentLines(tops[1..])
  }

  /** `compactMap` over two candidate lists one after the other keeps the lines of the
      first list before those of the second. */
  lemma {:induction false} PresentLinesOfConcat(a: seq<Option<string>>, b: seq<Option<string>>)
    ensures PresentLines(a + b) == PresentLines(a) + PresentLines(b)
  {
    if |a| > 0 {
      assert (a + b)[1..] == a[1..] + b;
      PresentLinesOfConcat(a[1..], b);
    } else {
      assert a + b == b;
    }
  }

  /** `extractText(from:)`: `hasCGImage` is whether the captured image yields a bitmap. */
  function ExtractText(hasCGImage: bool, ocr: OcrOutcome): (r: Option<string>)
    ensures r.Some? ==> r.value != "" && ocr.Observations? && hasCGImage
    ensures r.Some? ==> r.value == JoinLines(PresentLines(ocr.topCandidates))
    ensures hasCGImage && ocr.Observations? && JoinLines(PresentLines(ocr.topCandidates)) != "" ==>
      r == Some(JoinLines(PresentLines(ocr.topCandidates)))
  {
    if !hasCGImage then None
    else match ocr
      case OcrFailed => None
      case NoObservations => None
      case Observations(tops) =>
        var text := JoinLines(PresentLines(tops));
        if text == "" then None else Some(text)
  }

  // ---------------------------------------------------------------- context text

  const NoTextPlaceholder: string := "No text detected via OCR"

  /** The two-line header naming the window and its application (the literal's trailing
      blank line contributes one line break). */
  function WindowHeader(title: string, ownerName: string): string {
    "Active Window: " + title + "\nApplication: " + ownerName + "\n"
  }

  const ContentHeading: string := "Window Content:\n"

  /** The context text for one window: the header, then the window content section. */
  function ContextText(title: string, ownerName: string, extracted: Option<string>): string {
    if extracted.Some? && extracted.value != "" then WindowHeader(title, ownerName) + ContentHeading + extracted.value
    else WindowHeader(title, ownerName) + ContentHeading + NoTextPlaceholder
  }

  /** The context starts with the window's header, continues with the content heading, and
      ends with the OCR text, or with the placeholder when there is none. */
  lemma ContextTextShape(title: string, ownerName: string, extracted: Option<string>)
    ensures var prefix := WindowHeader(title, ownerName) + ContentHeading;
      && StartsWith(ContextText(title, ownerName, extracted), prefix)
      && var body := ContextText(title, ownerName, extracted)[|prefix|..];
      && (extracted.Some? && extracted.value != "" ==> body == extracted.value)
      && (extracted.None? || extracted.value == "" ==> body == NoTextPlaceholder)
  {
    var prefix := WindowHeader(title, ownerName) + ContentHeading;
    var body := if extracted.Some? && extracted.value != "" then extracted.value else NoTextPlaceholder;
    StartsWithAppend(prefix, body);
    assert (prefix + body)[|prefix|..] == body;
  }

  /** The header spells out the window title and the application name on their own lines. */
  lemma WindowHeaderNamesWindow(title: string, ownerName: string)
    ensures StartsWith(WindowHeader(title, ownerName), "Active Window: " + title + "\n")
    ensures WindowHeader(title, ownerName)[|"Active Window: " + title + "\n"|..] == "Application: " + ownerName + "\n"
  {
    var first := "Active Window: " + title + "\n";
    var second := "Application: " + ownerName + "\n";
    assert WindowHeader(title, ownerName) == first + second;
    StartsWithAppend(first, second);
    assert (first + second)[|first|..] == second;
  }

  /** A captured window image (reduced to whether it yields a bitmap for OCR). */
  datatype Image = Image(hasCGImage: bool)

  class ScreenCaptureService {
    var isCapturing: bool
    var lastCapturedText: Option<string>

    constructor ()
      ensures !isCapturing && lastCapturedText == None
    {
      isCapturing := false;
      lastCapturedText := None;
    }

    /** `captureAndExtractText()`. The window list, the process ids, what the screenshot
        call returned (`shot`, None when it failed or found no matching window) and what OCR
        produced are the foreign inputs. */
    method CaptureAndExtractText(infos: seq<WindowInfo>, currentPID: int, frontmostPID: Option<int>,
                                 shot: Option<Image>, ocr: OcrOutcome)
      returns (r: Option<string>)
      modifies this
      // the re-entrancy guard: while a capture runs, nothing happens
      ensures old(isCapturing) ==> r == None && isCapturing && lastCapturedText == old(lastCapturedText)
      ensures !old(isCapturing) ==> !isCapturing
      // no window, or no image: nil and no new text
      ensures !old(isCapturing) && (ActiveWindowInfo(infos, currentPID, frontmostPID).None? || shot.None?) ==>
        r == None && lastCapturedText == old(lastCapturedText)
      // otherwise the context text is returned and remembered
      ensures !old(isCapturing) && ActiveWindowInfo(infos, currentPID, frontmostPID).Some? && shot.Some? ==>
        var w := ActiveWindowInfo(infos, currentPID, frontmostPID).value;
        r == Some(ContextText(w.title, w.ownerName, ExtractText(shot.value.hasCGImage, ocr)))
        && lastCapturedText == r
    {
      if isCapturing {
        return None;
      }
      isCapturing := true;
      var window := ActiveWindowInfo(infos, currentPID, frontmostPID);
      if window.None? {
        isCapturing := false;
        return None;
      }
      var contextText := WindowHeader(window.value.title, window.value.ownerName);
      if shot.Some? {
        var extracted := ExtractText(shot.value.hasCGImage, ocr);
        if extracted.Some? && extracted.value != "" {
          contextText := contextText + ContentHeading + extracted.value;
        } else {
          contextText := contextText + ContentHeading + NoTextPlaceholder;
        }
        lastCapturedText := Some(contextText);
        isCapturing := false;
        return Some(contextText);
      }
      isCapturing := false;
      r := None;
    }
  }
}
