/** What `K3bCdrecordWriter::slotStdLine` does with one line of cdrecord's
    output (src/projects/k3bcdrecordwriter.cpp:341-595), as a function of
    the writer's parsing state: which branch of the else-if chain the line
    takes, how the numbers are cut out of it, the new state and the
    signals emitted. The writer class runs exactly this on every line. */
module CdrecordParser {
  import opened CInt
  import opened Decimal
  import opened QtString
  import opened Wrappers
  import opened JobEvents

  /** The failure causes the writer recognises in cdrecord's output. */
  datatype ErrorCode =
    | Unknown | BufferUnderrun | Oversize | BadOption | ShmgetFailed | OpcFailed
    | CannotSetSpeed | CannotOpenNewSession | CannotSendCueSheet | PermissionDenied
    | HighSpeedMedium

  /** The branches of the else-if chain, in order. */
  datatype LineKind =
    | TrackLine | AtSpeed | StartingNew | Fixating | Countdown | LeadIn | Leadout
    | Pregap | PerformingOpc | Sending | BurnProofOn | ReloadNeeded | UnderrunPhrase
    | NoSao | MayNotFit | BadOptionPhrase | ShmgetPhrase | OpcFailedPhrase
    | SetSpeedPhrase | OpenSessionPhrase | CueSheetPhrase | IoErrorPhrase
    | PermissionPhrase | HighSpeedPhrase | ReloadDisk | Unrecognised

  /** A test of the else-if chain: the line starts with, or contains, a
      text (case-sensitively). */
  datatype Test = Prefix(text: string) | Infix(text: string)

  predicate Passes(line: string, t: Test) {
    match t
    case Prefix(p) => StartsWith(line, p)
    case Infix(p) => Contains(line, p)
  }

  datatype Branch = Branch(test: Test, kind: LineKind)

  /** The tests of the chain, in the order the source tries them. */
  const Chain: seq<Branch> := [
      Branch(Prefix("Track "), TrackLine),
      Branch(Infix("at speed"), AtSpeed),
      Branch(Prefix("Starting new"), StartingNew),
      Branch(Prefix("Fixating"), Fixating),
      Branch(Infix("seconds."), Countdown),
      Branch(Prefix("Writing lead-in"), LeadIn),
      Branch(Prefix("Writing Leadout"), Leadout),
      Branch(Prefix("Writing pregap"), Pregap),
      Branch(Prefix("Performing OPC"), PerformingOpc),
      Branch(Prefix("Sending"), Sending),
      Branch(Infix("Turning BURN-Proof"), BurnProofOn),
      Branch(Infix("Drive needs to reload the media"), ReloadNeeded),
      Branch(Infix("The current problem looks like a buffer underrun"), UnderrunPhrase),
      Branch(Infix("Drive does not support SAO"), NoSao),
      Branch(Infix("Data may not fit"), MayNotFit),
      Branch(Infix("Bad Option"), BadOptionPhrase),
      Branch(Infix("shmget failed"), ShmgetPhrase),
      Branch(Infix("OPC failed"), OpcFailedPhrase),
      Branch(Infix("Cannot set speed/dummy"), SetSpeedPhrase),
      Branch(Infix("Cannot open new session"), OpenSessionPhrase),
      Branch(Infix("Cannot send CUE sheet"), CueSheetPhrase),
      Branch(Infix("Input/output error."), IoErrorPhrase),
      Branch(Infix("Permission denied. Cannot open"), PermissionPhrase),
      Branch(Infix("Trying to use ultra high speed medium on improper writer"), HighSpeedPhrase),
      Branch(Prefix("Re-load disk and hit"), ReloadDisk)
    ]

  /** The branch a line takes: the first test of the chain it passes. */
  function Classify(line: string): LineKind {
    ClassifyIn(Chain, line, 0)
  }

  /** The branch a line takes among the tests of `chain` from index `i` on. */
  function ClassifyIn(chain: seq<Branch>, line: string, i: nat): LineKind
    decreases |chain| - i
  {
    if i >= |chain| then Unrecognised
    else if Passes(line, chain[i].test) then chain[i].kind
    else ClassifyIn(chain, line, i + 1)
  }

  /** The error code a branch assigns, if it assigns one. */
  function ErrorSetBy(kind: LineKind): Option<ErrorCode> {
    match kind
    case UnderrunPhrase => Some(BufferUnderrun)
    case MayNotFit => Some(Oversize)
    case BadOptionPhrase => Some(BadOption)
    case ShmgetPhrase => Some(ShmgetFailed)
    case OpcFailedPhrase => Some(OpcFailed)
    case SetSpeedPhrase => Some(CannotSetSpeed)
    case OpenSessionPhrase => Some(CannotOpenNewSession)
    case CueSheetPhrase => Some(CannotSendCueSheet)
    case PermissionPhrase => Some(PermissionDenied)
    case HighSpeedPhrase => Some(HighSpeedMedium)
    case _ => None
  }

  // ---------------------------------------------------------------------
  // Cutting numbers out of a line
  // ---------------------------------------------------------------------

  /** A roster line's track number: the two characters at index 6. */
  function RosterNumber(line: string): Conversion {
    ToInt(Mid(line, 6, 2))
  }

  lemma ToIntDigitLed(s: string)
    requires s != [] && IsDigit(s[0])
    ensures ToInt(s).value >= 0
  {
    assert StripLeading(s) == s;
    StripTrailingIsPrefix(s);
    StripTrailingKeepsLead(s);
  }

  lemma {:induction false} StripTrailingKeepsLead(s: string)
    requires s != [] && !IsSpace(s[0])
    ensures StripTrailing(s) != []
    decreases |s|
  {
    if |s| > 1 && IsSpace(s[|s| - 1]) {
      StripTrailingKeepsLead(s[..|s| - 1]);
    }
  }

  /** A roster line's size: from the first digit at index 10 or later up
      to the next "MB". The size that converts is never negative. */
  function RosterSize(line: string): (size: Conversion)
    ensures size.ok ==> size.value >= 0
  {
    var sizeStart := FindClass(line, true, 10);
    var sizeEnd := Find(line, "MB", sizeStart);
    var field := Mid(line, sizeStart, sizeEnd - sizeStart);
    if field != [] then ToIntDigitLed(field); ToInt(field) else ToInt(field)
  }

  /** The three numbers of a progress line. */
  datatype Progress = Progress(made: int, size: int, fifo: int)

  /** A progress line cut at its anchors ':', "of", "MB", "fifo" and '%'
      (each searched from the start of the line). A missing anchor
      discards the line; a field that does not convert is only logged and
      reads as 0. */
  function ParseProgress(line: string): (r: Option<Progress>)
    ensures r.None? <==> !(Contains(line, ":") && Contains(line, "of") && Contains(line, "MB")
                           && Contains(line, "fifo") && Contains(line, "%"))
  {
    ContainsIffFound(line, ":");
    ContainsIffFound(line, "of");
    ContainsIffFound(line, "MB");
    ContainsIffFound(line, "fifo");
    ContainsIffFound(line, "%");
    var colon, of, mb := Find(line, ":", 0), Find(line, "of", 0), Find(line, "MB", 0);
    var fifoAt, percent := Find(line, "fifo", 0), Find(line, "%", 0);
    if colon == -1 || of == -1 || mb == -1 || fifoAt == -1 || percent == -1 then None
    else Some(ProgressFields(line, colon, of, mb, fifoAt, percent))
  }

  /** The fields between the anchors: the made count from after the colon
      to "of", the size from after "of" to "MB", the fifo fill from after
      "fifo" to '%'. */
  function ProgressFields(line: string, colon: int, of: int, mb: int, fifoAt: int, percent: int): Progress {
    Progress(ToInt(Mid(line, colon + 1, of - (colon + 1))).value,
             ToInt(Mid(line, of + 2, mb - (of + 2))).value,
             ToInt(Mid(line, fifoAt + 4, percent - (fifoAt + 4))).value)
  }

  /** The speed after "at speed": the digits from 9 characters past the
      phrase up to the next non-digit (0 when they do not convert). */
  function SpeedOf(line: string): int {
    var pos := Find(line, "at speed", 0);
    var end := FindClass(line, false, pos + 9);
    ToInt(Mid(line, pos + 9, end - pos - 9)).value
  }

  /** The count before "seconds.": the digits ending two characters before
      the phrase, back to the previous non-digit. */
  function CountdownSeconds(line: string): int {
    var last := Find(line, "seconds.", 0) - 2;
    var first := FindClassRev(line, false, last) + 1;
    ToInt(Mid(line, first, last - first + 1)).value
  }

  /** The rejected option: from 13 characters past "Bad Option" to the
      line's last character but one. */
  function BadOptionText(line: string): string {
    var pos := Find(line, "Bad Option", 0) + 13;
    Mid(line, pos, |line| - pos - 1)
  }

  // ---------------------------------------------------------------------
  // Parsing state and one step
  // ---------------------------------------------------------------------

  /** The writer's per-run parsing state. `lastFifo` is None until a
      progress line reported the fifo fill. */
  datatype ParserState = ParserState(
    currentTrack: int,
    totalTracks: int,
    totalTracksParsed: bool,
    trackSizes: seq<int>,
    totalSize: int,
    alreadyWritten: int,
    lastFifo: Option<int>,
    error: ErrorCode)

  /** What the step reads besides the state: the program's name, the speed
      the run asked for, and whether overburning is both allowed in the
      configuration and supported by the program. */
  datatype LineContext = LineContext(program: string, usedSpeed: int, overburnNotice: bool)

  datatype StepResult = StepResult(state: ParserState, events: seq<Event>)

  /** The state `start` sets up for a run; `totalTracks` is not reset. */
  function StartState(previous: ParserState): (st: ParserState)
    ensures st.trackSizes == [] && st.totalSize == 0 && st.alreadyWritten == 0
    ensures st.currentTrack == 0 && !st.totalTracksParsed && st.error == Unknown
    ensures st.lastFifo == None && st.totalTracks == previous.totalTracks
  {
    previous.(currentTrack := 0, error := Unknown, totalTracksParsed := false, alreadyWritten := 0,
              trackSizes := [], totalSize := 0, lastFifo := None)
  }

  /** A line of the roster cdrecord prints before writing. */
  function RosterStep(st: ParserState, line: string): ParserState {
    var number := RosterNumber(line);
    if !number.ok then st
    else
      var size := RosterSize(line);
      if size.ok then
        st.(totalTracks := number.value, trackSizes := st.trackSizes + [size.value],
            totalSize := st.totalSize + size.value)
      else st.(totalTracks := number.value)
  }

  /** The roster holds the size of the track being written. (The guard
      written in the source also lets track 0 through; see Findings.) */
  predicate RosterSizeKnown(st: ParserState) {
    0 < st.currentTrack <= |st.trackSizes|
  }

  /** The progress shown for a track: cdrecord's own count of `made` out of
      `displayed` rescaled to the roster size of the track. */
  function Rescale(made: int, displayed: int, roster: int): (r: int)
    requires displayed > 0
    ensures 0 <= made <= displayed && roster >= 0 ==> 0 <= r <= roster
  {
    if 0 <= made <= displayed && roster >= 0 then
      RescaleBounded(made, displayed, roster);
      CDiv(made * roster, displayed)
    else CDiv(made * roster, displayed)
  }

  lemma RescaleBounded(made: int, displayed: int, roster: int)
    requires 0 <= made <= displayed && roster >= 0 && displayed > 0
    ensures 0 <= CDiv(made * roster, displayed) <= roster
  {
    MulMonotone(made, displayed, roster);
    DivBounded(made * roster, displayed, roster);
  }

  lemma DivBounded(x: nat, d: int, k: nat)
    requires d > 0 && x <= d * k
    ensures 0 <= CDiv(x, d) <= k
  {
    CDivNonNegative(x, d);
    DivBelow(x, d, k);
    QuotientNonNegative(x, d);
  }

  lemma QuotientNonNegative(x: nat, d: int)
    requires d > 0
    ensures x / d >= 0
  {
  }

  lemma {:induction false} MulMonotone(a: int, b: int, k: nat)
    requires 0 <= a <= b
    ensures 0 <= a * k <= b * k
  {
    if k > 0 {
      MulMonotone(a, b, k - 1);
      assert a * k == a * (k - 1) + a;
      assert b * k == b * (k - 1) + b;
    }
  }

  lemma DivBelow(a: nat, d: int, k: nat)
    requires d > 0 && a <= d * k
    ensures a / d <= k
  {
    var q := a / d;
    assert q * d <= a;
    assert (k - q) * d >= 0 - d + 1 by {
      assert (k - q) * d == k * d - q * d;
    }
  }

  /** The made/size pair reported for a progress line. */
  function ShownProgress(st: ParserState, p: Progress): (Progress) {
    if RosterSizeKnown(st) && p.size > 0 then
      var roster := st.trackSizes[st.currentTrack - 1];
      p.(made := Rescale(p.made, p.size, roster), size := roster)
    else p
  }

  /** A progress line of the track being written; a line missing one of
      the anchors only shows up in the debugging output. */
  function ProgressStep(st: ParserState, line: string): StepResult {
    match ParseProgress(line)
    case None => StepResult(st, [])
    case Some(p) => ProgressReport(st, p)
  }

  /** The fifo fill, the track's and the whole run's progress, and the
      amount written so far (in KB) for the throughput estimate. A
      percentage is only computed over a positive size. */
  function ProgressReport(st: ParserState, p: Progress): StepResult {
    var shown := ShownProgress(st, p);
    var done := st.alreadyWritten + shown.made;
    StepResult(
      st.(lastFifo := Some(p.fifo)),
      [Buffer(p.fifo)]
      + (if shown.size > 0 then [ProcessedSubSize(shown.made, shown.size),
                                 SubPercent(CDiv(100 * shown.made, shown.size))] else [])
      + (if st.totalSize > 0 then [ProcessedSize(done, st.totalSize),
                                   Percent(CDiv(100 * done, st.totalSize))] else [])
      + [ThroughputData(done * 1024)])
  }

  /** A line starting with "Track ": a roster entry until the roster is
      closed, afterwards a progress line if it mentions the fifo in any
      case, and otherwise nothing. */
  function TrackLineStep(st: ParserState, line: string): StepResult {
    if !st.totalTracksParsed then StepResult(RosterStep(st, line), [])
    else if ContainsNoCase(line, "fifo") then ProgressStep(st, line)
    else StepResult(st, [])
  }

  /** "Starting new track": the roster is closed and the previous track,
      if any, counts as written. */
  function StartingNewStep(st: ParserState): StepResult {
    var written :=
      if st.currentTrack > 0 && |st.trackSizes| > st.currentTrack - 1
      then st.alreadyWritten + st.trackSizes[st.currentTrack - 1]
      else st.alreadyWritten;
    var next := st.currentTrack + 1;
    StepResult(
      st.(totalTracksParsed := true, alreadyWritten := written, currentTrack := next),
      (if st.currentTrack > 0 then [] else [InfoMessage(StartingWriting, Info)])
      + [NextTrack(next, st.totalTracks)])
  }

  function Latch(st: ParserState, e: ErrorCode, events: seq<Event>): StepResult {
    StepResult(st.(error := e), events)
  }

  /** One line of cdrecord's output: the debugging copy of the line, then
      the branch the line takes. */
  function Step(st: ParserState, ctx: LineContext, line: string): (r: StepResult)
    ensures |r.events| >= 1 && r.events[0] == DebuggingOutput(ctx.program, line)
  {
    var branch :=
      match Classify(line)
      case TrackLine => TrackLineStep(st, line)
      case AtSpeed =>
        var speed := SpeedOf(line);
        StepResult(st, if speed < ctx.usedSpeed
                       then [InfoMessage(SpeedUnsupported(ctx.usedSpeed), Warning),
                             InfoMessage(SwitchingDownSpeed(speed), Warning)]
                       else [])
      case StartingNew => StartingNewStep(st)
      case Fixating => StepResult(st, [NewSubTask(FixatingDisc)])
      case Countdown =>
        var secs := CountdownSeconds(line);
        StepResult(st, if secs > 0 then [InfoMessage(StartingIn(secs), Info)] else [])
      case LeadIn => StepResult(st.(totalTracksParsed := true), [NewSubTask(WritingLeadin)])
      case Leadout => StepResult(st, [NewSubTask(WritingLeadout)])
      case Pregap => StepResult(st, [NewSubTask(WritingPregap)])
      case PerformingOpc => StepResult(st, [InfoMessage(PowerCalibration, Info)])
      case Sending => StepResult(st, [InfoMessage(SendingCueSheet, Info)])
      case BurnProofOn => StepResult(st, [InfoMessage(BurnProofEnabled, Info)])
      case ReloadNeeded => StepResult(st, [InfoMessage(MediaReloadRequired, Info)])
      case UnderrunPhrase => Latch(st, BufferUnderrun, [])
      case NoSao => StepResult(st, [InfoMessage(SaoUnsupported, Error), InfoMessage(ChooseTao, Error)])
      case MayNotFit =>
        Latch(st, Oversize, if ctx.overburnNotice then [InfoMessage(WritingBeyondCapacity, Warning)] else [])
      case BadOptionPhrase =>
        Latch(st, BadOption, [InfoMessage(InvalidOption(ctx.program, BadOptionText(line)), Error)])
      case ShmgetPhrase => Latch(st, ShmgetFailed, [])
      case OpcFailedPhrase => Latch(st, OpcFailed, [])
      case SetSpeedPhrase => Latch(st, CannotSetSpeed, [])
      case OpenSessionPhrase => Latch(st, CannotOpenNewSession, [])
      case CueSheetPhrase => Latch(st, CannotSendCueSheet, [])
      case IoErrorPhrase => StepResult(st, [InfoMessage(IoErrorNotSerious, Warning)])
      case PermissionPhrase => Latch(st, PermissionDenied, [])
      case HighSpeedPhrase => Latch(st, HighSpeedMedium, [])
      case ReloadDisk => StepResult(st, [TrayReloadAcknowledged])
      case Unrecognised => StepResult(st, []);
    StepResult(branch.state, [DebuggingOutput(ctx.program, line)] + branch.events)
  }

  /** A sequence of lines, in arrival order. */
  function RunLines(st: ParserState, ctx: LineContext, lines: seq<string>): (r: StepResult)
  {
    Feed((s, line) => Step(s, ctx, line), st, lines)
  }

  /** Lines fed one after another through a per-line `step`. */
  function Feed(step: (ParserState, string) -> StepResult, st: ParserState, lines: seq<string>): StepResult
    decreases |lines|
  {
    if lines == [] then StepResult(st, [])
    else
      var before := Feed(step, st, lines[..|lines| - 1]);
      var last := step(before.state, lines[|lines| - 1]);
      StepResult(last.state, before.events + last.events)
  }
}
