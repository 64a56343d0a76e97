/** How `K3bCdrecordWriter::slotProcessExited`
    (src/projects/k3bcdrecordwriter.cpp:598-694) turns cdrecord's exit and
    the error code latched from its output into the job's outcome. */
module CdrecordExit {
  import opened Wrappers
  import opened JobEvents
  import opened CdrecordParser

  /** How the process ended: a normal exit with its status, or a crash. */
  datatype ExitStatus = NormalExit(code: int) | AbnormalExit

  /** What the report reads besides the parser's state: the program's
      name, the speed and options of the run, whether the device supports
      burnfree, whether cdrecord is installed set-uid root, whether K3b was
      built with K3bSetup, and the estimator's average write speed. */
  datatype ExitContext = ExitContext(
    program: string,
    simulate: bool,
    usedSpeed: int,
    overburnNotice: bool,
    usingBurnfree: bool,
    deviceBurnproof: bool,
    suidRoot: bool,
    withK3bSetup: bool,
    averageSpeed: int)

  /** The error a failed run is reported under: a failure without a
      recognised cause counts as a buffer underrun when the fifo was last
      seen at 3% or less. (The source compares a value that may never have
      been set in this run; see Findings.) */
  function ReportedError(error: ErrorCode, lastFifo: Option<int>): (e: ErrorCode)
    ensures e == BufferUnderrun <==>
            error == BufferUnderrun || (error == Unknown && lastFifo.Some? && lastFifo.value <= 3)
    ensures e != error ==> error == Unknown
  {
    if error == Unknown && lastFifo.Some? && lastFifo.value <= 3 then BufferUnderrun else error
  }

  function ErrorMessage(m: Message): Event {
    InfoMessage(m, Error)
  }

  /** The explanation shown for each cause of failure. */
  function ErrorExplanation(e: ErrorCode, ctx: ExitContext, code: int): (events: seq<Event>)
    ensures forall i :: 0 <= i < |events| ==> events[i].InfoMessage? && events[i].severity == Error
    ensures events == [] <==> e == BadOption
  {
    match e
    case Oversize =>
      [ErrorMessage(if ctx.overburnNotice then DataDidNotFit else DataDoesNotFit)]
    case BadOption => []
    case ShmgetFailed => [ErrorMessage(SharedMemoryFailed(ctx.program)), ErrorMessage(BufferSizeTooLarge)]
    case OpcFailed => [ErrorMessage(OpcRejectedMedium)]
    case CannotSetSpeed => [ErrorMessage(CannotSetSpeedTo(ctx.usedSpeed)), ErrorMessage(SpeedBelowMinimum)]
    case CannotSendCueSheet => [ErrorMessage(CueSheetRejected), ErrorMessage(WrongSettings)]
    case CannotOpenNewSession => [ErrorMessage(NewSessionRejected), ErrorMessage(MediumProblem)]
    case PermissionDenied => [ErrorMessage(NoDevicePermission), ErrorMessage(UseSetupTool)]
    case BufferUnderrun =>
      [ErrorMessage(BufferUnderrunLikely),
       ErrorMessage(if !ctx.usingBurnfree && ctx.deviceBurnproof then EnableBurnfreeOrLowerSpeed else LowerSpeed)]
    case HighSpeedMedium => [ErrorMessage(HighSpeedMediumUnsuitable)]
    case Unknown =>
      [ErrorMessage(UnknownError(ctx.program, code)), ErrorMessage(SystemErrorText(code))]
      + (if !ctx.suidRoot
         then [ErrorMessage(NotRunAsRoot), ErrorMessage(StabilityAffected)]
              + (if ctx.withK3bSetup then [ErrorMessage(UseK3bSetup)] else [])
         else [ErrorMessage(ReportLastOutput)])
  }

  datatype ExitResult = ExitResult(error: ErrorCode, events: seq<Event>)

  /** The outcome of a run. */
  function ExitReport(status: ExitStatus, error: ErrorCode, lastFifo: Option<int>, ctx: ExitContext): (r: ExitResult)
    ensures |r.events| >= 1 && r.events[|r.events| - 1] == Finished(status == NormalExit(0))
    ensures forall i :: 0 <= i < |r.events| - 1 ==> !r.events[i].Finished?
    ensures r.error == if status.NormalExit? && status.code != 0 then ReportedError(error, lastFifo) else error
  {
    match status
    case NormalExit(code) =>
      if code == 0 then
        ExitResult(error, [InfoMessage(RunSucceeded(ctx.simulate), Success),
                           InfoMessage(AverageWriteSpeed(ctx.averageSpeed), Info),
                           Finished(true)])
      else
        var reported := ReportedError(error, lastFifo);
        ExitResult(reported, ErrorExplanation(reported, ctx, code) + [Finished(false)])
    case AbnormalExit =>
      ExitResult(error, [ErrorMessage(DidNotExitCleanly(ctx.program)), Finished(false)])
  }

  /** Every exit emits exactly one `finished`. */
  lemma ExitFinishesOnce(status: ExitStatus, error: ErrorCode, lastFifo: Option<int>, ctx: ExitContext)
    ensures CountFinished(ExitReport(status, error, lastFifo, ctx).events) == 1
  {
    var events := ExitReport(status, error, lastFifo, ctx).events;
    var init := events[..|events| - 1];
    NoFinishedCounted(init);
    assert events == init + [events[|events| - 1]];
    CountFinishedAppend(init, [events[|events| - 1]]);
  }

  /** A failed run whose output named no cause is still explained as an
      underrun when the fifo had run (nearly) empty. */
  lemma EmptyFifoMeansUnderrun(code: int, fifo: int, ctx: ExitContext)
    requires code != 0 && fifo <= 3
    ensures var r := ExitReport(NormalExit(code), Unknown, Some(fifo), ctx);
            r.error == BufferUnderrun && r.events[0] == ErrorMessage(BufferUnderrunLikely)
  {
  }

  /** A crash is reported the same way whatever cdrecord printed before. */
  lemma AbnormalExitIgnoresError(e1: ErrorCode, e2: ErrorCode, f1: Option<int>, f2: Option<int>, ctx: ExitContext)
    ensures ExitReport(AbnormalExit, e1, f1, ctx).events == ExitReport(AbnormalExit, e2, f2, ctx).events
  {
  }
}
