/** The signals a K3b writer job emits to whoever displays its progress,
    and the shared vocabulary of writing modes. Message texts are
    translated strings in K3b; here each message is named by what it
    reports, with the values it interpolates. */
module JobEvents {

  /** `K3b::TAO`, `K3b::DAO`, `K3b::RAW`, and any other mode code a caller
      may pass to `setWritingMode`. */
  datatype WritingMode = Tao | Dao | Raw | OtherMode(code: int)

  /** `K3bJob::INFO`, `WARNING`, `ERROR`, `SUCCESS` */
  datatype Severity = Info | Warning | Error | Success

  datatype Message =
    // argument building (prepareProcess)
    | DaoUnsupported
    | BurnproofUnsupported
    | OverburnUnsupported(version: string)
    // start
    | ExecutableNotFound
    | UsingProgram(name: string, version: string, copyright: string)
    | CouldNotStart(name: string)
    | StartingRun(simulation: bool, mode: WritingMode, speed: int)
    // output parsing (slotStdLine)
    | SpeedUnsupported(speed: int)
    | SwitchingDownSpeed(speed: int)
    | StartingWriting
    | StartingIn(seconds: int)
    | PowerCalibration
    | SendingCueSheet
    | BurnProofEnabled
    | MediaReloadRequired
    | SaoUnsupported
    | ChooseTao
    | WritingBeyondCapacity
    | InvalidOption(program: string, option: string)
    | IoErrorNotSerious
    // exit mapping (slotProcessExited)
    | RunSucceeded(simulation: bool)
    | AverageWriteSpeed(kbPerSecond: int)
    | DataDidNotFit
    | DataDoesNotFit
    | SharedMemoryFailed(program: string)
    | BufferSizeTooLarge
    | OpcRejectedMedium
    | CannotSetSpeedTo(speed: int)
    | SpeedBelowMinimum
    | CueSheetRejected
    | WrongSettings
    | NewSessionRejected
    | MediumProblem
    | NoDevicePermission
    | UseSetupTool
    | BufferUnderrunLikely
    | EnableBurnfreeOrLowerSpeed
    | LowerSpeed
    | HighSpeedMediumUnsuitable
    | UnknownError(program: string, code: int)
    | SystemErrorText(code: int)
    | NotRunAsRoot
    | StabilityAffected
    | UseK3bSetup
    | ReportLastOutput
    | DidNotExitCleanly(program: string)

  datatype Task = Simulating | Writing

  datatype SubTask = PreparingWrite | FixatingDisc | WritingLeadin | WritingLeadout | WritingPregap

  /** One emitted signal, or one call into a collaborator the writer
      drives (the throughput estimator, the tray-reload prompt, the base
      class's cancel). */
  datatype Event =
    | Started
    | NewTask(task: Task)
    | NewSubTask(subTask: SubTask)
    | InfoMessage(message: Message, severity: Severity)
    | DebuggingOutput(tag: string, text: string)
    | Buffer(fifo: int)
    | ProcessedSubSize(made: int, size: int)
    | SubPercent(subPercent: int)
    | ProcessedSize(done: int, total: int)
    | Percent(percent: int)
    | NextTrack(track: int, total: int)
    | ThroughputReset
    | ThroughputData(bytes: int)
    | TrayReloadAcknowledged
    | AbstractWriterCancel
    | Finished(success: bool)

  /** How many `finished` signals a sequence of events holds. */
  function CountFinished(events: seq<Event>): nat
    decreases |events|
  {
    if events == [] then 0
    else CountFinished(events[..|events| - 1]) + (if events[|events| - 1].Finished? then 1 else 0)
  }

  lemma {:induction false} CountFinishedAppend(a: seq<Event>, b: seq<Event>)
    ensures CountFinished(a + b) == CountFinished(a) + CountFinished(b)
    decreases |b|
  {
    if b == [] {
      assert a + b == a;
    } else {
      assert (a + b)[..|a + b| - 1] == a + b[..|b| - 1];
      CountFinishedAppend(a, b[..|b| - 1]);
    }
  }

  lemma {:induction false} NoFinishedCounted(events: seq<Event>)
    requires forall i :: 0 <= i < |events| ==> !events[i].Finished?
    ensures CountFinished(events) == 0
    decreases |events|
  {
    if events != [] {
      NoFinishedCounted(events[..|events| - 1]);
    }
  }
}
