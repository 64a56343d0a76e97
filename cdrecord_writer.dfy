/** The writer job itself, `K3bCdrecordWriter`
    (src/projects/k3bcdrecordwriter.cpp): its options, the command line it
    prepares, the run it starts and cancels, and the two slots that consume
    cdrecord's output lines and its exit. The class keeps the source's
    fields and updates them in place; each method is proved against the
    definitions of CdrecordArgs, CdrecordParser and CdrecordExit, and the
    lemmas at the end state what a whole run emits. */
module CdrecordWriter {
  import opened Wrappers
  import opened JobEvents
  import opened CdrecordParser
  import opened ParserLemmas
  import opened CdrecordArgs
  import opened CdrecordExit

  /** The debugging text listing the command line: every argument followed
      by a space. */
  function Joined(args: seq<string>): string {
    JoinedFrom(args, 0)
  }

  /** The same text for the arguments from index `i` on. */
  function JoinedFrom(args: seq<string>, i: nat): string
    decreases |args| - i
  {
    if i >= |args| then "" else args[i] + " " + JoinedFrom(args, i + 1)
  }

  /** A signal of the cdrecord process: a line of its output, or its exit. */
  datatype ProcessSignal =
    | OutputLine(line: string, cfg: Config)
    | ProcessExit(status: ExitStatus, job: JobSettings, dev: Device, cfg: Config, averageSpeed: int)

  function Announcement(b: BinObject): seq<Event> {
    if b.copyright != "" then [InfoMessage(UsingProgram(b.name, b.version, b.copyright), Info)] else []
  }

  /** The task and the announcement of a run whose process started, or the
      failure and the end of one that did not. */
  function LaunchOutcome(b: BinObject, job: JobSettings, mode: WritingMode, speed: int, launched: bool): seq<Event> {
    if launched then [NewTask(if job.simulate then Simulating else Writing),
                      InfoMessage(StartingRun(job.simulate, mode, speed), Info)]
    else [InfoMessage(CouldNotStart(b.name), Error), Finished(false)]
  }

  /** Everything `start` emits, in order, given the program the binary
      manager found (if any), the text of the command line prepared for it,
      and whether the process could be launched. */
  function StartEvents(found: Option<BinObject>, dev: Device, cfg: Config, job: JobSettings,
                       w: WriterOptions, commandText: string, launched: bool): seq<Event>
  {
    match found
    case None => [Started] + [ThroughputReset] + [InfoMessage(ExecutableNotFound, Error), Finished(false)]
    case Some(b) =>
      [Started] + [ThroughputReset]
      + PrepareWarnings(b, dev, cfg, job, w)
      + RunEvents(b, job, w.mode, UsedSpeed(job, dev), commandText, launched)
  }

  /** What `start` emits once the command line is prepared: the copyright
      notice, the command line in the debugging output, the preparation
      subtask, and the outcome of the launch. */
  function RunEvents(b: BinObject, job: JobSettings, mode: WritingMode, speed: int, commandText: string,
                     launched: bool): seq<Event>
  {
    Announcement(b)
    + [DebuggingOutput(b.name + " comand:", commandText)]
    + [NewSubTask(PreparingWrite)]
    + LaunchOutcome(b, job, mode, speed, launched)
  }

  /** The context of the output parser: the program's name, the speed in
      use, and whether overburning is both allowed and supported. */
  function ParserContext(b: BinObject, usedSpeed: int, cfg: Config): LineContext {
    LineContext(b.name, usedSpeed, cfg.allowOverburning && b.overburn)
  }

  /** The context of the exit report. */
  function ReportContext(b: BinObject, job: JobSettings, dev: Device, cfg: Config,
                         usedSpeed: int, usingBurnfree: bool, averageSpeed: int): ExitContext
  {
    ExitContext(b.name, job.simulate, usedSpeed, cfg.allowOverburning && b.overburn, usingBurnfree,
                dev.burnproof, b.suidRoot, cfg.withK3bSetup, averageSpeed)
  }

  /** The writer. Each method that emits signals returns them, in the order
      they are emitted. */
  class Writer {
    // the writer's options
    var options: WriterOptions
    var arguments: seq<string>

    // the private part: whether a run is active, and what prepareProcess chose
    var running: bool
    var usingBurnfree: bool
    var usedSpeed: int

    // the program found, and the process: whether one exists, its command
    // line, whether it runs, and whether its signals reach the slots
    var bin: Option<BinObject>
    var hasProcess: bool
    var processArgs: seq<string>
    var processRunning: bool
    var connected: bool

    // the parsing state of the current run
    var parser: ParserState

    /** The mode is one of the three cdrecord knows, a cue file is only
        set together with the cue flag, the track bookkeeping is
        consistent, and a running process belongs to an active run of a
        program that was found. */
    ghost predicate Valid()
      reads this`options, this`parser, this`processRunning,
            this`running, this`hasProcess, this`bin, this`connected
    {
      Settled() && Consistent(parser)
    }

    /** The part of `Valid` that does not concern the parsing state. */
    ghost predicate Settled()
      reads this`options, this`processRunning,
            this`running, this`hasProcess, this`bin, this`connected
    {
      && !options.mode.OtherMode?
      && (options.cueFile != "" ==> options.cue)
      && (processRunning ==> running && hasProcess && bin.Some?)
      && (connected ==> hasProcess)
    }


    /** `active()`: whether a run is in progress; it is while the process
        runs. */
    function Active(): (b: bool)
      reads this`options, this`processRunning, this`running, this`hasProcess, this`bin, this`connected
      ensures Settled() && processRunning ==> b
    {
      running
    }

    /** A new writer writes in TAO, without clone mode, ejecting afterwards,
        with no arguments, and is not active. (The source leaves the cue flag
        unset; it only matters once `setCueFile` has set it.) */
    constructor ()
      ensures Valid()
      ensures options == WriterOptions(Tao, false, "", false, false) && arguments == []
      ensures !running && bin.None? && !hasProcess && !processRunning && !connected
    {
      options := WriterOptions(Tao, false, "", false, false);
      arguments := [];
      running := false;
      usingBurnfree := false;
      usedSpeed := 0;
      bin := None;
      hasProcess := false;
      processArgs := [];
      processRunning := false;
      connected := false;
      parser := ParserState(0, 0, false, [], 0, 0, None, Unknown);
    }

    method SetDao(b: bool)
      requires Valid()
      modifies this`options
      ensures Valid()
      ensures options == old(options).(mode := if b then Dao else Tao)
    {
      options := options.(mode := if b then Dao else Tao);
    }

    method SetCueFile(s: string)
      requires Valid()
      modifies this`options
      ensures Valid()
      ensures options == old(options).(cue := true, cueFile := s)
    {
      options := options.(cue := true, cueFile := s);
    }

    method SetClone(b: bool)
      requires Valid()
      modifies this`options
      ensures Valid()
      ensures options == old(options).(clone := b)
    {
      options := options.(clone := b);
    }

    /** Only DAO, TAO and RAW are accepted; any other mode is ignored. */
    method SetWritingMode(m: WritingMode)
      requires Valid()
      modifies this`options
      ensures Valid()
      ensures options == if m.OtherMode? then old(options) else old(options).(mode := m)
    {
      if m == Dao || m == Tao || m == Raw {
        options := options.(mode := m);
      }
    }

    method AddArgument(a: string)
      requires Valid()
      modifies this`arguments
      ensures Valid()
      ensures arguments == old(arguments) + [a]
    {
      arguments := arguments + [a];
    }

    method ClearArguments()
      requires Valid()
      modifies this`arguments
      ensures Valid()
      ensures arguments == []
    {
      arguments := [];
    }

    /** With the program found, the process carries the command line
        `CommandLine` describes, and the speed and burnfree choice were
        taken from the job and the device. */
    predicate Prepared(found: Option<BinObject>, dev: Device, cfg: Config, job: JobSettings)
      reads this`processArgs, this`usedSpeed, this`usingBurnfree, this`arguments,
            this`options
    {
      found.Some? ==>
        && processArgs == CommandLine(found.value, dev, cfg, job, options, arguments)
        && usedSpeed == UsedSpeed(job, dev)
        && usingBurnfree == UsingBurnfree(job, dev)
    }

    /** A new process, connected to the slots; with the program found, its
        command line is the one `CommandLine` describes and the warnings are
        the ones `PrepareWarnings` describes. */
    method PrepareProcess(found: Option<BinObject>, dev: Device, cfg: Config, job: JobSettings)
      returns (warnings: seq<Event>)
      requires Settled() && !processRunning
      modifies this`bin, this`hasProcess, this`processArgs, this`connected, this`usedSpeed, this`usingBurnfree
      ensures Settled()
      ensures bin == found && hasProcess && connected
      ensures found.None? ==>
                processArgs == [] && warnings == []
                && usedSpeed == old(usedSpeed) && usingBurnfree == old(usingBurnfree)
      ensures Prepared(found, dev, cfg, job)
      ensures found.Some? ==> warnings == PrepareWarnings(found.value, dev, cfg, job, options)
    {
      hasProcess := true;
      connected := true;
      bin := found;
      if found.None? {
        processArgs := [];
        warnings := [];
        return;
      }
      var w := options;
      var args, speed, burnfree;
      args, warnings, speed, burnfree := BuildCommandLine(found.value, dev, cfg, job, w, arguments);
      processArgs := args;
      usedSpeed := speed;
      usingBurnfree := burnfree;
      assert options == w;
    }

    /** Starts a run: with the program found, the command line is prepared,
        the parsing state reset, and the process launched; a missing program
        or a failed launch ends the run at once. */
    method Start(found: Option<BinObject>, dev: Device, cfg: Config, job: JobSettings, launched: bool)
      returns (emitted: seq<Event>)
      requires Valid() && !processRunning
      modifies this`running, this`bin, this`hasProcess, this`processArgs, this`connected,
               this`usedSpeed, this`usingBurnfree, this`parser, this`processRunning
      ensures Valid()
      ensures emitted == StartEvents(found, dev, cfg, job, options, Joined(processArgs), launched)
      ensures running == processRunning == (found.Some? && launched)
      ensures bin == found && hasProcess && connected
      ensures Prepared(found, dev, cfg, job)
      ensures found.Some? ==> parser == StartState(old(parser))
      ensures found.None? ==> parser == old(parser)
    {
      running := true;
      var warnings := PrepareProcess(found, dev, cfg, job);
      if found.None? {
        running := false;
        emitted := [Started] + [ThroughputReset] + [InfoMessage(ExecutableNotFound, Error), Finished(false)];
        return;
      }
      ghost var w := options;
      ghost var args := processArgs;
      var rest := Launch(found.value, job, launched);
      assert options == w && processArgs == args;
      emitted := [Started] + [ThroughputReset] + warnings + rest;
    }

    /** The part of `start` after the command line is prepared: the
        copyright notice, the command line in the debugging output, the
        reset of the parsing state, and the launch of the process, which
        either runs or ends the run at once. */
    method Launch(b: BinObject, job: JobSettings, launched: bool) returns (emitted: seq<Event>)
      modifies this`parser, this`running, this`processRunning
      ensures emitted == RunEvents(b, job, options.mode, usedSpeed, Joined(processArgs), launched)
      ensures parser == StartState(old(parser)) && Consistent(parser)
      ensures launched ==> running == old(running) && processRunning
      ensures !launched ==> !running && processRunning == old(processRunning)
    {
      var notice: seq<Event> := [];
      if b.copyright != "" {
        notice := [InfoMessage(UsingProgram(b.name, b.version, b.copyright), Info)];
      }
      emitted := notice;

      var s := CommandText();
      emitted := emitted + [DebuggingOutput(b.name + " comand:", s)];

      StartStateConsistent(parser);
      parser := StartState(parser);
      emitted := emitted + [NewSubTask(PreparingWrite)];

      var outcome: seq<Event>;
      if !launched {
        outcome := [InfoMessage(CouldNotStart(b.name), Error), Finished(false)];
        running := false;
      } else {
        processRunning := true;
        outcome := [NewTask(if job.simulate then Simulating else Writing),
                    InfoMessage(StartingRun(job.simulate, options.mode, usedSpeed), Info)];
      }
      emitted := emitted + outcome;
    }

    /** The command line as one text, for the debugging output. */
    method CommandText() returns (s: string)
      ensures s == Joined(processArgs)
    {
      s := "";
      var i := 0;
      while i < |processArgs|
        invariant 0 <= i <= |processArgs|
        invariant s + JoinedFrom(processArgs, i) == Joined(processArgs)
      {
        assert s + JoinedFrom(processArgs, i) == s + processArgs[i] + " " + JoinedFrom(processArgs, i + 1);
        s := s + processArgs[i] + " ";
        i := i + 1;
      }
      assert s + "" == s;
    }

    /** Cancelling kills a running process of an active run, detaches it
        from the slots and hands over to the base class; otherwise nothing
        happens. */
    method Cancel() returns (emitted: seq<Event>)
      requires Valid()
      modifies this`connected, this`processRunning
      ensures Valid()
      ensures old(running && hasProcess && processRunning) ==>
                !connected && !processRunning && emitted == [AbstractWriterCancel]
      ensures !old(running && hasProcess && processRunning) ==>
                connected == old(connected) && processRunning == old(processRunning) && emitted == []
    {
      emitted := [];
      if running {
        if hasProcess {
          if processRunning {
            connected := false;
            processRunning := false;
            emitted := [AbstractWriterCancel];
          }
        }
      }
    }

    /** One line of cdrecord's output, as `Step` describes it; the track
        bookkeeping stays consistent. */
    method StdLine(line: string, cfg: Config) returns (emitted: seq<Event>)
      requires Valid() && connected && bin.Some?
      modifies this`parser
      ensures Valid()
      ensures var r := Step(old(parser), ParserContext(bin.value, usedSpeed, cfg), line);
              parser == r.state && emitted == r.events
    {
      var r := Step(parser, ParserContext(bin.value, usedSpeed, cfg), line);
      StepKeepsConsistent(parser, ParserContext(bin.value, usedSpeed, cfg), line);
      parser := r.state;
      emitted := r.events;
    }

    /** The process ended: the outcome `ExitReport` describes, and the run
        is over. */
    method ProcessExited(status: ExitStatus, job: JobSettings, dev: Device, cfg: Config, averageSpeed: int)
      returns (emitted: seq<Event>)
      requires Valid() && connected && bin.Some?
      modifies this`parser, this`running, this`processRunning
      ensures Valid()
      ensures var r := ExitReport(status, old(parser).error, old(parser).lastFifo,
                                  ReportContext(bin.value, job, dev, cfg, usedSpeed, usingBurnfree, averageSpeed));
              parser == old(parser).(error := r.error) && emitted == r.events
      ensures !running && !processRunning
    {
      var ctx := ReportContext(bin.value, job, dev, cfg, usedSpeed, usingBurnfree, averageSpeed);
      var r := ExitReport(status, parser.error, parser.lastFifo, ctx);
      var next := parser.(error := r.error);
      assert SameBookkeeping(parser, next);
      SameBookkeepingConsistent(parser, next);
      running := false;
      processRunning := false;
      parser := next;
      emitted := r.events;
    }

    /** What the process sends reaches the slots only while it is connected
        to them: a disconnected process changes nothing and emits nothing. */
    method Deliver(signal: ProcessSignal) returns (emitted: seq<Event>)
      requires Valid()
      modifies this`parser, this`running, this`processRunning
      ensures Valid()
      ensures !(old(connected) && bin.Some?) ==>
                emitted == [] && parser == old(parser) && running == old(running) &&
                processRunning == old(processRunning)
      ensures old(connected) && bin.Some? && signal.OutputLine? ==>
                var r := Step(old(parser), ParserContext(bin.value, usedSpeed, signal.cfg), signal.line);
                parser == r.state && emitted == r.events && running == old(running) &&
                processRunning == old(processRunning)
      ensures old(connected) && bin.Some? && signal.ProcessExit? ==>
                var r := ExitReport(signal.status, old(parser).error, old(parser).lastFifo,
                                    ReportContext(bin.value, signal.job, signal.dev, signal.cfg, usedSpeed,
                                                  usingBurnfree, signal.averageSpeed));
                parser == old(parser).(error := r.error) && emitted == r.events && !running && !processRunning
    {
      if !(connected && bin.Some?) {
        emitted := [];
      } else {
        match signal
        case OutputLine(line, cfg) =>
          emitted := StdLine(line, cfg);
        case ProcessExit(status, job, dev, cfg, averageSpeed) =>
          emitted := ProcessExited(status, job, dev, cfg, averageSpeed);
      }
    }
  }

  /** The command line and the warnings of `prepareProcess`, built piece
      by piece in the order of the source. */
  method BuildCommandLine(b: BinObject, dev: Device, cfg: Config, job: JobSettings, w: WriterOptions,
                          arguments: seq<string>)
    returns (args: seq<string>, warnings: seq<Event>, speed: int, burnfree: bool)
    ensures args == CommandLine(b, dev, cfg, job, w, arguments)
    ensures warnings == PrepareWarnings(b, dev, cfg, job, w)
    ensures speed == UsedSpeed(job, dev) && burnfree == UsingBurnfree(job, dev)
  {
    var device;
    device, speed := DeviceArguments(b, dev, job);
    var driver, early;
    driver, early, burnfree := DriverArguments(b, dev, job, w);
    var output, late := OutputArguments(b, cfg, w);
    CommandLineInPieces(b, dev, cfg, job, w);
    args := [b.path, "-v"] + device + driver + output;
    args := AppendAll(args, b.userParameters);
    args := AppendAll(args, arguments);
    warnings := early + late;
  }

  /** `args` followed by each of `xs`, appended one at a time. */
  method AppendAll(args: seq<string>, xs: seq<string>) returns (r: seq<string>)
    ensures r == args + xs
  {
    r := args;
    var i := 0;
    while i < |xs|
      invariant 0 <= i <= |xs|
      invariant r == args + xs[..i]
    {
      assert xs[..i + 1] == xs[..i] + [xs[i]];
      r := r + [xs[i]];
      i := i + 1;
    }
    assert xs[..i] == xs;
  }

  /** The grace time, the device and the speed, and the speed chosen. */
  method DeviceArguments(b: BinObject, dev: Device, job: JobSettings) returns (args: seq<string>, speed: int)
    ensures args == DeviceOptions(b, dev, job)
    ensures speed == UsedSpeed(job, dev)
  {
    args := [];
    if b.gracetime {
      args := args + ["gracetime=2"];
    }
    args := args + ["dev=" + dev.parameter];
    speed := job.burnSpeed;
    if speed == 0 {
      speed := CInt.CDiv(dev.maximalWriteSpeed, 175);
    }
    if speed != 0 {
      args := args + ["speed=" + Decimal.IntToString(speed)];
    }
  }

  /** The writing mode, the simulation flag and burnfree, with a warning
      for each the device cannot do, and whether burnfree is used. */
  method DriverArguments(b: BinObject, dev: Device, job: JobSettings, w: WriterOptions)
    returns (args: seq<string>, warnings: seq<Event>, burnfree: bool)
    ensures args == ModeOptions(dev, w) + (if job.simulate then ["-dummy"] else [])
                    + DriverOptions(b, dev, job)
    ensures warnings == (if w.mode == Dao && !dev.dao then [InfoMessage(DaoUnsupported, Warning)] else [])
                        + (if job.burnproof && !dev.burnproof then [InfoMessage(BurnproofUnsupported, Warning)] else [])
    ensures burnfree == UsingBurnfree(job, dev)
  {
    args := [];
    warnings := [];
    if w.mode == Dao {
      if dev.dao {
        args := args + ["-dao"];
      } else {
        warnings := warnings + [InfoMessage(DaoUnsupported, Warning)];
      }
    } else if w.mode == Raw {
      args := args + ["-raw"];
    }
    assert args == ModeOptions(dev, w);
    ghost var a1 := args;
    if job.simulate {
      args := args + ["-dummy"];
    }
    assert args == a1 + (if job.simulate then ["-dummy"] else []);
    ghost var a2 := args;
    burnfree := false;
    if job.burnproof {
      if dev.burnproof {
        burnfree := true;
        if b.burnfreeName {
          args := args + ["driveropts=burnfree"];
        } else {
          args := args + ["driveropts=burnproof"];
        }
      } else {
        warnings := warnings + [InfoMessage(BurnproofUnsupported, Warning)];
      }
    }
    assert args == a2 + DriverOptions(b, dev, job);
  }

  /** The cue file, clone mode, ejecting, the FIFO size and overburning,
      with a warning when overburning is allowed but not supported. */
  method OutputArguments(b: BinObject, cfg: Config, w: WriterOptions) returns (args: seq<string>, warnings: seq<Event>)
    ensures args == CueOptions(w) + (if w.clone then ["-clone"] else [])
                    + (if EjectAfterwards(cfg, w) then ["-eject"] else [])
                    + BufferOptions(cfg)
                    + (if cfg.allowOverburning && b.overburn then ["-overburn"] else [])
    ensures warnings == if cfg.allowOverburning && !b.overburn
                        then [InfoMessage(OverburnUnsupported(b.version), Warning)] else []
  {
    warnings := [];
    args := [];
    if w.cue && w.cueFile != "" {
      args := args + ["cuefile=" + w.cueFile];
    }
    assert args == CueOptions(w);
    ghost var a1 := args;
    if w.clone {
      args := args + ["-clone"];
    }
    assert args == a1 + (if w.clone then ["-clone"] else []);
    ghost var a2 := args;
    if !cfg.noCdEject && !w.forceNoEject {
      args := args + ["-eject"];
    }
    assert args == a2 + (if EjectAfterwards(cfg, w) then ["-eject"] else []);
    ghost var a3 := args;
    if cfg.manualBufferSize {
      args := args + ["fs=" + Decimal.IntToString(cfg.cdrecordBuffer) + "m"];
    }
    assert args == a3 + BufferOptions(cfg);
    ghost var a4 := args;
    if cfg.allowOverburning {
      if b.overburn {
        args := args + ["-overburn"];
      } else {
        warnings := [InfoMessage(OverburnUnsupported(b.version), Warning)];
      }
    }
    assert args == a4 + (if cfg.allowOverburning && b.overburn then ["-overburn"] else []);
  }

  lemma Regroup<T>(p: seq<T>, d: seq<T>, m1: seq<T>, m2: seq<T>, m3: seq<T>,
                   r1: seq<T>, r2: seq<T>, r3: seq<T>, r4: seq<T>, r5: seq<T>)
    ensures p + d + (m1 + m2 + m3) + (r1 + r2 + r3 + r4 + r5)
            == p + (d + m1 + m2 + m3 + r1 + r2 + r3 + r4 + r5)
  {
  }

  /** The command line assembled from the device, driver and output pieces
      is the one `Options` describes. */
  lemma CommandLineInPieces(b: BinObject, dev: Device, cfg: Config, job: JobSettings, w: WriterOptions)
    ensures [b.path, "-v"] + DeviceOptions(b, dev, job)
            + (ModeOptions(dev, w) + (if job.simulate then ["-dummy"] else []) + DriverOptions(b, dev, job))
            + (CueOptions(w) + (if w.clone then ["-clone"] else []) + (if EjectAfterwards(cfg, w) then ["-eject"] else [])
               + BufferOptions(cfg) + (if cfg.allowOverburning && b.overburn then ["-overburn"] else []))
            == [b.path, "-v"] + Options(b, dev, cfg, job, w)
  {
    Regroup([b.path, "-v"], DeviceOptions(b, dev, job),
            ModeOptions(dev, w), if job.simulate then ["-dummy"] else [], DriverOptions(b, dev, job),
            CueOptions(w), if w.clone then ["-clone"] else [], if EjectAfterwards(cfg, w) then ["-eject"] else [],
            BufferOptions(cfg), if cfg.allowOverburning && b.overburn then ["-overburn"] else []);
  }
}
