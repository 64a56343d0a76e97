/** Properties of whole runs of the writer: how many `finished` signals a
    start, the lines of cdrecord's output and the exit emit together, and
    how the debugging text of the command line grows with the arguments. */
module WriterRuns {
  import opened Wrappers
  import opened JobEvents
  import opened CdrecordParser
  import opened CdrecordArgs
  import opened CdrecordExit
  import opened CdrecordWriter
  import opened QtString

  /** The signals of a line that carry no `finished`. */
  predicate Unfinished(events: seq<Event>) {
    Finished(true) !in events && Finished(false) !in events
  }

  lemma ProgressUnfinished(st: ParserState, line: string)
    ensures Unfinished(ProgressStep(st, line).events)
  {
    match ParseProgress(line)
    case None =>
    case Some(p) => ProgressReportUnfinished(st, p);
  }

  lemma ProgressReportUnfinished(st: ParserState, p: Progress)
    ensures Unfinished(ProgressReport(st, p).events)
  {
  }

  lemma TrackLineUnfinished(st: ParserState, line: string)
    ensures Unfinished(TrackLineStep(st, line).events)
  {
    if st.totalTracksParsed && ContainsNoCase(line, "fifo") {
      ProgressUnfinished(st, line);
    }
  }

  /** No line of cdrecord's output finishes the job. */
  lemma StepEmitsNoFinished(st: ParserState, ctx: LineContext, line: string)
    ensures CountFinished(Step(st, ctx, line).events) == 0
  {
    var events := Step(st, ctx, line).events;
    if Classify(line) == TrackLine {
      TrackLineUnfinished(st, line);
    }
    assert Unfinished(events);
    NoFinishedIn(events);
  }

  lemma NoFinishedIn(events: seq<Event>)
    requires Unfinished(events)
    ensures CountFinished(events) == 0
  {
    forall i | 0 <= i < |events|
      ensures !events[i].Finished?
    {
      assert events[i] in events;
    }
    NoFinishedCounted(events);
  }

  /** Nor does any sequence of lines. */
  lemma {:induction false} RunLinesEmitNoFinished(st: ParserState, ctx: LineContext, lines: seq<string>)
    ensures CountFinished(RunLines(st, ctx, lines).events) == 0
    decreases |lines|
  {
    if lines != [] {
      var before := RunLines(st, ctx, lines[..|lines| - 1]);
      var last := Step(before.state, ctx, lines[|lines| - 1]);
      RunLinesEmitNoFinished(st, ctx, lines[..|lines| - 1]);
      StepEmitsNoFinished(before.state, ctx, lines[|lines| - 1]);
      CountFinishedAppend(before.events, last.events);
    }
  }

  /** `start` begins with `started`, and finishes the job exactly when the
      program is missing or its process could not be launched. */
  lemma StartFinishesUnlessLaunched(found: Option<BinObject>, dev: Device, cfg: Config, job: JobSettings,
                                    w: WriterOptions, commandText: string, launched: bool)
    ensures var events := StartEvents(found, dev, cfg, job, w, commandText, launched);
            && events[0] == Started
            && CountFinished(events) == (if found.Some? && launched then 0 else 1)
  {
    var events := StartEvents(found, dev, cfg, job, w, commandText, launched);
    match found
    case None =>
      var head := [Started, ThroughputReset, InfoMessage(ExecutableNotFound, Error)];
      assert events == head + [Finished(false)];
      NoFinishedCounted(head);
      CountFinishedAppend(head, [Finished(false)]);
    case Some(b) =>
      var head := [Started] + [ThroughputReset] + PrepareWarnings(b, dev, cfg, job, w);
      var run := RunEvents(b, job, w.mode, UsedSpeed(job, dev), commandText, launched);
      assert events == head + run;
      PreludeUnfinished(b, dev, cfg, job, w);
      RunEventsFinish(b, job, w.mode, UsedSpeed(job, dev), commandText, launched);
      CountFinishedAppend(head, run);
  }

  /** The signals before the command line is announced finish nothing. */
  lemma PreludeUnfinished(b: BinObject, dev: Device, cfg: Config, job: JobSettings, w: WriterOptions)
    ensures CountFinished([Started] + [ThroughputReset] + PrepareWarnings(b, dev, cfg, job, w)) == 0
  {
    NoFinishedCounted([Started] + [ThroughputReset] + PrepareWarnings(b, dev, cfg, job, w));
  }

  /** The rest of `start` finishes the job exactly when the launch fails. */
  lemma RunEventsFinish(b: BinObject, job: JobSettings, mode: WritingMode, speed: int, commandText: string,
                        launched: bool)
    ensures CountFinished(RunEvents(b, job, mode, speed, commandText, launched)) == if launched then 0 else 1
  {
    var head := Announcement(b) + [DebuggingOutput(b.name + " comand:", commandText)] + [NewSubTask(PreparingWrite)];
    var outcome := LaunchOutcome(b, job, mode, speed, launched);
    NoFinishedCounted(head);
    CountFinishedAppend(head, outcome);
    if launched {
      NoFinishedCounted(outcome);
    } else {
      assert outcome == [InfoMessage(CouldNotStart(b.name), Error)] + [Finished(false)];
      NoFinishedCounted([InfoMessage(CouldNotStart(b.name), Error)]);
      CountFinishedAppend([InfoMessage(CouldNotStart(b.name), Error)], [Finished(false)]);
    }
  }

  /** A run that starts, consumes any lines of output and ends with the
      process exiting finishes the job exactly once. */
  lemma RunFinishesOnce(b: BinObject, dev: Device, cfg: Config, job: JobSettings, w: WriterOptions,
                        commandText: string, st: ParserState, ctx: LineContext, lines: seq<string>,
                        status: ExitStatus, ectx: ExitContext)
    ensures var start := StartEvents(Some(b), dev, cfg, job, w, commandText, true);
            var run := RunLines(st, ctx, lines);
            var exit := ExitReport(status, run.state.error, run.state.lastFifo, ectx);
            CountFinished(start + run.events + exit.events) == 1
  {
    var start := StartEvents(Some(b), dev, cfg, job, w, commandText, true);
    var run := RunLines(st, ctx, lines);
    var exit := ExitReport(status, run.state.error, run.state.lastFifo, ectx);
    StartFinishesUnlessLaunched(Some(b), dev, cfg, job, w, commandText, true);
    RunLinesEmitNoFinished(st, ctx, lines);
    ExitFinishesOnce(status, run.state.error, run.state.lastFifo, ectx);
    CountFinishedAppend(start, run.events);
    CountFinishedAppend(start + run.events, exit.events);
  }

  /** Once `cancel` has stopped a running process, nothing the process
      still sends reaches the writer: the parsing state stays as it was and
      no signal follows the cancellation, so the job is not reported as
      finished by the slots. */
  method CancelSilencesProcess(w: Writer, signals: seq<ProcessSignal>) returns (emitted: seq<Event>)
    requires w.Valid() && w.running && w.hasProcess && w.processRunning
    modifies w`connected, w`processRunning, w`parser, w`running
    ensures emitted == [AbstractWriterCancel]
    ensures w.parser == old(w.parser) && w.running && !w.connected && !w.processRunning
  {
    emitted := w.Cancel();
    for k := 0 to |signals|
      invariant w.Valid() && !w.connected && w.running && !w.processRunning
      invariant w.parser == old(w.parser) && emitted == [AbstractWriterCancel]
    {
      var more := w.Deliver(signals[k]);
      emitted := emitted + more;
    }
  }

  /** Adding an argument adds it, followed by a space, at the end of the
      debugging text. */
  lemma JoinedAppend(args: seq<string>, a: string)
    ensures Joined(args + [a]) == Joined(args) + a + " "
  {
    JoinedFromAppend(args, a, 0);
  }

  lemma {:induction false} JoinedFromAppend(args: seq<string>, a: string, i: nat)
    requires i <= |args|
    ensures JoinedFrom(args + [a], i) == JoinedFrom(args, i) + a + " "
    decreases |args| - i
  {
    var longer := args + [a];
    if i == |args| {
      assert longer[i] == a;
      assert JoinedFrom(longer, i + 1) == "";
    } else {
      JoinedFromAppend(args, a, i + 1);
      assert longer[i] == args[i];
      calc {
        JoinedFrom(longer, i);
        longer[i] + " " + JoinedFrom(longer, i + 1);
        args[i] + " " + (JoinedFrom(args, i + 1) + a + " ");
        (args[i] + " " + JoinedFrom(args, i + 1)) + a + " ";
      }
    }
  }
}
