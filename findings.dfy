/** Two places where `K3bCdrecordWriter` as written does not do what it
    evidently means to do. Each is modelled as written, with an input that
    shows the difference, next to the corrected definition the rest of the
    model uses and the property proved about it. */
module Findings {
  import opened Wrappers
  import opened JobEvents
  import opened CdrecordParser
  import opened ParserLemmas
  import opened CdrecordExit
  import opened CdrecordLines
  import opened QtString

  // ---------------------------------------------------------------------
  // 1. The roster guard of a progress line
  // ---------------------------------------------------------------------

  /** The guard as written before the progress of a track is rescaled:
      the roster has more entries than the track number minus one, and the
      displayed size is positive. It then reads roster entry
      `currentTrack - 1`. */
  predicate RosterGuardAsWritten(st: ParserState, p: Progress) {
    |st.trackSizes| > st.currentTrack - 1 && p.size > 0
  }

  /** "Writing lead-in" closes the roster of a fresh run without starting a
      track. */
  lemma LeadInClosesRoster(prev: ParserState, ctx: LineContext)
    ensures Step(StartState(prev), ctx, "Writing lead-in").state
            == StartState(prev).(totalTracksParsed := true)
  {
    LeadInClassified();
  }

  /** "Writing lead-in" passes every earlier branch of the classification. */
  lemma LeadInClassified()
    ensures Classify("Writing lead-in") == LeadIn
  {
    var line := "Writing lead-in";
    assert Chain[5] == Branch(Prefix(line), LeadIn);
    assert StartsWith(line, "Writing lead-in");
    assert ClassifyIn(Chain, line, 5) == LeadIn;
    assert !Contains(line, "seconds.") by { NotContained(line, "seconds.", 7); }
    assert ClassifyIn(Chain, line, 4) == LeadIn;
    assert !StartsWith(line, "Fixating") by { assert line[..8][0] == 'W'; }
    assert ClassifyIn(Chain, line, 3) == LeadIn;
    assert !StartsWith(line, "Starting new") by { assert line[..12][0] == 'W'; }
    assert ClassifyIn(Chain, line, 2) == LeadIn;
    assert !Contains(line, "at speed") by { NotContained(line, "at speed", 4); }
    assert ClassifyIn(Chain, line, 1) == LeadIn;
    assert !StartsWith(line, "Track ") by { assert line[..6][0] == 'W'; }
  }

  /** A string lacking one of `p`'s characters does not contain `p`. */
  lemma NotContained(s: string, p: string, j: nat)
    requires j < |p| && Lacks(s, p[j])
    ensures !Contains(s, p)
  {
    forall i | 0 <= i <= |s| - |p|
      ensures !OccursAt(s, p, i)
    {
      assert s[i..i + |p|][j] == s[i + j];
    }
  }

  /** A progress line that arrives after the lead-in but before the first
      "Starting new track" passes the guard as written while the track
      number is 0, so the entry read is the one at index -1, which no
      roster has. The corrected guard refuses it. */
  lemma RosterGuardAdmitsTrackZero(prev: ParserState, ctx: LineContext)
    ensures var st := Step(StartState(prev), ctx, "Writing lead-in").state;
            var p := Progress(1, 40, 100);
            && st.totalTracksParsed
            && TrackLineStep(st, ProgressLine(1, 1, 40, 100)) == ProgressReport(st, p)
            && RosterGuardAsWritten(st, p)
            && st.currentTrack - 1 == -1
            && !RosterSizeKnown(st)
  {
    var st := Step(StartState(prev), ctx, "Writing lead-in").state;
    LeadInClosesRoster(prev, ctx);
    ProgressLineReported(st, 1, 1, 40, 100);
  }

  /** The corrected guard is the one written, except that it also requires
      a track to have started; it is what the rescaling uses, and under it
      the shown amounts stay within the track and the run
      (`ShownProgressBounded`). */
  lemma RosterGuardCorrected(st: ParserState, p: Progress)
    requires Consistent(st)
    ensures RosterSizeKnown(st) && p.size > 0 <==>
            RosterGuardAsWritten(st, p) && st.currentTrack != 0
  {
  }

  // ---------------------------------------------------------------------
  // 2. The fifo value a failed run is judged by
  // ---------------------------------------------------------------------

  /** `start` as written: the fifo value of the previous run (or whatever
      the uninitialised member holds on the first run) survives the reset. */
  function StartStateAsWritten(previous: ParserState): (st: ParserState)
    ensures st.lastFifo == previous.lastFifo
    ensures st.(lastFifo := None) == StartState(previous)
  {
    StartState(previous).(lastFifo := previous.lastFifo)
  }

  /** Two runs that print nothing and fail with the same exit code are
      reported differently as written, depending only on the fifo fill the
      run before them ended with: after a run that drained the fifo to 2%
      the failure is a buffer underrun, otherwise it stays unexplained. */
  lemma StaleFifoDecidesError(prev: ParserState, ctx: ExitContext)
    ensures var drained := StartStateAsWritten(prev.(lastFifo := Some(2)));
            var healthy := StartStateAsWritten(prev.(lastFifo := Some(95)));
            && drained.(lastFifo := None) == healthy.(lastFifo := None)
            && ExitReport(NormalExit(1), drained.error, drained.lastFifo, ctx).error == BufferUnderrun
            && ExitReport(NormalExit(1), healthy.error, healthy.lastFifo, ctx).error == Unknown
  {
  }

  /** With the fifo value reset by `start`, a run that reports no fifo
      value is judged the same whatever the previous run left behind (only
      the roster's track count, which `start` keeps, may differ), and a
      failure without a cause stays unexplained. */
  lemma FreshFifoIgnoresPreviousRun(prev1: ParserState, prev2: ParserState, status: ExitStatus, ctx: ExitContext)
    requires prev1.totalTracks == prev2.totalTracks
    ensures var a := StartState(prev1);
            var b := StartState(prev2);
            && ExitReport(status, a.error, a.lastFifo, ctx) == ExitReport(status, b.error, b.lastFifo, ctx)
            && ReportedError(a.error, a.lastFifo) == Unknown
  {
    assert StartState(prev1) == StartState(prev2);
  }
}
