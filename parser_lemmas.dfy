/** What the line parser guarantees over whole runs of cdrecord output:
    the bookkeeping of track sizes stays consistent, the error code is the
    one the last error line assigned, the percentages stay within 0..100,
    and roster and progress lines in cdrecord's format are read back
    exactly. */
module ParserLemmas {
  import opened CInt
  import opened Decimal
  import opened QtString
  import opened Wrappers
  import opened JobEvents
  import opened CdrecordParser

  // ---------------------------------------------------------------------
  // Track bookkeeping
  // ---------------------------------------------------------------------

  function Sum(s: seq<int>): int
    decreases |s|
  {
    if s == [] then 0 else Sum(s[..|s| - 1]) + s[|s| - 1]
  }

  predicate AllNonNegative(s: seq<int>) {
    forall i :: 0 <= i < |s| ==> s[i] >= 0
  }

  /** How many roster entries belong to tracks already completely written:
      all tracks before the current one, as far as the roster lists them. */
  function WrittenTracks(st: ParserState): nat {
    if st.currentTrack <= 1 then 0
    else if st.currentTrack - 1 <= |st.trackSizes| then st.currentTrack - 1
    else |st.trackSizes|
  }

  /** The invariant of the parsing state: the total is the sum of the
      roster, no track is under way while the roster is still being read,
      and the bytes already written are the roster sizes of the finished
      tracks. */
  predicate Consistent(st: ParserState) {
    && st.currentTrack >= 0
    && AllNonNegative(st.trackSizes)
    && st.totalSize == Sum(st.trackSizes)
    && (!st.totalTracksParsed ==> st.currentTrack == 0)
    && st.alreadyWritten == Sum(st.trackSizes[..WrittenTracks(st)])
  }

  lemma SumAppend(s: seq<int>, x: int)
    ensures Sum(s + [x]) == Sum(s) + x
  {
    assert (s + [x])[..|s|] == s;
  }

  lemma SumPrefixStep(s: seq<int>, n: nat)
    requires n < |s|
    ensures Sum(s[..n + 1]) == Sum(s[..n]) + s[n]
  {
    assert s[..n + 1][..n] == s[..n];
  }

  lemma {:induction false} SumPrefixBounded(s: seq<int>, n: nat)
    requires AllNonNegative(s) && n <= |s|
    ensures 0 <= Sum(s[..n]) <= Sum(s)
    decreases |s|
  {
    if n < |s| {
      assert s[..|s| - 1][..n] == s[..n];
      SumPrefixBounded(s[..|s| - 1], n);
    } else {
      assert s[..n] == s;
      if s != [] {
        SumPrefixBounded(s[..|s| - 1], n - 1);
        assert s[..|s| - 1][..n - 1] == s[..|s| - 1];
      }
    }
  }

  /** `start` sets up a consistent state. */
  lemma StartStateConsistent(previous: ParserState)
    ensures Consistent(StartState(previous))
  {
  }

  /** A line starting with "Track " never reaches the later branches. */
  lemma StepOnTrackLine(st: ParserState, ctx: LineContext, line: string)
    requires StartsWith(line, "Track ")
    ensures Step(st, ctx, line) ==
            StepResult(TrackLineStep(st, line).state, [DebuggingOutput(ctx.program, line)] + TrackLineStep(st, line).events)
  {
  }

  /** Which fields of the bookkeeping a line can touch: only roster lines
      (before the roster is closed), "Starting new track" and
      "Writing lead-in" change anything besides the fifo value and the
      error code. */
  lemma StepBookkeeping(st: ParserState, ctx: LineContext, line: string)
    ensures var next := Step(st, ctx, line).state;
            var kind := Classify(line);
            && (kind == TrackLine ==>
                  next.(lastFifo := st.lastFifo) == if st.totalTracksParsed then st else RosterStep(st, line))
            && (kind == StartingNew ==> next == StartingNewStep(st).state)
            && (kind == LeadIn ==> next == st.(totalTracksParsed := true))
            && (kind != TrackLine && kind != StartingNew && kind != LeadIn ==> next == st.(error := next.error))
  {
  }

  /** The fields the invariant speaks about. */
  predicate SameBookkeeping(a: ParserState, b: ParserState) {
    && a.currentTrack == b.currentTrack
    && a.totalTracksParsed == b.totalTracksParsed
    && a.trackSizes == b.trackSizes
    && a.totalSize == b.totalSize
    && a.alreadyWritten == b.alreadyWritten
  }

  lemma SameBookkeepingConsistent(a: ParserState, b: ParserState)
    requires Consistent(a) && SameBookkeeping(a, b)
    ensures Consistent(b)
  {
  }

  lemma RosterStepConsistent(st: ParserState, line: string)
    requires Consistent(st) && !st.totalTracksParsed
    ensures Consistent(RosterStep(st, line))
  {
    var number, size := RosterNumber(line), RosterSize(line);
    if number.ok && size.ok {
      SumAppend(st.trackSizes, size.value);
      assert RosterStep(st, line).trackSizes[..0] == st.trackSizes[..0];
    }
  }

  lemma StartingNewConsistent(st: ParserState)
    requires Consistent(st)
    ensures Consistent(StartingNewStep(st).state)
  {
    var c := st.currentTrack;
    if c > 0 && |st.trackSizes| > c - 1 {
      SumPrefixStep(st.trackSizes, c - 1);
    }
  }

  /** Every line keeps the invariant. */
  lemma StepKeepsConsistent(st: ParserState, ctx: LineContext, line: string)
    requires Consistent(st)
    ensures Consistent(Step(st, ctx, line).state)
  {
    var next := Step(st, ctx, line).state;
    StepBookkeeping(st, ctx, line);
    var kind := Classify(line);
    if kind == TrackLine {
      if st.totalTracksParsed {
        SameBookkeepingConsistent(st, next);
      } else {
        RosterStepConsistent(st, line);
        SameBookkeepingConsistent(RosterStep(st, line), next);
      }
    } else if kind == StartingNew {
      StartingNewConsistent(st);
    } else if kind != LeadIn {
      SameBookkeepingConsistent(st, next);
    }
  }

  lemma {:induction false} RunKeepsConsistent(st: ParserState, ctx: LineContext, lines: seq<string>)
    requires Consistent(st)
    ensures Consistent(RunLines(st, ctx, lines).state)
    decreases |lines|
  {
    if lines != [] {
      RunKeepsConsistent(st, ctx, lines[..|lines| - 1]);
      StepKeepsConsistent(RunLines(st, ctx, lines[..|lines| - 1]).state, ctx, lines[|lines| - 1]);
    }
  }

  /** While track n + 1 is written, the bytes counted as already written
      are the roster sizes of tracks 1 to n. */
  lemma AlreadyWrittenBeforeTrack(st: ParserState, n: nat)
    requires Consistent(st) && st.currentTrack == n + 1 && n <= |st.trackSizes|
    ensures st.alreadyWritten == Sum(st.trackSizes[..n])
  {
  }

  /** Only "Starting new track" moves to the next track, by one; only the
      roster lines read before it grow the roster. */
  lemma StepTrackCounter(st: ParserState, ctx: LineContext, line: string)
    ensures var next := Step(st, ctx, line).state;
            next.currentTrack == if Classify(line) == StartingNew then st.currentTrack + 1 else st.currentTrack
    ensures var next := Step(st, ctx, line).state;
            next.trackSizes != st.trackSizes ==> Classify(line) == TrackLine && !st.totalTracksParsed
  {
  }

  // ---------------------------------------------------------------------
  // The error code
  // ---------------------------------------------------------------------

  predicate SetsError(line: string) {
    ErrorSetBy(Classify(line)).Some?
  }

  lemma StepError(st: ParserState, ctx: LineContext, line: string)
    ensures Step(st, ctx, line).state.error ==
            if SetsError(line) then ErrorSetBy(Classify(line)).value else st.error
  {
    if Classify(line) == TrackLine {
      TrackLineKeepsError(st, line);
    }
  }

  lemma TrackLineKeepsError(st: ParserState, line: string)
    ensures TrackLineStep(st, line).state.error == st.error
  {
  }

  lemma RunLinesError(st: ParserState, ctx: LineContext, lines: seq<string>)
    requires lines != []
    ensures var last := lines[|lines| - 1];
            RunLines(st, ctx, lines).state.error ==
            if SetsError(last) then ErrorSetBy(Classify(last)).value
            else RunLines(st, ctx, lines[..|lines| - 1]).state.error
  {
    StepError(RunLines(st, ctx, lines[..|lines| - 1]).state, ctx, lines[|lines| - 1]);
  }

  /** With no error line the run keeps the initial error code. */
  lemma {:induction false} RunLinesNoError(st: ParserState, ctx: LineContext, lines: seq<string>)
    requires forall i :: 0 <= i < |lines| ==> !SetsError(lines[i])
    ensures RunLines(st, ctx, lines).state.error == st.error
    decreases |lines|
  {
    if lines != [] {
      RunLinesError(st, ctx, lines);
      RunLinesNoError(st, ctx, lines[..|lines| - 1]);
    }
  }

  /** The error code after a run of lines is the one assigned by the last
      line that assigns one: a later error line overrides an earlier one. */
  lemma {:induction false} RunLinesLastErrorWins(st: ParserState, ctx: LineContext, lines: seq<string>, i: nat)
    requires i < |lines| && SetsError(lines[i])
    requires forall j :: i < j < |lines| ==> !SetsError(lines[j])
    ensures RunLines(st, ctx, lines).state.error == ErrorSetBy(Classify(lines[i])).value
    decreases |lines|
  {
    RunLinesError(st, ctx, lines);
    if i < |lines| - 1 {
      RunLinesLastErrorWins(st, ctx, lines[..|lines| - 1], i);
    }
  }

  // ---------------------------------------------------------------------
  // Progress
  // ---------------------------------------------------------------------

  lemma PercentBounded(x: int, total: int)
    requires 0 <= x <= total && total > 0
    ensures 0 <= CDiv(100 * x, total) <= 100
  {
    CDivNonNegative(100 * x, total);
    DivBelow(100 * x, total, 100);
  }

  /** The percentages in a progress report are the ones computed from the
      shown counts, over a positive size. */
  lemma ProgressReportPercents(st: ParserState, p: Progress)
    ensures var shown := ShownProgress(st, p);
            forall e :: e in ProgressReport(st, p).events && e.SubPercent? ==>
              shown.size > 0 && e.subPercent == CDiv(100 * shown.made, shown.size)
    ensures var done := st.alreadyWritten + ShownProgress(st, p).made;
            forall e :: e in ProgressReport(st, p).events && e.Percent? ==>
              st.totalSize > 0 && e.percent == CDiv(100 * done, st.totalSize)
  {
  }

  /** With the roster size known, the shown amount lies within the track
      and the run's total. */
  lemma ShownProgressBounded(st: ParserState, p: Progress)
    requires Consistent(st) && RosterSizeKnown(st)
    requires 0 <= p.made <= p.size
    ensures var shown := ShownProgress(st, p);
            0 <= shown.made <= shown.size && 0 <= st.alreadyWritten + shown.made <= st.totalSize
  {
    var c := st.currentTrack;
    SumPrefixStep(st.trackSizes, c - 1);
    SumPrefixBounded(st.trackSizes, c);
    SumPrefixBounded(st.trackSizes, c - 1);
  }

  /** The percentages a progress line reports lie within 0..100 whenever
      cdrecord's own counts do (0 <= made <= size) and the roster lists
      the track being written. */
  lemma ProgressPercentBounded(st: ParserState, p: Progress)
    requires Consistent(st) && RosterSizeKnown(st)
    requires 0 <= p.made <= p.size
    ensures forall e :: e in ProgressReport(st, p).events && e.SubPercent? ==> 0 <= e.subPercent <= 100
    ensures forall e :: e in ProgressReport(st, p).events && e.Percent? ==> 0 <= e.percent <= 100
  {
    var shown := ShownProgress(st, p);
    ShownProgressBounded(st, p);
    ProgressReportPercents(st, p);
    if shown.size > 0 {
      PercentBounded(shown.made, shown.size);
    }
    if st.totalSize > 0 {
      PercentBounded(st.alreadyWritten + shown.made, st.totalSize);
    }
  }

  // ---------------------------------------------------------------------
  // The else-if chain, a run of lines, and a new track
  // ---------------------------------------------------------------------

  /** `Classify` is the else-if chain of the slot: a line takes the first
      branch whose test it passes, and the final `else` exactly when it
      passes none. */
  lemma ClassifyFirstPassing(line: string, i: nat)
    requires i < |Chain| && Passes(line, Chain[i].test)
    requires forall j :: 0 <= j < i ==> !Passes(line, Chain[j].test)
    ensures Classify(line) == Chain[i].kind
  {
    ClassifyInFirst(Chain, line, 0, i);
  }

  lemma ClassifyUnrecognised(line: string)
    ensures Classify(line) == Unrecognised <==> forall j :: 0 <= j < |Chain| ==> !Passes(line, Chain[j].test)
  {
    ChainRecognised();
    ClassifyInNone(Chain, line, 0);
  }

  /** Every branch of the chain names a kind other than the final `else`. */
  lemma ChainRecognised()
    ensures forall j :: 0 <= j < |Chain| ==> Chain[j].kind != Unrecognised
  {
  }

  lemma {:induction false} ClassifyInFirst(chain: seq<Branch>, line: string, k: nat, i: nat)
    requires k <= i < |chain| && Passes(line, chain[i].test)
    requires forall j :: k <= j < i ==> !Passes(line, chain[j].test)
    ensures ClassifyIn(chain, line, k) == chain[i].kind
    decreases i - k
  {
    if k < i {
      ClassifyInFirst(chain, line, k + 1, i);
    }
  }

  lemma {:induction false} ClassifyInNone(chain: seq<Branch>, line: string, k: nat)
    requires k <= |chain|
    requires forall j :: 0 <= j < |chain| ==> chain[j].kind != Unrecognised
    ensures ClassifyIn(chain, line, k) == Unrecognised <==>
            forall j :: k <= j < |chain| ==> !Passes(line, chain[j].test)
    decreases |chain| - k
  {
    if k < |chain| {
      ClassifyInNone(chain, line, k + 1);
    }
  }

  /** Lines are consumed one after another: a run of `a` then `b` is the
      run of `a` continued with `b` from the state it left. */
  lemma RunLinesConcat(st: ParserState, ctx: LineContext, a: seq<string>, b: seq<string>)
    ensures var first := RunLines(st, ctx, a);
            var second := RunLines(first.state, ctx, b);
            RunLines(st, ctx, a + b) == StepResult(second.state, first.events + second.events)
  {
    FeedConcat((s, line) => Step(s, ctx, line), st, a, b);
  }

  lemma {:induction false} FeedConcat(step: (ParserState, string) -> StepResult, st: ParserState, a: seq<string>, b: seq<string>)
    ensures var first := Feed(step, st, a);
            var second := Feed(step, first.state, b);
            Feed(step, st, a + b) == StepResult(second.state, first.events + second.events)
    decreases |b|
  {
    if b == [] {
      assert a + b == a;
    } else {
      var b' := b[..|b| - 1];
      assert (a + b)[..|a + b| - 1] == a + b';
      assert (a + b)[|a + b| - 1] == b[|b| - 1];
      FeedConcat(step, st, a, b');
    }
  }

  /** "Starting new track" announces the next track, with the track count
      of the roster, and says that writing starts when no track was under
      way before. */
  lemma StartingNewAnnounces(st: ParserState)
    ensures var events := StartingNewStep(st).events;
            && events[|events| - 1] == NextTrack(st.currentTrack + 1, st.totalTracks)
            && (InfoMessage(StartingWriting, Info) in events <==> st.currentTrack <= 0)
  {
  }
}
