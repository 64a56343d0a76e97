/** cdrecord's roster and progress lines, as cdrecord prints them, and the
    proof that the writer's parser reads their numbers back exactly. */
module CdrecordLines {
  import opened CInt
  import opened Decimal
  import opened QtString
  import opened Wrappers
  import opened JobEvents
  import opened CdrecordParser
  import opened ParserLemmas

  predicate Lacks(s: string, c: char) {
    forall k :: 0 <= k < |s| ==> s[k] != c
  }

  predicate NoDigits(s: string) {
    forall k :: 0 <= k < |s| ==> !IsDigit(s[k])
  }

  /** A roster line: "Track 01: audio   40 MB (04:32.00) = 20400 sectors",
      with the kind of track (free of digits) and anything after "MB". */
  function RosterLine(track: nat, kind: string, size: nat, tail: string): string
    requires track < 100
  {
    "Track " + Pad2(track) + ": " + kind + " " + NatToString(size) + " MB" + tail
  }

  /** A progress line: "Track 01:   12 of   40 MB written (fifo 100%)". */
  function ProgressLine(track: nat, made: nat, size: nat, fifo: nat): string
    requires track < 100
  {
    "Track " + Pad2(track) + ": " + NatToString(made) + " of " + NatToString(size)
    + " MB written (fifo " + NatToString(fifo) + "%)."
  }

  // ---------------------------------------------------------------------
  // Searching a line that is built from pieces
  // ---------------------------------------------------------------------

  /** The first occurrence of `p` at or after `from` is at `pos` when none
      of the characters in between is `p`'s first. */
  lemma FindFromLacking(s: string, p: string, from: nat, pos: nat)
    requires p != [] && from <= pos && OccursAt(s, p, pos)
    requires Lacks(s[from..pos], p[0])
    ensures Find(s, p, from) == pos
  {
    forall k | from <= k < pos
      ensures !OccursAt(s, p, k)
    {
      assert s[from..pos][k - from] == s[k];
      assert k + |p| <= |s| ==> s[k..k + |p|][0] == s[k];
    }
  }

  /** The same with one exception: a place `e` holding `p`'s first
      character where `p` does not occur. */
  lemma FindFromLackingBut(s: string, p: string, from: nat, e: nat, pos: nat)
    requires p != [] && from <= e < pos && OccursAt(s, p, pos)
    requires Lacks(s[from..e], p[0]) && !OccursAt(s, p, e) && Lacks(s[e + 1..pos], p[0])
    ensures Find(s, p, from) == pos
  {
    forall k | from <= k < pos && k != e
      ensures !OccursAt(s, p, k)
    {
      assert k < e ==> s[from..e][k - from] == s[k];
      assert k > e ==> s[e + 1..pos][k - e - 1] == s[k];
      assert k + |p| <= |s| ==> s[k..k + |p|][0] == s[k];
    }
  }

  lemma LacksConcat(a: string, b: string, c: char)
    requires Lacks(a, c) && Lacks(b, c)
    ensures Lacks(a + b, c)
  {
  }

  /** A digit string read as a whole converts to its value. */
  lemma ToIntOfDigits(s: string)
    requires s != [] && AllDigits(s) && ValueOf(s) <= INT_MAX
    ensures ToInt(s) == Conversion(ValueOf(s), true)
  {
    assert StripLeading(s) == s;
    assert StripTrailing(s) == s;
  }

  // ---------------------------------------------------------------------
  // Round trips
  // ---------------------------------------------------------------------

  /** The progress line with its number fields as text. */
  function ProgressText(P: string, M: string, S: string, F: string): string {
    "Track " + P + ": " + M + " of " + S + " MB written (fifo " + F + "%)."
  }

  predicate DigitFields(P: string, M: string, S: string, F: string) {
    |P| == 2 && AllDigits(P) && AllDigits(M) && AllDigits(S) && AllDigits(F)
  }

  /** In `head` `p` …, where `head` lacks `p`'s first character, `p` is
      first found right after `head`. */
  lemma FoundAfter(line: string, head: string, p: string, rest: string)
    requires p != [] && line == head + p + rest && Lacks(head, p[0])
    ensures Find(line, p, 0) == |head| && line[..|head|] == head
  {
    assert line[..|head|] == head;
    assert line[|head|..|head| + |p|] == p;
    FindFromLacking(line, p, 0, |head|);
  }

  lemma ProgressColon(P: string, M: string, S: string, F: string)
    requires DigitFields(P, M, S, F)
    ensures Find(ProgressText(P, M, S, F), ":", 0) == 8
  {
    var head := "Track " + P;
    assert ProgressText(P, M, S, F) == head + ":" + (" " + M + " of " + S + " MB written (fifo " + F + "%).");
    assert Lacks(head, ':');
    FoundAfter(ProgressText(P, M, S, F), head, ":", " " + M + " of " + S + " MB written (fifo " + F + "%).");
  }

  lemma ProgressOf(P: string, M: string, S: string, F: string)
    requires DigitFields(P, M, S, F)
    ensures var line := ProgressText(P, M, S, F);
            Find(line, "of", 0) == 11 + |M| && line[9..11 + |M|] == " " + M + " "
  {
    var line := ProgressText(P, M, S, F);
    var head := "Track " + P + ": " + M + " ";
    var rest := " " + S + " MB written (fifo " + F + "%).";
    assert line == head + "of" + rest;
    assert Lacks(head, 'o');
    FoundAfter(line, head, "of", rest);
    assert line[9..|head|] == head[9..];
  }

  lemma ProgressMB(P: string, M: string, S: string, F: string)
    requires DigitFields(P, M, S, F)
    ensures var line := ProgressText(P, M, S, F);
            Find(line, "MB", 0) == 15 + |M| + |S| && line[13 + |M|..15 + |M| + |S|] == " " + S + " "
  {
    var line := ProgressText(P, M, S, F);
    var head := "Track " + P + ": " + M + " of " + S + " ";
    var rest := " written (fifo " + F + "%).";
    assert line == head + "MB" + rest;
    assert Lacks(head, 'M');
    FoundAfter(line, head, "MB", rest);
    assert line[13 + |M|..|head|] == head[13 + |M|..];
  }

  lemma ProgressFifo(P: string, M: string, S: string, F: string)
    requires DigitFields(P, M, S, F)
    ensures var line := ProgressText(P, M, S, F);
            Find(line, "fifo", 0) == 27 + |M| + |S|
  {
    var line := ProgressText(P, M, S, F);
    var head := "Track " + P + ": " + M + " o";
    var middle := " " + S + " MB written (";
    var tail := "fifo" + (" " + F + "%).");
    assert line == (head + "f") + middle + tail;
    assert Lacks(head, 'f');
    assert Lacks(middle, 'f');
    FifoAfter(line, head, middle, tail);
  }

  /** In `head` "f" `middle` "fifo"…, where neither `head` nor `middle`
      holds an 'f' and `middle` starts with a blank, "fifo" is first found
      after `middle`. */
  lemma FifoAfter(line: string, head: string, middle: string, tail: string)
    requires line == (head + "f") + middle + tail
    requires Lacks(head, 'f') && Lacks(middle, 'f') && middle != [] && middle[0] == ' '
    requires |tail| >= 4 && tail[..4] == "fifo"
    ensures Find(line, "fifo", 0) == |head| + 1 + |middle|
  {
    var e := |head|;
    var fifoAt := e + 1 + |middle|;
    assert line[..e] == head;
    assert line[e + 1] == ' ';
    assert line[e + 1..fifoAt] == middle;
    assert line[fifoAt..fifoAt + 4] == tail[..4];
    assert !OccursAt(line, "fifo", e) by {
      assert e + 4 <= |line| ==> line[e..e + 4][1] == line[e + 1];
    }
    FindFromLackingBut(line, "fifo", 0, e, fifoAt);
  }

  lemma ProgressPercent(P: string, M: string, S: string, F: string)
    requires DigitFields(P, M, S, F)
    ensures var line := ProgressText(P, M, S, F);
            Find(line, "%", 0) == 32 + |M| + |S| + |F| && line[31 + |M| + |S|..32 + |M| + |S| + |F|] == " " + F
  {
    var line := ProgressText(P, M, S, F);
    var head := "Track " + P + ": " + M + " of " + S + " MB written (fifo " + F;
    assert line == head + "%" + ").";
    assert Lacks(head, '%');
    FoundAfter(line, head, "%", ").");
    assert line[31 + |M| + |S|..|head|] == head[31 + |M| + |S|..];
  }

  /** The progress line is cut into its three number fields. */
  lemma ProgressTextParsed(P: string, M: string, S: string, F: string)
    requires DigitFields(P, M, S, F)
    ensures ParseProgress(ProgressText(P, M, S, F)) ==
            Some(Progress(ToInt(" " + M + " ").value, ToInt(" " + S + " ").value, ToInt(" " + F).value))
  {
    var line := ProgressText(P, M, S, F);
    ProgressColon(P, M, S, F);
    ProgressOf(P, M, S, F);
    ProgressMB(P, M, S, F);
    ProgressFifo(P, M, S, F);
    ProgressPercent(P, M, S, F);
    var of, mb, fifoAt, percent := 11 + |M|, 15 + |M| + |S|, 27 + |M| + |S|, 32 + |M| + |S| + |F|;
    ParsedFrom(line, of, mb, fifoAt, percent, " " + M + " ", " " + S + " ", " " + F);
  }

  /** A line whose anchors are at the given places, with the given texts
      between them, is cut into those texts. */
  lemma ParsedFrom(line: string, of: int, mb: int, fifoAt: int, percent: int,
                   made: string, size: string, fifo: string)
    requires Find(line, ":", 0) == 8 && Find(line, "of", 0) == of && Find(line, "MB", 0) == mb
    requires Find(line, "fifo", 0) == fifoAt && Find(line, "%", 0) == percent
    requires 8 < of && of + 2 < mb && 0 <= fifoAt && fifoAt + 4 < percent
    requires line[9..of] == made && line[of + 2..mb] == size && line[fifoAt + 4..percent] == fifo
    ensures ParseProgress(line) == Some(Progress(ToInt(made).value, ToInt(size).value, ToInt(fifo).value))
  {
    ParsedAt(line, 8, of, mb, fifoAt, percent);
    FieldsBetween(line, 8, of, mb, fifoAt, percent, made, size, fifo);
  }

  /** The fields between the anchors are the given texts. */
  lemma FieldsBetween(line: string, colon: int, of: int, mb: int, fifoAt: int, percent: int,
                      made: string, size: string, fifo: string)
    requires 0 <= colon < of && of + 2 < mb && 0 <= fifoAt && fifoAt + 4 < percent <= |line|
    requires mb <= |line| && fifoAt + 4 <= |line|
    requires line[colon + 1..of] == made && line[of + 2..mb] == size && line[fifoAt + 4..percent] == fifo
    ensures ProgressFields(line, colon, of, mb, fifoAt, percent) ==
            Progress(ToInt(made).value, ToInt(size).value, ToInt(fifo).value)
  {
  }

  /** A line where all five anchors are found is cut at them. */
  lemma ParsedAt(line: string, colon: int, of: int, mb: int, fifoAt: int, percent: int)
    requires Find(line, ":", 0) == colon && Find(line, "of", 0) == of && Find(line, "MB", 0) == mb
    requires Find(line, "fifo", 0) == fifoAt && Find(line, "%", 0) == percent
    requires colon >= 0 && of >= 0 && mb >= 0 && fifoAt >= 0 && percent >= 0
    ensures ParseProgress(line) == Some(ProgressFields(line, colon, of, mb, fifoAt, percent))
  {
  }

  /** Round trip: a progress line reads back as the three numbers
      cdrecord printed into it. */
  lemma ProgressLineParsed(track: nat, made: nat, size: nat, fifo: nat)
    requires track < 100 && made <= INT_MAX && size <= INT_MAX && fifo <= INT_MAX
    ensures ParseProgress(ProgressLine(track, made, size, fifo)) == Some(Progress(made, size, fifo))
  {
    var P, M, S, F := Pad2(track), NatToString(made), NatToString(size), NatToString(fifo);
    ProgressTextParsed(P, M, S, F);
    ToIntOfPrinted(" ", made, " ");
    ToIntOfPrinted(" ", size, " ");
    ToIntOfPrinted(" ", fifo, "");
    assert " " + IntToString(fifo) + "" == " " + F;
  }

  function RosterText(P: string, K: string, S: string, T: string): string {
    "Track " + P + ": " + K + " " + S + " MB" + T
  }

  /** The size field of a roster line starts at the first digit after the
      kind of track and ends before "MB". */
  lemma RosterTextSize(P: string, K: string, S: string, T: string)
    requires |P| == 2 && NoDigits(K) && S != [] && AllDigits(S)
    ensures var line := RosterText(P, K, S, T);
            var start := 11 + |K|;
            FindClass(line, true, 10) == start && Find(line, "MB", start) == start + |S| + 1
            && Mid(line, start, |S| + 1) == S + " "
  {
    var line := RosterText(P, K, S, T);
    var start := 11 + |K|;
    var head := "Track " + P + ": " + K + " ";
    assert line == head + S + " " + "MB" + T;
    assert line[10..start] == K + " ";
    assert forall k :: 10 <= k < start ==> line[k] == (K + " ")[k - 10];
    assert line[start] == S[0];
    assert line[start..start + |S| + 1] == S + " ";
    assert Lacks(S + " ", 'M');
    assert line[start + |S| + 1..start + |S| + 3] == "MB";
    FindFromLacking(line, "MB", start, start + |S| + 1);
  }

  /** The track number of a roster line is its two-digit field. */
  lemma RosterTextNumber(P: string, K: string, S: string, T: string)
    requires |P| == 2 && AllDigits(P) && ValueOf(P) < 100
    ensures RosterNumber(RosterText(P, K, S, T)) == Conversion(ValueOf(P), true)
  {
    var line := RosterText(P, K, S, T);
    assert line == "Track " + P + (": " + K + " " + S + " MB" + T);
    assert line[6..8] == P;
    ToIntOfDigits(P);
  }

  /** The size of a roster line is its size field, read with the blank
      before "MB". */
  lemma RosterTextSizeField(P: string, K: string, S: string, T: string)
    requires |P| == 2 && NoDigits(K) && S != [] && AllDigits(S)
    ensures RosterSize(RosterText(P, K, S, T)) == ToInt(S + " ")
  {
    RosterTextSize(P, K, S, T);
  }

  /** Round trip: a roster line read before writing starts yields the
      track number and the size cdrecord printed into it. */
  lemma RosterLineParsed(track: nat, kind: string, size: nat, tail: string)
    requires track < 100 && NoDigits(kind) && size <= INT_MAX
    ensures RosterNumber(RosterLine(track, kind, size, tail)) == Conversion(track, true)
    ensures RosterSize(RosterLine(track, kind, size, tail)) == Conversion(size, true)
  {
    var P, S := Pad2(track), NatToString(size);
    assert RosterLine(track, kind, size, tail) == RosterText(P, kind, S, tail);
    ValueOfPad2(track);
    RosterTextNumber(P, kind, S, tail);
    RosterTextSizeField(P, kind, S, tail);
    PrintedSize(size);
  }

  lemma PrintedSize(size: nat)
    requires size <= INT_MAX
    ensures ToInt(NatToString(size) + " ") == Conversion(size, true)
  {
    ToIntOfPrinted("", size, " ");
    assert "" + IntToString(size) + " " == NatToString(size) + " ";
  }

  /** A roster line read before writing starts records its track and
      grows the roster by its size. */
  lemma RosterLineRecorded(st: ParserState, ctx: LineContext, track: nat, kind: string, size: nat, tail: string)
    requires !st.totalTracksParsed
    requires track < 100 && NoDigits(kind) && size <= INT_MAX
    ensures var next := Step(st, ctx, RosterLine(track, kind, size, tail)).state;
            next == st.(totalTracks := track, trackSizes := st.trackSizes + [size], totalSize := st.totalSize + size)
  {
    var line := RosterLine(track, kind, size, tail);
    assert StartsWith(line, "Track ");
    StepOnTrackLine(st, ctx, line);
    assert TrackLineStep(st, line).state == RosterStep(st, line);
    RosterLineParsed(track, kind, size, tail);
  }

  /** Once the roster is closed, a progress line is reported: the fifo
      value is kept and the track's progress is reported, rescaled to its
      roster size (the whole step, debugging copy included, is
      `StepOnTrackLine`). */
  lemma ProgressLineReported(st: ParserState, track: nat, made: nat, size: nat, fifo: nat)
    requires st.totalTracksParsed
    requires track < 100 && made <= INT_MAX && size <= INT_MAX && fifo <= INT_MAX
    ensures TrackLineStep(st, ProgressLine(track, made, size, fifo)) == ProgressReport(st, Progress(made, size, fifo))
    ensures ProgressReport(st, Progress(made, size, fifo)).state == st.(lastFifo := Some(fifo))
  {
    ProgressLineParsed(track, made, size, fifo);
    ProgressLineMentionsFifo(track, made, size, fifo);
  }

  lemma ProgressLineMentionsFifo(track: nat, made: nat, size: nat, fifo: nat)
    requires track < 100
    ensures ContainsNoCase(ProgressLine(track, made, size, fifo), "fifo")
  {
    var line := ProgressLine(track, made, size, fifo);
    ProgressFifo(Pad2(track), NatToString(made), NatToString(size), NatToString(fifo));
    assert line == ProgressText(Pad2(track), NatToString(made), NatToString(size), NatToString(fifo));
    FoundNoCase(line, "fifo", Find(line, "fifo", 0));
  }

  /** A lower-case text that occurs in a line also occurs in it ignoring
      case. */
  lemma FoundNoCase(line: string, p: string, i: int)
    requires OccursAt(line, p, i) && LowerString(p) == p
    ensures ContainsNoCase(line, p)
  {
    var lower := LowerString(line);
    assert lower[i..i + |p|] == LowerString(line[i..i + |p|]);
    assert OccursAt(lower, LowerString(p), i);
  }

  // ---------------------------------------------------------------------
  // The speed, the countdown and the rejected option
  // ---------------------------------------------------------------------

  /** `Find` is at `at` when the phrase occurs there and nowhere before. */
  lemma FoundFirstAt(line: string, p: string, at: nat)
    requires p != [] && OccursAt(line, p, at)
    requires forall k :: 0 <= k < at ==> !OccursAt(line, p, k)
    ensures Find(line, p, 0) == at
  {
    var r := Find(line, p, 0);
    assert r != -1;
    assert !(at < r);
  }

  /** A phrase whose first character does not recur in it is first found
      right after a `head` that does not contain it. */
  lemma FirstAfterClean(line: string, head: string, p: string, rest: string)
    requires p != [] && line == head + p + rest && !Contains(head, p)
    requires forall j :: 0 < j < |p| ==> p[j] != p[0]
    ensures Find(line, p, 0) == |head|
  {
    assert line[|head|..|head| + |p|] == p;
    forall k | 0 <= k < |head|
      ensures !OccursAt(line, p, k)
    {
      if k + |p| <= |head| {
        assert head[k..k + |p|] == line[k..k + |p|];
        assert !OccursAt(head, p, k);
      } else {
        assert k + |p| <= |line| ==> line[k..k + |p|][|head| - k] == line[|head|] == p[0];
        assert p[|head| - k] != p[0];
      }
    }
    FoundFirstAt(line, p, |head|);
  }

  /** A phrase none of whose characters occurs in `mid` is first found
      right after `head` + `mid` when `head` does not contain it. */
  lemma FirstAfterForeign(line: string, head: string, mid: string, p: string, rest: string)
    requires p != [] && mid != [] && line == head + mid + p + rest && !Contains(head, p)
    requires forall j, m :: 0 <= j < |p| && 0 <= m < |mid| ==> p[j] != mid[m]
    ensures Find(line, p, 0) == |head| + |mid|
  {
    var at := |head| + |mid|;
    assert line[at..at + |p|] == p;
    forall k | 0 <= k < at
      ensures !OccursAt(line, p, k)
    {
      if k + |p| <= |head| {
        assert head[k..k + |p|] == line[k..k + |p|];
        assert !OccursAt(head, p, k);
      } else {
        var x := if k < |head| then |head| else k;
        assert k + |p| <= |line| ==> line[k..k + |p|][x - k] == line[x] == mid[x - |head|];
        assert p[x - k] != mid[x - |head|];
      }
    }
    FoundFirstAt(line, p, at);
  }

  /** Digits from `from` on, then the end or a non-digit: the scan for a
      non-digit stops right after them. */
  lemma ScanPastDigits(line: string, from: nat, D: string)
    requires D != [] && AllDigits(D) && from + |D| <= |line| && line[from..from + |D|] == D
    requires from + |D| == |line| || !IsDigit(line[from + |D|])
    ensures Mid(line, from, FindClass(line, false, from) - from) == D
  {
    forall k | from <= k < from + |D|
      ensures IsDigit(line[k])
    {
      assert line[k] == D[k - from];
    }
    var end := FindClass(line, false, from);
    if from + |D| == |line| {
      assert end == -1;
    } else {
      assert end == from + |D|;
    }
  }

  /** Digits ending at `last`, after the start or a non-digit: the
      backward scan for a non-digit stops right before them. */
  lemma ScanBackPastDigits(line: string, first: nat, D: string)
    requires D != [] && AllDigits(D) && first + |D| <= |line| && line[first..first + |D|] == D
    requires first == 0 || !IsDigit(line[first - 1])
    ensures FindClassRev(line, false, first + |D| - 1) == first - 1
  {
    forall k | first <= k < first + |D|
      ensures IsDigit(line[k])
    {
      assert line[k] == D[k - first];
    }
  }

  /** Round trip: the speed cdrecord prints after "at speed" is the speed
      the writer reads, whether the line ends there or goes on with a
      non-digit. */
  lemma SpeedLineRead(head: string, speed: nat, tail: string)
    requires !Contains(head, "at speed") && speed <= INT_MAX
    requires tail == [] || !IsDigit(tail[0])
    ensures SpeedOf(head + "at speed " + NatToString(speed) + tail) == speed
  {
    ValueOfNatToString(speed);
    SpeedDigitsRead(head, NatToString(speed), tail);
  }

  /** The same for any digit string that fits in an `int`. */
  lemma SpeedDigitsRead(head: string, D: string, tail: string)
    requires !Contains(head, "at speed") && D != [] && AllDigits(D) && ValueOf(D) <= INT_MAX
    requires tail == [] || !IsDigit(tail[0])
    ensures SpeedOf(head + "at speed " + D + tail) == ValueOf(D)
  {
    var line := head + "at speed " + D + tail;
    var from := |head| + 9;
    SpeedPieces(head, D, tail);
    ScanPastDigits(line, from, D);
    ToIntOfDigits(D);
    SpeedOfParts(line, from, FindClass(line, false, from), D, ValueOf(D));
  }

  /** Where "at speed" and the digits sit in a speed line. */
  lemma SpeedPieces(head: string, D: string, tail: string)
    requires !Contains(head, "at speed") && D != []
    requires tail == [] || !IsDigit(tail[0])
    ensures var line := head + "at speed " + D + tail;
            var from := |head| + 9;
            && Find(line, "at speed", 0) + 9 == from
            && from + |D| <= |line| && line[from..from + |D|] == D
            && (from + |D| == |line| || !IsDigit(line[from + |D|]))
  {
    var line := head + "at speed " + D + tail;
    var from := |head| + 9;
    assert line == head + "at speed" + (" " + D + tail);
    FirstAfterClean(line, head, "at speed", " " + D + tail);
    assert line[from..from + |D|] == D;
    assert tail != [] ==> line[from + |D|] == tail[0];
  }

  /** The digits and the space before "seconds." hold none of its
      characters. */
  lemma CountdownFound(head: string, D: string, tail: string)
    requires D != [] && AllDigits(D) && !Contains(head, "seconds.")
    ensures Find(head + D + " seconds." + tail, "seconds.", 0) == |head| + |D| + 1
  {
    var mid := D + " ";
    assert head + D + " seconds." + tail == head + mid + "seconds." + tail;
    forall j, m | 0 <= j < |"seconds."| && 0 <= m < |mid|
      ensures "seconds."[j] != mid[m]
    {
      assert m < |D| ==> mid[m] == D[m];
    }
    FirstAfterForeign(head + mid + "seconds." + tail, head, mid, "seconds.", tail);
  }

  /** The count is read from the digits that end two characters before
      "seconds." when a non-digit or the start of the line precedes them. */
  lemma CountdownAt(line: string, first: nat, D: string)
    requires D != [] && AllDigits(D) && ValueOf(D) <= INT_MAX
    requires first + |D| <= |line| && line[first..first + |D|] == D
    requires first == 0 || !IsDigit(line[first - 1])
    requires Find(line, "seconds.", 0) == first + |D| + 1
    ensures CountdownSeconds(line) == ValueOf(D)
  {
    var last := first + |D| - 1;
    ScanBackPastDigits(line, first, D);
    assert Mid(line, first, last - first + 1) == D;
    ToIntOfDigits(D);
    CountdownOfParts(line, last, first, D, ValueOf(D));
  }

  /** `CountdownSeconds` taken apart into the positions it computes. */
  lemma CountdownOfParts(line: string, last: int, first: int, D: string, v: int)
    requires Find(line, "seconds.", 0) - 2 == last
    requires FindClassRev(line, false, last) + 1 == first
    requires Mid(line, first, last - first + 1) == D
    requires ToInt(D) == Conversion(v, true)
    ensures CountdownSeconds(line) == v
  {
  }

  /** `SpeedOf` taken apart into the positions it computes. */
  lemma SpeedOfParts(line: string, from: int, end: int, D: string, v: int)
    requires Find(line, "at speed", 0) + 9 == from
    requires FindClass(line, false, from) == end
    requires Mid(line, from, end - from) == D
    requires ToInt(D) == Conversion(v, true)
    ensures SpeedOf(line) == v
  {
  }

  /** Round trip: the count of the countdown line, "… 5 seconds.", is read
      back whether the line starts with it or it follows a non-digit. */
  lemma CountdownRead(head: string, n: nat, tail: string)
    requires !Contains(head, "seconds.") && n <= INT_MAX
    requires head == [] || !IsDigit(head[|head| - 1])
    ensures CountdownSeconds(head + NatToString(n) + " seconds." + tail) == n
  {
    ValueOfNatToString(n);
    CountdownDigitsRead(head, NatToString(n), tail);
  }

  /** The same for any digit string that fits in an `int`. */
  lemma CountdownDigitsRead(head: string, D: string, tail: string)
    requires !Contains(head, "seconds.") && D != [] && AllDigits(D) && ValueOf(D) <= INT_MAX
    requires head == [] || !IsDigit(head[|head| - 1])
    ensures CountdownSeconds(head + D + " seconds." + tail) == ValueOf(D)
  {
    CountdownPieces(head, D, tail);
    CountdownAt(head + D + " seconds." + tail, |head|, D);
  }

  /** Where the digits and "seconds." sit in a countdown line. */
  lemma CountdownPieces(head: string, D: string, tail: string)
    requires !Contains(head, "seconds.") && D != [] && AllDigits(D)
    requires head == [] || !IsDigit(head[|head| - 1])
    ensures var line := head + D + " seconds." + tail;
            && |head| + |D| <= |line| && line[|head|..|head| + |D|] == D
            && (|head| == 0 || !IsDigit(line[|head| - 1]))
            && Find(line, "seconds.", 0) == |head| + |D| + 1
  {
    var line := head + D + " seconds." + tail;
    CountdownFound(head, D, tail);
    assert line[|head|..|head| + |D|] == D;
    assert head != [] ==> line[|head| - 1] == head[|head| - 1];
  }

  /** The option cdrecord rejects is read back from "Bad Option" followed
      by three characters of punctuation, the option and one closing
      character. */
  lemma BadOptionRead(head: string, sep: string, opt: string, last: char)
    requires !Contains(head, "Bad Option") && |sep| == 3
    ensures BadOptionText(head + "Bad Option" + sep + opt + [last]) == opt
  {
    var line := head + "Bad Option" + sep + opt + [last];
    assert line == head + "Bad Option" + (sep + opt + [last]);
    FirstAfterClean(line, head, "Bad Option", sep + opt + [last]);
    var pos := |head| + 13;
    assert line[pos..pos + |opt|] == opt;
  }
}
