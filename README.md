# K3b's cdrecord writer, modelled in Dafny

This project models `K3bCdrecordWriter`, the K3b job that burns a disc by
running the external program cdrecord. The model follows the job through
one run:

- the options the job is given (DAO or TAO, RAW, a cue file, clone mode,
  extra arguments);
- the command line `prepareProcess` builds from them, and the warnings it
  emits on the way;
- `start`, which resets the run's parsing state and launches the process;
- `cancel`;
- `slotStdLine`, the else-if chain that reads cdrecord's output line by
  line: the track roster, the progress display, the fifo fill and the
  error phrases;
- `slotProcessExited`, which turns the exit status and the last
  recognised error into messages and a `finished` signal.

It also models the time and byte helpers of `k3bglobals.cpp` that the
writer's relatives use: `framesToString`, `sizeToTime`, both
`swapByteOrder` overloads and the packed stereo `Sample`.

Modules:

- `CInt`: C's truncating `/` and `%`, and 32-bit `int` conversion.
- `Decimal`: digit strings and `%1`/`%.2i` formatting.
- `QtString`: the Qt 3 `QString` operations the parser relies on. These are
  `find`, `findRev` with a digit class, `mid`, `startsWith`, `contains`
  (case-sensitive and not) and `toInt`. `toInt` strips white space, takes
  an optional sign and digits, and fails outside the `int` range.
- `JobEvents`: the signals a job emits, as a datatype of events.
- `CdrecordArgs`: the command line and the warnings of `prepareProcess`,
  as functions.
- `CdrecordParser`: one line of output as a pure step on the parsing
  state. `ParserLemmas` holds its invariants.
- `CdrecordLines`: concrete roster and progress lines, and what the parser
  reads from them.
- `CdrecordExit`: the outcome of the process exit.
- `CdrecordWriter`: the class `Writer`, whose fields are the source's
  members. Its methods update them in place and are proved against the
  functions above.
- `WriterRuns`: properties of a whole run.
- `Globals`: `k3bglobals.cpp`.
- `Findings`: the two defects below, each as written and corrected.

Signals are not callbacks here. Each method returns the sequence of events
it emits, in order.

Where the code and its design notes disagree, the model follows the code,
except for the two defects under "## Findings": there the main model
follows the corrected behaviour, and each defect keeps an as-written
member beside it. The other disagreements:

- When several lines of one run set an error code, the code keeps the last
  one, because every matching branch assigns `m_cdrecordError`.
  `ParserLemmas.RunLinesLastErrorWins` states this.
- The debugging text of the command line is labelled `" comand:"` with the
  source's spelling.

## Model

| member | source | states |
|---|---|---|
| CdrecordWriter.Writer.constructor | src/projects/k3bcdrecordwriter.cpp:60-73 | a new writer is in TAO mode, not clone, ejects, has no arguments, no program and no process, and is not active; the class invariant holds |
| CdrecordWriter.Writer.SetDao | src/projects/k3bcdrecordwriter.cpp:98-101 | only the mode changes: DAO for true, TAO for false; the invariant is kept |
| CdrecordWriter.Writer.SetCueFile | src/projects/k3bcdrecordwriter.cpp:103-107 | sets the cue flag and the cue file name together, and nothing else |
| CdrecordWriter.Writer.SetClone | src/projects/k3bcdrecordwriter.cpp:109-112 | only the clone flag changes |
| CdrecordWriter.Writer.SetWritingMode | src/projects/k3bcdrecordwriter.cpp:115-123 | TAO, DAO and RAW are taken; any other mode leaves the options as they were |
| CdrecordWriter.Writer.AddArgument | src/projects/k3bcdrecordwriter.cpp:230-234 | the argument is appended at the end of the argument list |
| CdrecordWriter.Writer.ClearArguments | src/projects/k3bcdrecordwriter.cpp:237-240 | the argument list becomes empty |
| CdrecordWriter.Writer.PrepareProcess | src/projects/k3bcdrecordwriter.cpp:126-227 | a new connected process is made; without a program it has no arguments, emits nothing and keeps speed and burnfree; with one, its arguments are `CommandLine`, the warnings are `PrepareWarnings`, and speed and burnfree are the ones used |
| CdrecordWriter.Writer.Start | src/projects/k3bcdrecordwriter.cpp:243-313 | emits `StartEvents`; the run is active and the process running exactly when the program is found and launches; the parsing state is reset only when the program is found |
| CdrecordWriter.Writer.Launch | src/projects/k3bcdrecordwriter.cpp:272-312 | resets the parsing state to a consistent start state; on a failed launch the run is no longer active; emits `RunEvents` |
| CdrecordWriter.Writer.CommandText | src/projects/k3bcdrecordwriter.cpp:263-270 | the loop builds the text of every argument followed by a space (`Joined`) |
| CdrecordWriter.Writer.Active | src/projects/k3bcdrecordwriter.cpp:83-86 | the writer is active whenever its process runs |
| CdrecordWriter.Writer.Cancel | src/projects/k3bcdrecordwriter.cpp:316-329 | only an active run with a running process is killed, disconnected and handed to the base class's cancel; otherwise nothing changes and nothing is emitted |
| CdrecordWriter.Writer.Deliver | src/projects/k3bcdrecordwriter.cpp:321 | a line or the exit reaches `slotStdLine` or `slotProcessExited` only while the process is connected; a disconnected process changes nothing and emits nothing |
| WriterRuns.CancelSilencesProcess | src/projects/k3bcdrecordwriter.cpp:316-329 | after a cancel that stops a running process, no later line or exit changes the parsing state or emits anything, so no `finished` follows the cancellation |
| CdrecordWriter.Writer.StdLine | src/projects/k3bcdrecordwriter.cpp:341-595 | called only while the process is connected; the parsing state and the signals are those of `Step`, and the track bookkeeping stays consistent |
| CdrecordWriter.Writer.ProcessExited | src/projects/k3bcdrecordwriter.cpp:598-694 | called only while the process is connected; the outcome is `ExitReport`: only the error code changes, and the run is over |
| CdrecordWriter.BuildCommandLine | src/projects/k3bcdrecordwriter.cpp:144-226 | the method builds exactly `CommandLine` and `PrepareWarnings`, with the used speed and burnfree choice |
| CdrecordWriter.DeviceArguments | src/projects/k3bcdrecordwriter.cpp:150-164 | the grace time, the device and the speed when it is not 0, and the speed used |
| CdrecordWriter.DriverArguments | src/projects/k3bcdrecordwriter.cpp:166-193 | the mode, dummy and burnfree options, with the DAO and burnproof warnings exactly when the device lacks the feature |
| CdrecordWriter.OutputArguments | src/projects/k3bcdrecordwriter.cpp:195-217 | the cue file, clone, eject, fifo size and overburn options, with the overburn warning exactly when overburning is allowed but not supported |
| CdrecordWriter.AppendAll | src/projects/k3bcdrecordwriter.cpp:219-226 | the loop appends the list in order |
| CdrecordWriter.CommandLineInPieces | src/projects/k3bcdrecordwriter.cpp:144-217 | the three groups of arguments the method adds, in order, make up the options of the command line |
| CdrecordArgs.UsedSpeed | src/projects/k3bcdrecordwriter.cpp:156-164 | the job's speed when set; otherwise the largest multiple of 175 KB/s within the device's maximum |
| CdrecordArgs.CommandLineFrame | src/projects/k3bcdrecordwriter.cpp:144-226 | `CommandLine`, the arguments of the process: the command line starts with the program and "-v" and ends with the user's parameters followed by the added arguments |
| CdrecordArgs.ModeFlags | src/projects/k3bcdrecordwriter.cpp:166-174 | "-dao" is given iff the mode is DAO and the device supports it; "-raw" iff the mode is RAW |
| CdrecordArgs.DummyFlag | src/projects/k3bcdrecordwriter.cpp:176-177 | "-dummy" is given iff the job simulates |
| CdrecordArgs.EjectFlag | src/projects/k3bcdrecordwriter.cpp:203-205 | "-eject" is given iff `EjectAfterwards` holds, that is iff neither the configuration nor the writer forbids ejecting |
| CdrecordArgs.OverburnAndCloneFlags | src/projects/k3bcdrecordwriter.cpp:200-217 | "-overburn" is given iff overburning is allowed and supported; "-clone" iff clone mode is set |
| CdrecordArgs.FlagInOptions | src/projects/k3bcdrecordwriter.cpp:146-217 | `Options`, the arguments between "-v" and the user's parameters: a flag is among the options iff it is the mode flag or one of the dummy, clone, eject and overburn flags under its condition |
| CdrecordArgs.SpeedOption | src/projects/k3bcdrecordwriter.cpp:156-164 | a nonzero used speed appears as "speed=N"; a zero one leaves no "speed=" option at all |
| CdrecordArgs.BurnfreeOptionGiven | src/projects/k3bcdrecordwriter.cpp:179-193 | `BurnfreeOption` and `UsingBurnfree`: the driver option under the program's name for it is given iff burnfree is used, and the other name never |
| CdrecordArgs.PrepareWarningsListed | src/projects/k3bcdrecordwriter.cpp:166-217 | `PrepareWarnings`: the DAO, burnproof and overburn warnings are each given exactly when the device or program lacks what the job asks for, and all are warnings |
| CdrecordParser.RosterSize | src/projects/k3bcdrecordwriter.cpp:355-357 | a size read from a roster line is never negative |
| CdrecordParser.ParseProgress | src/projects/k3bcdrecordwriter.cpp:378-438 | a progress line yields numbers iff it contains ":", "of", "MB", "fifo" and "%" |
| CdrecordParser.StartState | src/projects/k3bcdrecordwriter.cpp:272-277 | the roster, sizes, counters and error code start empty and the roster's track count is kept, as written; the fifo value also starts empty, which is the correction of the second finding, not the code |
| CdrecordParser.Rescale | src/projects/k3bcdrecordwriter.cpp:454-459 | the amount written, rescaled to the roster's size, stays within that size |
| CdrecordParser.Step | src/projects/k3bcdrecordwriter.cpp:341-343 | every line is first emitted as debugging output |
| ParserLemmas.ClassifyFirstPassing | src/projects/k3bcdrecordwriter.cpp:345-594 | `Classify` is the else-if chain: a line takes the first branch whose test it passes |
| ParserLemmas.ClassifyUnrecognised | src/projects/k3bcdrecordwriter.cpp:345-594 | a line falls through the whole chain iff it passes none of its tests |
| ParserLemmas.RosterStepConsistent | src/projects/k3bcdrecordwriter.cpp:347-362 | `RosterStep`, a roster line before the roster closes, keeps the bookkeeping invariant |
| ParserLemmas.StartingNewConsistent | src/projects/k3bcdrecordwriter.cpp:487-501 | `StartingNewStep` adds the finished track's size to the amount written and keeps the bookkeeping invariant |
| ParserLemmas.StartingNewAnnounces | src/projects/k3bcdrecordwriter.cpp:487-501 | "Starting new" announces the next track with the roster's track count, and says that writing starts iff no track was under way |
| ParserLemmas.RunLinesConcat | src/projects/k3bcdrecordwriter.cpp:341-595 | `RunLines`: the lines of a run are consumed one after another, so a run of two stretches of output is the second continued from the state the first left |
| ParserLemmas.StartStateConsistent | src/projects/k3bcdrecordwriter.cpp:272-277 | the reset state satisfies the bookkeeping invariant: the total size is the sum of the roster and the amount written is the sum of the finished tracks |
| ParserLemmas.StepBookkeeping | src/projects/k3bcdrecordwriter.cpp:345-517 | roster lines extend the roster only before the roster is closed; progress lines change only the fifo value; "Starting new" and "Writing lead-in" close the roster; every other line changes at most the error code |
| ParserLemmas.StepKeepsConsistent | src/projects/k3bcdrecordwriter.cpp:345-501 | every line keeps the bookkeeping invariant |
| ParserLemmas.RunKeepsConsistent | src/projects/k3bcdrecordwriter.cpp:341-595 | so does any sequence of lines |
| ParserLemmas.AlreadyWrittenBeforeTrack | src/projects/k3bcdrecordwriter.cpp:489-498 | while track n+1 is written, the amount already written is the sum of the first n roster sizes |
| ParserLemmas.StepTrackCounter | src/projects/k3bcdrecordwriter.cpp:487-501 | the track number grows by one exactly on "Starting new", and only roster lines change the roster |
| ParserLemmas.StepError | src/projects/k3bcdrecordwriter.cpp:536-580 | a line sets the error code of its phrase iff it takes an error branch; otherwise the code is kept |
| ParserLemmas.RunLinesError | src/projects/k3bcdrecordwriter.cpp:536-580 | after a run of lines the error code is that of the last line if it sets one, else the earlier lines' code |
| ParserLemmas.RunLinesNoError | src/projects/k3bcdrecordwriter.cpp:536-580 | lines without error phrases leave the error code alone |
| ParserLemmas.RunLinesLastErrorWins | src/projects/k3bcdrecordwriter.cpp:536-580 | the error code after a run is the one set by the last line that sets one |
| ParserLemmas.ProgressReportPercents | src/projects/k3bcdrecordwriter.cpp:464-472 | the percentages are emitted only for a positive size, and are 100 times the written amount over the size, truncated |
| ParserLemmas.ShownProgressBounded | src/projects/k3bcdrecordwriter.cpp:454-472 | `ShownProgress`: with a known roster size, the rescaled amount stays within the track and the amount written within the whole run |
| ParserLemmas.ProgressPercentBounded | src/projects/k3bcdrecordwriter.cpp:464-472 | both percentages then lie between 0 and 100 |
| CdrecordLines.ProgressTextParsed | src/projects/k3bcdrecordwriter.cpp:378-438 | from a progress line of any digit fields, the parser reads back the written, size and fifo fields |
| CdrecordLines.ProgressLineParsed | src/projects/k3bcdrecordwriter.cpp:378-438 | a printed progress line reads back as the numbers it was printed from |
| CdrecordLines.ProgressLineMentionsFifo | src/projects/k3bcdrecordwriter.cpp:372 | a progress line passes the case-insensitive "fifo" test |
| CdrecordLines.ProgressLineReported | src/projects/k3bcdrecordwriter.cpp:372-475 | `TrackLineStep` and `ProgressReport`: once the roster is closed, a progress line is reported with its numbers and changes only the fifo value |
| CdrecordLines.RosterLineParsed | src/projects/k3bcdrecordwriter.cpp:351-357 | a printed roster line reads back as its track number and its size |
| CdrecordLines.RosterLineRecorded | src/projects/k3bcdrecordwriter.cpp:347-362 | before the roster closes, a roster line sets the track count and appends its size to the roster and the total |
| CdrecordLines.SpeedLineRead | src/projects/k3bcdrecordwriter.cpp:477-481 | `SpeedOf`: the speed printed after "at speed " is read back, whether the line ends after it or goes on with a non-digit |
| CdrecordLines.CountdownRead | src/projects/k3bcdrecordwriter.cpp:505-508 | `CountdownSeconds`: the count printed before " seconds." is read back when the line starts with it or a non-digit precedes it |
| CdrecordLines.BadOptionRead | src/projects/k3bcdrecordwriter.cpp:549-553 | `BadOptionText`: the option after "Bad Option" and three separator characters is read back without the line's last character |
| CdrecordExit.ReportedError | src/projects/k3bcdrecordwriter.cpp:620-621 | a failure is a buffer underrun iff one was seen, or nothing was seen and the fifo fell to 3% or less; no other code is changed |
| CdrecordExit.ErrorExplanation | src/projects/k3bcdrecordwriter.cpp:623-683 | every explanation is an error message, and only a bad option (already reported) has none |
| CdrecordExit.ExitReport | src/projects/k3bcdrecordwriter.cpp:598-694 | the last signal is `finished`, successful iff the exit was normal with code 0, and no earlier one finishes; the error code is re-read only for a normal failing exit |
| CdrecordExit.ExitFinishesOnce | src/projects/k3bcdrecordwriter.cpp:598-694 | the exit emits `finished` exactly once |
| CdrecordExit.EmptyFifoMeansUnderrun | src/projects/k3bcdrecordwriter.cpp:617-663 | a failure with no known cause and a fifo at 3% or less is reported as a buffer underrun, first of all |
| CdrecordExit.AbnormalExitIgnoresError | src/projects/k3bcdrecordwriter.cpp:688-693 | an abnormal exit says the same whatever error or fifo value was seen |
| WriterRuns.ProgressUnfinished | src/projects/k3bcdrecordwriter.cpp:372-475 | `ProgressStep` emits no `finished` |
| WriterRuns.TrackLineUnfinished | src/projects/k3bcdrecordwriter.cpp:345-476 | nor does any line starting with "Track " (`TrackLineStep`) |
| WriterRuns.StepEmitsNoFinished | src/projects/k3bcdrecordwriter.cpp:341-595 | no output line finishes the job |
| WriterRuns.RunLinesEmitNoFinished | src/projects/k3bcdrecordwriter.cpp:341-595 | no sequence of output lines does |
| WriterRuns.StartFinishesUnlessLaunched | src/projects/k3bcdrecordwriter.cpp:243-313 | `start` first emits `started`, and finishes the job exactly when the program is missing or does not launch |
| WriterRuns.RunEventsFinish | src/projects/k3bcdrecordwriter.cpp:259-312 | after the command line is announced, the job finishes exactly when the launch fails |
| WriterRuns.RunFinishesOnce | src/projects/k3bcdrecordwriter.cpp:243-694 | a launched run with any output ending in an exit finishes the job exactly once |
| WriterRuns.JoinedAppend | src/projects/k3bcdrecordwriter.cpp:263-270 | adding an argument adds it and a space at the end of the debugging text |
| Globals.Sample.constructor | src/tools/k3bglobals.cpp:27-31 | the four bytes are stored as given |
| Globals.Sample.Left | src/tools/k3bglobals.cpp:33-34 | the left channel's high byte is the stored most significant byte, and its low byte the least significant one |
| Globals.Sample.Right | src/tools/k3bglobals.cpp:35-36 | likewise for the right channel |
| Globals.Sample.SetLeft | src/tools/k3bglobals.cpp:37-39 | after storing a left value it reads back unchanged, and the right channel is untouched |
| Globals.Sample.SetRight | src/tools/k3bglobals.cpp:40-42 | after storing a right value it reads back unchanged, and the left channel is untouched |
| Globals.MsfOf | src/tools/k3bglobals.cpp:48-50 | for a non-negative count the fields are minutes, seconds below 60 and frames below 75, and add up to the count |
| Globals.FramesToStringRoundTrip | src/tools/k3bglobals.cpp:46-62 | `FramesToString`: the "mm:ss:ff" string of a non-negative frame count reads back as that count |
| Globals.FramesToStringSeconds | src/tools/k3bglobals.cpp:58-59 | the "mm:ss" string reads back as the whole seconds of the count |
| Globals.SizeToTime | src/tools/k3bglobals.cpp:64-67 | for every size whose frame count fits an `int`, the play time of its whole 2352-byte frames |
| Globals.SwapByteOrder16 | src/tools/k3bglobals.cpp:70-73 | the two bytes are exchanged, for negative values too |
| Globals.SwapByteOrder32 | src/tools/k3bglobals.cpp:76-79 | the four bytes are in reverse order, for negative values too |
| Globals.SwapByteOrder16Involution | src/tools/k3bglobals.cpp:70-73 | swapping twice gives back the value |
| Globals.SwapByteOrder32Involution | src/tools/k3bglobals.cpp:76-79 | swapping twice gives back the value |
| Findings.LeadInClosesRoster | src/projects/k3bcdrecordwriter.cpp:514-517 | "Writing lead-in" closes the roster of a fresh run without starting a track |
| Findings.RosterGuardAdmitsTrackZero | src/projects/k3bcdrecordwriter.cpp:454-458 | as written, a progress line after the lead-in and before the first track passes the guard and indexes the roster at -1 |
| Findings.RosterGuardCorrected | src/projects/k3bcdrecordwriter.cpp:454-455 | the corrected guard is the written one with a track started |
| Findings.StartStateAsWritten | src/projects/k3bcdrecordwriter.cpp:272-277 | as written, `start` keeps the previous run's fifo value and resets everything else |
| Findings.StaleFifoDecidesError | src/projects/k3bcdrecordwriter.cpp:620-621 | as written, two identical failing runs are reported differently depending only on the previous run's fifo value |
| Findings.FreshFifoIgnoresPreviousRun | src/projects/k3bcdrecordwriter.cpp:620-621 | with the fifo value reset, the outcome does not depend on the previous run, and a failure without a cause stays unexplained |

## Left out

- Processes, signals and slots. `K3bProcess` and the slot connections are
  modelled by the fields `hasProcess`, `processRunning` and `connected`.
  Emitted signals are returned as event sequences. Whether the launch
  succeeds is a parameter.
- The working directory set from the cue file's path is not modelled.
- In the "Re-load disk" branch, the dialog and the newline written to
  cdrecord's standard input are one event. `fd()`, the process's
  standard-input descriptor, and the destructor are not modelled.
- The configuration is read into the `Config` parameter rather than from
  K3b's configuration object. Program features and versions are fields of
  `BinObject`.
- The comparison with version 1.11a02 is abstracted as the flag
  `burnfreeName`. `K3bVersion` is not part of this model.
- The device lookup and `externalBinDeviceParameter` are the `Device`
  parameter.
- Messages are datatype constructors, not translated text.
- The throughput estimator: its reset is an event, and its average speed
  is a parameter of the exit.
- CdrecordParser.StartState clears the fifo value, which the source keeps
  from the previous run. The main model follows the corrected behaviour of
  the second finding; `Findings.StartStateAsWritten` is the code as written.
- CdrecordParser.ShownProgress rescales only while a track is being written
  (`currentTrack > 0`), the corrected guard of the first finding; the guard
  as written is `Findings.RosterGuardAdmitsTrackZero`.
- CdrecordParser.Rescale uses integer truncating division for the
  source's `double` rescaling, which can differ by rounding. The formatted
  average speed (a `double` divided by 150) is not modelled.
- CdrecordParser.Step does not model 32-bit overflow of `100*made` and of
  the sums of sizes. Its percentages are exact integers.
- CdrecordWriter.Writer.Cancel: the internals of `K3bAbstractWriter::cancel`
  are one event, and `running` stays as the base class leaves it.
- `k3bglobals.h` (the numeric values of the writing modes) is not part of
  this model. Modes other than TAO, DAO and RAW are one constructor.
- `forceNoEject` has no setter in this file; it is part of the options and
  stays false.
- `m_totalTracks` is not reset by `start`, and the model keeps it, as
  the source does.
- `m_cue` is left uninitialised by the constructor. The model starts it as
  false. That is harmless, because a cue file is only set together with
  the flag.
- The "at speed", countdown and "Bad Option" round trips cover lines in
  which the phrase does not occur earlier and a non-digit or the end of the
  line borders the number. Other lines are described only by `SpeedOf`,
  `CountdownSeconds` and `BadOptionText` themselves.
- Characters are compared as they are. Only ASCII case folding and ASCII
  digits and white space are modelled; Qt's `QChar` classes are Unicode.

## Findings

| source | as written | input that shows it | evidently intended | confidence | as-written member | corrected member |
|---|---|---|---|---|---|---|
| src/projects/k3bcdrecordwriter.cpp:454-458 | the guard checks only that the roster has more than `currentTrack - 1` entries and that the size is positive, then reads `m_trackSizes[m_currentTrack-1]` | "Writing lead-in" and then a progress line "Track 01:    1 of   40 MB written (fifo 100%)" before any "Starting new track": the current track is 0, so entry -1 is read | rescale only while a track is being written (`currentTrack >= 1`) | not executed | Findings.RosterGuardAdmitsTrackZero | Findings.RosterGuardCorrected |
| src/projects/k3bcdrecordwriter.cpp:272-277 | `start` resets the roster, counters and error code but not `m_lastFifoValue`, which the constructor never sets either; the exit check at line 620 reads it | two runs that print nothing and exit with code 1: after a run that ended with the fifo at 2% the failure is called a buffer underrun, after one at 95% it stays unknown | each run judges its failure by its own fifo readings only | not executed | Findings.StaleFifoDecidesError | Findings.FreshFifoIgnoresPreviousRun |
