# Sentence-pair experiment: bookkeeping and sequencing model

This project models the logic of a rapid serial sentence-matching experiment.
There are three versions of it:

- an in-person PsychoPy script (`in-person/main.py`);
- an older lab PsychoPy script (`experiment.py`);
- an online PennController script (`online/data_includes/main.js`).

All three share one trigger gateway (`port_open_send.py`).

A session runs in this order:

1. Setup and practice instructions.
2. A practice block with feedback.
3. Main instructions.
4. Eight blocks of trials, cut from the shuffled stimulus table.
5. Checkpoint screens between blocks. At the halfway point there is an optional "fun fact".
6. A final screen.

A trial shows these screens in turn: fixation, blank, the first sentence with
the trigger of the trial's condition, blank, and the second sentence. The
script then waits for '1' (different) or '2' (same), shows the jitter screen,
scores the answer, logs it and counts it.

## How things are represented

- **Display and triggers.** What the display shows is a trace of `Flip`
  events (with or without the photodiode patch). Each `sendTrigger` call is a
  `Pulse` event.
- **Keyboard.** The keyboard is the list of keys the participant will press.
  `event.waitKeys` skips keys that are not allowed.
- **A wait that never ends.** When the pressed keys run out while a key is
  awaited, the status is `Stalled`. In the real program this wait blocks
  forever.
- **Randomness.** The random number generator is a stream `rng: nat -> nat`
  of draws. A counter records how many draws have been used.
- **How a step ends.** Every step ends in one of four statuses:
  - `Running`: it carries on normally;
  - `Fault`: an exception was raised, which the caller may catch;
  - `Quitted`: `core.quit()` was called;
  - `Stalled`: the wait described above.

## Files

| module | file | models |
|---|---|---|
| `PyText` | `pytext.dfy` | Python's `str.strip`, `str.lower`, `str(x)` and `int(x)` on a table cell |
| `TriggerGateway` | `gateway.dfy` | `sendTrigger` and its channel table, with the serial port as a recording object |
| `Presenter` | `presenter.dfy` | what both PsychoPy scripts share: `present_text` and its pause/quit keys, `present_feedback`, the checkpoint screens, the counters |
| `Blocks` | `blocks.dfy` | cutting the shuffled table into blocks, in both scripts |
| `Online` | `online.dfy` | jitter list, `sample`, `SepWithN.run`, the correct key, `correctCount`, `block_n` |
| `InPerson` | `inperson.dfy` | scoring, triggers, `present_stimulus` with its frame loop, `run_block`, the main loop and the session of `in-person/main.py` |
| `Lab` | `lab.dfy` | the same parts of `experiment.py`, including its trigger-list loop |

## How the state-changing code is modelled

- Each piece of code that changes state step by step is a method of a class.
  The classes are `Presenter.Screen`, `InPerson.Session`, `Lab.Session`,
  `Online.OnlineState`, `Online.JsArray`, `Online.SepWithN` and
  `TriggerGateway.SerialPort`.
- Each such method is proved to equal a pure function of the old state. The
  properties the scripts promise are then proved as lemmas about those
  functions. These properties include:
  - the counters and the log stay consistent, and each log entry records the
    trial it was made for;
  - each trial sends its condition's trigger once, and no other;
  - 'p' at the probe is scored wrong.
- The pure reference functions (`InPerson.Scored`, `TrialRun`, `BlockRun`,
  `MainRun`, `PracticeRun`, `MainPartRun`, `SessionRun` and their `Lab`
  counterparts) have no rows of their own. Each is covered by the row of the
  method proved equal to it and by the rows of the lemmas about it.
- The session model runs the halfway gate as the scripts have it: a "yes"
  there raises, as described under "## Findings". The corrected gate is kept
  beside it, with its own property proved.

## Where the code does less than it appears to

The model follows the code in each case below:

- **Blocks do not partition the table.** The comment at
  in-person/main.py:183 says the stimuli are sliced "into n_blocks roughly
  equal parts", which suggests every trial lands in exactly one block. The
  code instead takes rows `[i * size, (i + 1) * size)` for `i < 8`.
  - `experiment.py` therefore drops the last `n_trials % 8` rows
    (`Blocks.LabDropsRemainder`). With fewer than 8 rows, every block is
    empty (`Blocks.LabFewRowsEmptyBlocks`).
  - `in-person/main.py` keeps every row only when the row count is a
    multiple of 8 or at most 8 (`Blocks.InPersonCoverage`).
- **A control key can be scored.** The probe waits for '1' (different) or
  '2' (same), and scoring compares the answer with one of those two keys. In
  the code, a 'p' pressed at the probe also shows the pause screens and is
  then returned as the response. That response is scored
  wrong and logged (`InPerson.PauseAtProbeScoredWrong` and
  `Lab.PauseAtProbeScoredWrong`).
- **The online `sample` returns only five values.** It rounds the index down
  to a multiple of 10, so of the 41 jitter values it can only return 300,
  400, 500, 600 and 700 (`Online.SampleJitterFiveValues`).
- **The online `correctCount` never changes.** At
  online/data_includes/main.js:199 the success branch only creates the
  element `newFunction(() => correctCount += 1)`. A PennController Function
  element runs its body when `.call()` is issued on it, and the script never
  issues it, so the counter stays 0 (`Online.OnlineState.AnswerPractice`).
  Nothing reads the counter either.
- **The online test trials may never reach `sepWithN`.** The sequence at
  online/data_includes/main.js:120 passes `randomize("test")`, but the
  template at online/data_includes/main.js:232 labels its trials
  "text_test". If PennController matches labels exactly, no test trial is
  selected there, and the 200-trial list of `Online.BreaksMatchTotalBlocks`
  describes the design rather than what that call receives. PennController's
  label selection is not part of this model.

## Model

| member | source | states |
|---|---|---|
| PyText.StripLeftSpec | in-person/main.py:193 | `lstrip` removes exactly the leading whitespace run: all removed characters are whitespace and the kept text does not start with whitespace |
| PyText.StripRightSpec | in-person/main.py:193 | `rstrip` removes exactly the trailing whitespace run: all removed characters are whitespace and the kept text does not end with whitespace |
| PyText.StripPadded | in-person/main.py:193 | stripping whitespace padding around a word gives back the word |
| PyText.LowerSpec | in-person/main.py:193 | `lower()` maps each character independently with `LowerChar`, which shifts 'A'..'Z' by 32 and keeps every other character |
| PyText.CellText | in-person/main.py:193 | `str(cell)` yields no usable word exactly when the cell is a finite float |
| PyText.Truncate | in-person/main.py:366 | `int(x)` of a float truncates toward zero: floor for x >= 0, ceiling for x < 0 |
| PyText.GroupsValue | in-person/main.py:366 | an unsigned literal has a value iff it is digits in which single underscores separate digits; a plain digit run has its decimal value |
| PyText.UnderscoreIgnored | in-person/main.py:366 | `int` ignores an underscore between two digit runs: `int("1_000") == int("1000") == 1000` |
| PyText.MisplacedUnderscoreRejected | in-person/main.py:366 | `int` fails on a leading, a trailing or a doubled underscore |
| PyText.ParseIntOfShow | in-person/main.py:366 | `int(str(n)) == n` for every integer n, negatives included |
| PyText.ShowInjective | in-person/main.py:193-194 | distinct integers print differently (both directions) |
| PyText.IntOfShownInt | in-person/main.py:366 | a text cell holding `str(n)` converts with `int` exactly as an integer cell n does |
| TriggerGateway.MappingShape | port_open_send.py:22-30 | the channel table has exactly the 7 keys ch160..ch166 |
| TriggerGateway.MappingInjective | port_open_send.py:22-30 | no two channels share a code |
| TriggerGateway.OneHotCodes | port_open_send.py:22-27 | channel ch16k for k < 5 puts 'm', 'h' and the byte 2^k on the wire |
| TriggerGateway.Utf8OfAscii | port_open_send.py:40 | UTF-8 encoding of an ASCII string is byte-for-byte its character codes |
| TriggerGateway.EncodeChar | port_open_send.py:40 | one character encodes to 1 to 4 bytes, and to exactly 1 iff it is below 0x80 |
| TriggerGateway.Plan | port_open_send.py:32-48 | the writes a call reaches are empty iff the channel is not in the table; for a known channel there are 2 when the pause is negative (`time.sleep` raises before the reset) and 4 otherwise |
| TriggerGateway.Accepted | port_open_send.py:38-53 | what a faulting port accepts is a prefix of the plan, the whole plan without a fault, else exactly `accepts` writes |
| TriggerGateway.SerialPort.Write | port_open_send.py:40 | a write raises iff the port has no acceptances left, and records the data otherwise |
| TriggerGateway.SendTrigger | port_open_send.py:4-53 | the port receives exactly the accepted prefix of the planned writes (code, code, then zero, zero unless the pause is negative), and its remaining acceptances drop by that many, so the shared port carries over to the next call; the outcome is InvalidChannel iff the channel is unknown, TransportFault iff a write raised, and SleepFault iff both codes went out and the pause is negative; no error escapes |
| TriggerGateway.UnknownChannelWritesNothing | port_open_send.py:32-34 | an unknown channel causes no write |
| TriggerGateway.KnownChannelWrites | port_open_send.py:38-48 | a known channel on a healthy port writes its code twice and then the zero marker twice, or only the code twice when the pause is negative |
| TriggerGateway.FaultSkipsRest | port_open_send.py:38-53 | after a failing write the later writes are skipped: only a strict prefix of the planned writes reaches the device |
| Presenter.FirstAllowed | in-person/main.py:220 | `waitKeys` returns an allowed key and consumes at least one press |
| Presenter.FirstAllowedSpec | in-person/main.py:220 | `waitKeys` returns the first allowed press and exactly the presses after it, having skipped only disallowed keys; it finds none iff no allowed key is pressed |
| Presenter.Shown | in-person/main.py:215-220 | one flip of the text without the photodiode; the step runs on iff a key was read, and the key is an allowed one |
| Presenter.Resolved | in-person/main.py:221-226 | 'q' shows the end text and quits; 'p' shows the pause and progress screens and carries on; any other key changes nothing |
| Presenter.TextShown | in-person/main.py:215-228 | `present_text` starts with the text's own flip; it returns only an allowed key other than 'q', and quits only when 'q' is allowed, ending with the end text |
| Presenter.TextShownWithoutControlKeys | in-person/main.py:222-226 | a screen whose keys exclude 'p' and 'q' is a plain show-and-wait |
| Presenter.PauseReturnsP | in-person/main.py:224-228 | with 'p', 's', '1' pressed, `present_text` shows the text, pause and progress screens and returns 'p' |
| Presenter.FeedbackShownAsWritten | in-person/main.py:339-358 | `present_feedback` as written ends in an exception exactly when '2' is pressed, right after its question and with the fun fact's draw spent when the table has facts (the same code is at experiment.py:253-272); a quit ends on the end text |
| Presenter.FunFactGateDiscrepancy | in-person/main.py:352-358 | at the halfway gate with '2' the code as written raises, while the intended version shows the fun fact's prompt and content |
| Presenter.FeedbackShown | in-person/main.py:339-358 | `present_feedback` as evidently intended (the corrected half of the finding): an exception exactly when '2' is pressed and the fun-fact table is empty |
| Presenter.FunFactShown | in-person/main.py:353-358 | a "yes" uses exactly one random draw and returns '2' |
| Presenter.FactShown | in-person/main.py:354-358 | a fun fact's screens consume no draw and return '2' |
| Presenter.FeedbackExtends | in-person/main.py:339-342 | `present_feedback` only adds to the trace, starting with its question |
| Presenter.FunFactScreens | in-person/main.py:352-358 | on "yes" with facts available, fact `rng % count` is drawn, its prompt follows the question, and a run-through ends on its content |
| Presenter.FactShownSpec | in-person/main.py:354-358 | a fact's prompt comes first; a run-through ends on its content |
| Presenter.ResolvedNoPulses | in-person/main.py:221-226 | the control screens send no trigger |
| Presenter.HalfwayShown | in-person/main.py:495-511 | the halfway screens as written raise iff the experimenter screen runs through and the fun-fact question reads '2'; the exception comes right after that question, so "Start of block" is then not shown; a quit ends on the end text |
| Presenter.CheckpointShown | in-person/main.py:495-520 | the checkpoint raises only at block n // 2, right after the fun-fact question; a quit ends on the end text |
| Presenter.CheckpointRule | in-person/main.py:495-520 | after block b of n: the experimenter end-of-block screen iff b == n // 2; else the plain end-of-block screen iff b != n; else nothing |
| Presenter.HalfwayExtends | in-person/main.py:496-511 | the halfway screens start with the end-of-block screen and only add to the trace |
| Presenter.HalfwayYesRaises | in-person/main.py:496-511 | with 's' and then '2' pressed, the halfway screens show the end-of-block screen and the fun-fact question, spend the fun fact's draw and raise; "Start of block" is not shown |
| Presenter.ConsistentAdvanced | in-person/main.py:422-444 | completed trials keep 0 <= total_correct <= trial_num; a kept log keeps one entry per trial, numbered 0.., whose correct flags sum to total_correct |
| Presenter.Screen.WaitKeys | in-person/main.py:220 | the loop returns the first allowed press and leaves the presses after it (none left when no allowed key came) |
| Presenter.Screen.Draw | in-person/main.py:353 | one draw of the generator, reduced below the bound |
| Presenter.Screen.Show | in-person/main.py:216-220 | the screen state afterwards equals `Shown` of the old state |
| Presenter.Screen.Resolve | in-person/main.py:221-226 | the state afterwards equals `Resolved` of the old state |
| Presenter.Screen.PresentText | in-person/main.py:215-228 | the state afterwards equals `TextShown` of the old state |
| Presenter.Screen.PresentIntro | in-person/main.py:447-449 | the setup and instruction screens equal `IntroShown` of the old state |
| Presenter.Screen.PresentFeedbackAsWritten | in-person/main.py:339-358 | the state afterwards equals `FeedbackShownAsWritten` of the old state |
| Presenter.Screen.PresentFeedback | in-person/main.py:339-358 | the state afterwards equals the intended `FeedbackShown` of the old state (the corrected half of the finding) |
| Presenter.Screen.PresentFunFact | in-person/main.py:353-358 | the state afterwards equals `FunFactShown` of the old state |
| Presenter.Screen.PresentFact | in-person/main.py:354-358 | the state afterwards equals `FactShown` of the old state |
| Presenter.Screen.Halfway | in-person/main.py:495-511 | the state afterwards equals `HalfwayShown` of the old state |
| Presenter.Screen.Checkpoint | in-person/main.py:495-520 | the state afterwards equals `CheckpointShown` of the old state |
| Blocks.PySlice | in-person/main.py:185 | a slice with clamped bounds has length max(0, min(hi, len) - min(lo, len)) |
| Blocks.InPersonBlockSize | in-person/main.py:184 | size >= 1, and for n_trials >= n_blocks the blocks cover the rows up to a remainder below n_blocks |
| Blocks.LabBlockSize | experiment.py:136 | size * n_blocks <= n_trials < (size + 1) * n_blocks |
| Blocks.Slices | in-person/main.py:185 | n_blocks blocks, each with at most `size` rows |
| Blocks.SlicesArePrefix | in-person/main.py:185 | the blocks taken in order are exactly the first min(n_blocks * size, n_trials) rows |
| Blocks.InPersonCoverage | in-person/main.py:184-185 | every row is used iff n_trials <= n_blocks or n_blocks divides n_trials |
| Blocks.LabDropsRemainder | experiment.py:133-137 | the blocks hold n_trials - n_trials % n_blocks rows |
| Blocks.LabFewRowsEmptyBlocks | experiment.py:134-137 | with fewer rows than blocks every block is empty |
| Blocks.SliceAt | in-person/main.py:185 | row p of block i is table row i * size + p |
| Blocks.DistinctRowsDisjointBlocks | in-person/main.py:185 | with distinct rows no row lies in two blocks |
| Blocks.DistinctRowsTailUnused | in-person/main.py:184-185 | with distinct rows, rows from position n_blocks * size on are in no block |
| Blocks.FlattenPermutation | in-person/main.py:186 | reordering the list of blocks does not change the multiset of trials |
| Blocks.ShuffledBlocksKeepRows | in-person/main.py:181-186 | after any reshuffle of each block and of the block list, the trials are, as a multiset, the first min(n_blocks * size, n_trials) shuffled rows |
| Online.SeriesShape | online/data_includes/main.js:75-79 | the series starts at min, rises by step, never passes max, and its last value is within one step of max |
| Online.JitterSeriesValues | online/data_includes/main.js:57-79 | the jitter list is the 41 values 300, 310, ..., 700 |
| Online.SampleIndex | online/data_includes/main.js:82 | the index is a non-negative multiple of 10, below the length of a non-empty array |
| Online.Sample | online/data_includes/main.js:81-84 | `sample` of a non-empty array yields one of its elements |
| Online.SampleJitterFiveValues | online/data_includes/main.js:81-84 | from the jitter list, `sample` yields only 300, 400, 500, 600 or 700 |
| Online.SampleJitterReaches | online/data_includes/main.js:81-84 | each of those five values is drawn for some random number |
| Online.CorrectResponse | online/data_includes/main.js:188 | the key is '2' iff the sentences are equal and '1' iff they differ |
| Online.BlockNCountsBreaks | online/data_includes/main.js:225-226 | after k breaks `block_n` is k (unset before the first) |
| Online.OnlineState.InitializeJitter | online/data_includes/main.js:75-79 | the loop appends exactly the series min, min + step, ..., max |
| Online.OnlineState.AnswerPractice | online/data_includes/main.js:194-199 | success iff the pressed key is the correct one; `correctCount` keeps its value on both branches, since the Function element holding the increment is never called |
| Online.OnlineState.Break | online/data_includes/main.js:224-226 | `block_n` becomes `(v || 0) + 1`, and the screen announces that value |
| Online.JsArray.Shift | online/data_includes/main.js:99 | `shift` removes and returns the first element, or undefined on an empty array |
| Online.CeilDivBounds | online/data_includes/main.js:97-102 | the number of groups is the ceiling of len / n |
| Online.GroupedLength | online/data_includes/main.js:96-103 | the output has len + ceil(len / n) * len(sep) items |
| Online.UngroupGrouped | online/data_includes/main.js:96-103 | removing the separator slots gives back `main` in order |
| Online.GroupedEndsWithSep | online/data_includes/main.js:100-101 | the output ends with a full separator, after the last group too |
| Online.GroupedSeparatorCount | online/data_includes/main.js:97-102 | a one-item separator foreign to `main` occurs ceil(len / n) times |
| Online.BreaksMatchTotalBlocks | online/data_includes/main.js:120 | given 200 test trials (see the label mismatch above), groups of 25 get 8 breaks, and the last announces block 8 |
| Online.SepWithN.Run | online/data_includes/main.js:88-104 | wrong argument count and non-positive n fail; a main of length <= 1 is returned as is; otherwise a fresh array holds the grouped output, and `main` is emptied |
| Online.SepWithN.Interleave | online/data_includes/main.js:96-102 | the loop builds `Grouped(sep, main, n)`, aliasing included, and empties `main` |
| Online.SepWithN.TakeGroup | online/data_includes/main.js:98-99 | the inner loop moves the first min(n, len) items out of `main` |
| Online.SepWithN.Copy | online/data_includes/main.js:100-101 | the copy loop yields exactly `sep` |
| InPerson.GetCorrectResponse | in-person/main.py:204-213 | the key is always '2' or '1' |
| InPerson.IsCorrectResponse | in-person/main.py:191-202 | only a '1' or '2' response can be correct |
| InPerson.ScoringAgreesWithCorrectResponse | in-person/main.py:191-213 | scoring is correct iff the response is the key `get_correct_response` names |
| InPerson.LabelDecides | in-person/main.py:206-211 | a label in match/1/true gives '2', in mismatch/0/false gives '1', else sentence equality decides |
| InPerson.PaddedLabel | in-person/main.py:193 | a text label is read with surrounding whitespace removed and in lower case |
| InPerson.FallbackWithoutLabel | in-person/main.py:199 | without a label column, or with NaN or a float, sentence equality decides |
| InPerson.IntLabels | in-person/main.py:193-199 | integer label 1 gives '2', 0 gives '1', any other falls back to the sentences |
| InPerson.BoolLabels | in-person/main.py:193-197 | True gives '2' and False gives '1' |
| InPerson.ConditionTrigger | in-person/main.py:365-370 | a trigger exists iff `int(Condition)` succeeds and lies in 1..4 |
| InPerson.ConditionTriggerCodes | in-person/main.py:44-49 | condition v selects ch16(v-1), whose code is 'mh' and the byte with bit v-1 set |
| InPerson.PyRangeIsSeries | in-person/main.py:138-139 | `range(min, max + 1, step)` is the online series from min to max |
| InPerson.JitterValues | in-person/main.py:138-141 | the jitter list equals the online one: 41 values 300, 310, ..., 700 |
| InPerson.Frames | in-person/main.py:281 | the frame loop runs at least once |
| InPerson.FramePulses | in-person/main.py:280-288 | the frame loop flips once per frame and sends the trigger only at frame 0 |
| InPerson.DisplayPulses | in-person/main.py:279-296 | a timed display sends its truthy trigger once, and nothing without a timing |
| InPerson.StimulusShown | in-person/main.py:230-337 | without keys only the display; with auto-respond a '1' or '2'; otherwise a returned key is one of keys + p/q; a quit ends on the end text; it never raises |
| InPerson.Answered | in-person/main.py:299-336 | the same guarantees for the part after the timed display, a quit there ending on the end text |
| InPerson.StimulusPulses | in-person/main.py:230-337 | `present_stimulus` adds exactly its trigger, once, and only with a timing |
| InPerson.AnsweredPulses | in-person/main.py:299-336 | waiting for the answer sends no trigger |
| InPerson.FeedbackNoPulses | in-person/main.py:405-417 | the practice feedback sends no trigger |
| InPerson.PreludePulses | in-person/main.py:373-381 | of the four pre-probe screens only the sentence sends the condition's trigger |
| InPerson.ScoredCounts | in-person/main.py:391-444 | a scored trial adds 1 to trial_num and 0 or 1 to total_correct, and logs its response, its score and the trial itself when logging |
| InPerson.TrialCounts | in-person/main.py:363-445 | a trial completes as above, with its log entry recording this trial, or ends the session with the counters untouched; it never raises |
| InPerson.TrialPulses | in-person/main.py:363-445 | a trial's only trigger is its condition's, once |
| InPerson.ScoredPulses | in-person/main.py:391-418 | feedback and jitter screens send no trigger |
| InPerson.PauseAtProbeScoredWrong | in-person/main.py:383-422 | 'p' at the probe shows the pause screens, then the trial is counted and logged with response 'p' and scored wrong |
| InPerson.BlockCounts | in-person/main.py:360-445 | a block advances trial_num by at most its length, by exactly its length when it completes, and keeps the log in step |
| InPerson.BlockLogsTrials | in-person/main.py:360-445 | with a log, the entries a block adds record its trials in order: entry k of the new ones records the block's trial k |
| InPerson.MainConsistent | in-person/main.py:490-523 | the main loop keeps counters and log consistent, whatever the screens do |
| InPerson.PracticeConsistent | in-person/main.py:446-467 | the practice part leaves consistent counters |
| InPerson.MainPartConsistent | in-person/main.py:469-535 | past the main instructions, the session ends with consistent counters and log |
| InPerson.BlockQuitEnds | in-person/main.py:360-386 | a block that ends in a quit, at any trial's probe, has shown the end text last |
| InPerson.MainQuitEnds | in-person/main.py:490-524 | a main loop that ends in a quit, in a block or at a checkpoint screen, has shown the end text last |
| InPerson.PracticeQuitEnds | in-person/main.py:446-467 | a practice part that ends in a quit (setup, instructions, a probe, the summary) has shown the end text last |
| InPerson.MainPartQuitEnds | in-person/main.py:469-535 | a main part that ends in a quit has shown the end text last |
| InPerson.SessionQuitEndsOnEndText | in-person/main.py:215-228 | whichever screen the participant quits on, the session's last shown screen is the end text |
| InPerson.SessionConsistent | in-person/main.py:446-535 | a session run to its end has 0 <= total_correct <= trial_num and a log matching them; otherwise it quit with an empty new log |
| InPerson.Session.ShowFrames | in-person/main.py:281-288 | the loop adds exactly the frame events |
| InPerson.Session.Display | in-person/main.py:279-296 | the trace gains exactly the display events |
| InPerson.Session.PresentStimulus | in-person/main.py:230-337 | the state afterwards equals `StimulusShown` of the old state |
| InPerson.Session.Answer | in-person/main.py:299-336 | the state afterwards equals `Answered` of the old state |
| InPerson.Session.Prelude | in-person/main.py:373-381 | the trace gains exactly the four pre-probe screens |
| InPerson.Session.ShowFeedback | in-person/main.py:405-417 | the trace gains exactly the feedback events |
| InPerson.Session.Score | in-person/main.py:391-444 | the state afterwards equals `Scored` of the old state |
| InPerson.Session.RunTrial | in-person/main.py:363-445 | the state afterwards equals `TrialRun` of the old state |
| InPerson.Session.RunBlock | in-person/main.py:360-445 | the state afterwards equals `BlockRun` of the old state |
| InPerson.Session.RunMainBlock | in-person/main.py:490-523 | one loop pass, with the halfway gate as written and its exception caught, leaves the rest of `MainRun` unchanged, or ends it |
| InPerson.Session.RunMain | in-person/main.py:490-523 | the state afterwards equals `MainRun` of the old state |
| InPerson.Session.RunPractice | in-person/main.py:446-467 | the state afterwards equals `PracticeRun` of the old state |
| InPerson.Session.RunMainPart | in-person/main.py:469-535 | the state afterwards equals `MainPartRun` of the old state |
| InPerson.Session.Run | in-person/main.py:446-535 | the state afterwards equals `SessionRun` of the old state |
| Lab.ConditionTrigger | experiment.py:279 | a trigger exists iff the condition cell is text naming one of the four conditions, and the gateway knows its channel |
| Lab.ConditionTriggerCodes | experiment.py:18-23 | condition_A..D select ch160..ch163, whose codes carry bit 0..3 |
| Lab.IsCorrectResponse | experiment.py:144-145 | correct iff the cell is text equal to the response |
| Lab.ListPulses | experiment.py:180-182 | the loop sends at most one trigger per list element |
| Lab.ListPulsesSpec | experiment.py:177-185 | the loop sends a channel iff it is in the list, in list order, and sends only triggers |
| Lab.ChannelIsOneElementList | experiment.py:179 | a single channel is sent as the one-element list holding it |
| Lab.DisplayedPulses | experiment.py:168-185 | a timed screen sends exactly its triggers |
| Lab.StimulusShown | experiment.py:162-251 | the trace starts with the screen and its blank; without keys nothing else; with auto-respond a '1' or '2'; otherwise a key of keys + p/q; a quit ends on the end text |
| Lab.Answered | experiment.py:189-250 | the same guarantees for the part after the blank, a quit there ending on the end text |
| Lab.StimulusPulses | experiment.py:162-251 | `present_stimulus` sends exactly the triggers it is given, in order |
| Lab.PreludePulses | experiment.py:282-290 | only the first stimulus sends a trigger |
| Lab.ScoredCounts | experiment.py:300-326 | one draw; an exception iff correct_response is missing; else one trial counted and logged with its columns |
| Lab.TrialCounts | experiment.py:277-326 | an exception only for a missing column, and a missing condition raises before anything is shown; a completed trial is counted once |
| Lab.TrialPhases | experiment.py:282-301 | fixation, blank, first stimulus, blank, second stimulus in order; a completed trial ends on the jitter screen |
| Lab.TrialPulses | experiment.py:277-301 | a trial's only trigger is its condition's |
| Lab.ScoredPulses | experiment.py:300-301 | the jitter screen sends no trigger |
| Lab.PauseAtProbeScoredWrong | experiment.py:292-305 | 'p' at the second stimulus shows the pause screens, then the trial is counted and logged with response 'p', scored wrong unless the cell reads 'p' |
| Lab.BlockCounts | experiment.py:274-326 | a block completes iff all its trials were counted, and otherwise counted fewer |
| Lab.BlockLogsTrials | experiment.py:274-326 | with a log, the entries a block adds record its trials in order: entry k of the new ones holds the columns of the block's trial k |
| Lab.MainConsistent | experiment.py:372-405 | the loop catches every exception and keeps counters and log consistent |
| Lab.PracticeConsistent | experiment.py:328-349 | the practice part leaves consistent counters, and no exception escapes it |
| Lab.MainPartConsistent | experiment.py:351-417 | past the main instructions, the session ends consistent |
| Lab.BlockQuitEnds | experiment.py:274-327 | a block that ends in a quit, at any trial's second stimulus, has shown the end text last |
| Lab.MainQuitEnds | experiment.py:372-406 | a main loop that ends in a quit, in a block or at a checkpoint screen, has shown the end text last |
| Lab.PracticeQuitEnds | experiment.py:328-349 | a practice part that ends in a quit has shown the end text last |
| Lab.MainPartQuitEnds | experiment.py:351-417 | a main part that ends in a quit has shown the end text last |
| Lab.SessionQuitEndsOnEndText | experiment.py:147-160 | whichever screen the participant quits on, the session's last shown screen is the end text |
| Lab.SessionConsistent | experiment.py:328-417 | a session run to its end is consistent; otherwise it quit with an empty new log |
| Lab.Session.SendList | experiment.py:180-185 | the loop adds exactly the list's triggers |
| Lab.Session.SendTriggers | experiment.py:177-185 | the trace gains exactly the trigger events |
| Lab.Session.PresentStimulus | experiment.py:162-251 | the state afterwards equals `StimulusShown` of the old state |
| Lab.Session.Answer | experiment.py:189-250 | the state afterwards equals `Answered` of the old state |
| Lab.Session.Prelude | experiment.py:282-290 | the trace gains exactly the four pre-stimulus screens |
| Lab.Session.Score | experiment.py:299-326 | the state afterwards equals `Scored` of the old state |
| Lab.Session.RunTrial | experiment.py:277-326 | the state afterwards equals `TrialRun` of the old state |
| Lab.Session.RunBlock | experiment.py:274-326 | the state afterwards equals `BlockRun` of the old state |
| Lab.Session.RunMainBlock | experiment.py:372-405 | one loop pass, with its try/except and the halfway gate as written, leaves the rest of `MainRun` unchanged, or ends it |
| Lab.Session.RunMain | experiment.py:372-405 | the state afterwards equals `MainRun` of the old state |
| Lab.Session.RunPractice | experiment.py:328-349 | the state afterwards equals `PracticeRun` of the old state |
| Lab.Session.RunMainPart | experiment.py:351-417 | the state afterwards equals `MainPartRun` of the old state |
| Lab.Session.Run | experiment.py:328-417 | the state afterwards equals `SessionRun` of the old state |

## Left out

- **Time.** Wall-clock time, `core.wait`, clocks, response times (`RT`) and the monitor's real frame timing are not modelled. Frame counts are computed from a given frame period. The pause of `sendTrigger` takes no time in the model; only `time.sleep`'s refusal of a negative duration (which skips the two reset writes) is modelled. A duration too large for the clock, which would also raise, cannot occur with the model's `real`s; every caller passes 0.02.
- **Randomness.** Randomness is a stream of draws:
  - `random.choice` and `feedback_items.sample` use one draw reduced modulo the length;
  - `randint(1, 2)` uses one draw's parity;
  - `uniform` uses one draw whose value is not used;
  - the lab jitter's duration is not modelled, only its screen.
- **Shuffles.** `sklearn.utils.shuffle` is left unmodelled as a function. The block lemmas accept any permutation.
- **Text content.** Text is not rendered. Screens are named by role, and accuracy percentages are kept as their numerator and denominator (no floating point).
- **Console output.** `print`, `verbose` logging and `event.clearEvents()` are not modelled.
- **Fixed flags.** The photodiode switch and the `send_triggers` switch are taken as their fixed value `True`. `condition_map_2` is unused by the code and is not modelled.
- **Input and output.** The GUI dialog, window creation, CSV loading and `FileNotFoundError` are not modelled. The serial port's opening is reduced to a port that accepts a given number of writes.
- **Online screens.** PennController screens, `Sequence`, `Template`, `randomize` and `SendResults` are not modelled, beyond the counters and helpers listed in the table.
- **Missing stimulus columns.** The stimulus columns (`Sentence`/`Probe`, `stimulus_1`/`stimulus_2`) are taken to be present. A missing one would raise a `KeyError` that is not modelled.
- **Table sizes.** The fun-fact table is represented by its size only.
- InPerson.ConditionTrigger: `int()` of a text cell accepts only ASCII digits (with `_` grouping). Python also accepts other Unicode decimal digits, such as Arabic-Indic ones; the model rejects them, so such a cell gets no trigger here.
- PyText.LowerChar: lower-cases only ASCII letters. Python's `lower()` also folds non-ASCII letters, which the labels never contain.
- InPerson.SessionConsistent: consistency is promised only for a session that reaches its end.
  - The logger is created before the main setup screens.
  - A quit there leaves the new empty log beside the practice's `trial_num`.
  - The lemma states that this is the only other outcome.
- Lab.SessionConsistent: the same restriction, for the same reason.
- **The end of the session:**
  - `core.quit()` is the `Quitted` status.
  - A wait that never gets an allowed key is the `Stalled` status.
  - The `NameError` that the final `finally` block raises after a zero-trial session, by printing the undefined `final_accuracy`, comes after the end screen and is not modelled.
- Online.SepWithN.Run: JavaScript's `assert` is modelled as a failure result rather than a thrown error. `parseInt(n)` of a non-numeric `n` is not modelled; `n` is an integer.

## Findings

| source | as written | input that shows it | evidently intended | confidence | as-written member | corrected member |
|---|---|---|---|---|---|---|
| in-person/main.py:352-355 | `present_feedback` calls `present_text(text=..., keys=...)`, but `present_text` has no parameter named `text`, so answering "yes" (the '2' key) at the halfway fun-fact question raises `TypeError`. The main loop's `except` catches it, so the fun fact and the "Start of block" screen are never shown. experiment.py:266-271 has the same call. The session model keeps this behaviour (Presenter.HalfwayShown, Presenter.HalfwayYesRaises). | the keys '2', '1', '1' at the halfway gate (Presenter.FunFactGateDiscrepancy) | show the fun fact's prompt and then its content, each waiting for any button | not executed | Presenter.FeedbackShownAsWritten | Presenter.FeedbackShown |
