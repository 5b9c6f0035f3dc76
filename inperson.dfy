/**
 * The in-person script (in-person/main.py): deriving the correct key from a
 * trial, the trigger of a trial's condition, `present_stimulus` with its frame
 * loop, `run_block`, the main block loop and the whole session, over the
 * screens of module Presenter.
 */
module InPerson {
  import opened Wrappers
  import opened PyText
  import opened Presenter
  import Online
  import TriggerGateway

  /** CONFIG['timings'] in milliseconds. */
  const MaskMs: nat := 200
  const Mask2Ms: nat := 200
  const PrimeMs: nat := 300
  const Mask3Ms: nat := 500
  const TargetMs: nat := 300
  const FeedbackMs: nat := 500

  const SameLabels: seq<string> := ["match", "1", "true"]
  const DifferentLabels: seq<string> := ["mismatch", "0", "false"]

  /** A row of the stimulus table: the two sentences and the optional Match and Condition cells. */
  datatype Trial = Trial(sentence: string, probe: string, matchCell: Option<Cell>, condition: Option<Cell>)

  /** `str(trial.get('Match', '')).strip().lower()`; None stands for the text of a float. */
  function MatchLabel(t: Trial): Option<string>
  {
    match t.matchCell
    case None => Some("")
    case Some(c) =>
      match CellText(c)
      case None => None
      case Some(text) => Some(Lower(Strip(text)))
  }

  /** `get_correct_response(trial)`: the key the trial calls for. */
  function GetCorrectResponse(t: Trial): (k: string)
    ensures k == SameKey || k == DifferentKey
  {
    var word := MatchLabel(t);
    if word.Some? && word.value in SameLabels then SameKey
    else if word.Some? && word.value in DifferentLabels then DifferentKey
    else if t.sentence == t.probe then SameKey
    else DifferentKey
  }

  /**
   * `is_correct_response(trial, response)`, which derives the key again on its
   * own. Only a '1' or '2' can be correct, never a missing response, 'p' or 'q'.
   */
  function IsCorrectResponse(t: Trial, response: Option<string>): (c: bool)
    ensures c ==> response == Some(SameKey) || response == Some(DifferentKey)
  {
    var word := MatchLabel(t);
    var correct :=
      if word.Some? && word.value in SameLabels then SameKey
      else if word.Some? && word.value in DifferentLabels then DifferentKey
      else if t.sentence == t.probe then SameKey
      else DifferentKey;
    Some(correct) == response
  }

  /** Scoring and the correct answer on the console agree for every trial and response. */
  lemma ScoringAgreesWithCorrectResponse(t: Trial, response: Option<string>)
    ensures IsCorrectResponse(t, response) <==> response == Some(GetCorrectResponse(t))
  {
  }

  /**
   * A text label is read case-insensitively and with surrounding whitespace
   * ignored: with LabelDecides, ' Match\n' counts like 'match'.
   */
  lemma PaddedLabel(t: Trial, pre: string, word: string, post: string)
    requires forall i :: 0 <= i < |pre| ==> IsSpace(pre[i])
    requires forall i :: 0 <= i < |post| ==> IsSpace(post[i])
    requires word != [] && !IsSpace(word[0]) && !IsSpace(word[|word| - 1])
    ensures MatchLabel(t.(matchCell := Some(TextCell(pre + word + post)))) == Some(Lower(word))
  {
    var s := pre + word + post;
    StripPadded(pre, word, post);
    CellLabel(t.(matchCell := Some(TextCell(s))), s);
  }

  /** The answer once the label is known. */
  lemma LabelDecides(t: Trial, w: string)
    requires MatchLabel(t) == Some(w)
    ensures GetCorrectResponse(t) ==
      if w in SameLabels then SameKey else if w in DifferentLabels then DifferentKey
      else if t.sentence == t.probe then SameKey else DifferentKey
  {
  }

  /** Without a usable label (no Match column, NaN, or a float such as 1.0) the sentences decide. */
  lemma FallbackWithoutLabel(t: Trial)
    requires t.matchCell.None? || t.matchCell.value.FloatCell? || t.matchCell.value.NanCell?
    ensures GetCorrectResponse(t) == if t.sentence == t.probe then SameKey else DifferentKey
  {
    if t.matchCell.None? {
      LabelDecides(t, "");
    } else if t.matchCell.value.NanCell? {
      assert MatchLabel(t) == Some("nan") by {
        WordLabel(t, "nan", "nan");
      }
      NanNotLabel();
      LabelDecides(t, "nan");
    }
  }

  /** An integer label counts only as 1 ('2') or 0 ('1'); any other integer falls back to the sentences. */
  lemma IntLabels(t: Trial, n: int)
    ensures GetCorrectResponse(t.(matchCell := Some(IntCell(n)))) ==
      if n == 1 then SameKey else if n == 0 then DifferentKey
      else if t.sentence == t.probe then SameKey else DifferentKey
  {
    var s := Show(n);
    ShowIsPlain(n);
    StripKeepsUnspaced(s);
    LowerPlain(s);
    assert MatchLabel(t.(matchCell := Some(IntCell(n)))) == Some(s);
    ShowOneOrZero(n);
  }

  /** A boolean column reads True as '2' and False as '1'. */
  lemma BoolLabels(t: Trial, b: bool)
    ensures GetCorrectResponse(t.(matchCell := Some(BoolCell(b)))) == if b then SameKey else DifferentKey
  {
    if b {
      TrueLabel(t.(matchCell := Some(BoolCell(b))));
    } else {
      FalseLabel(t.(matchCell := Some(BoolCell(b))));
    }
  }

  lemma TrueLabel(t: Trial)
    requires t.matchCell == Some(BoolCell(true))
    ensures GetCorrectResponse(t) == SameKey
  {
    assert MatchLabel(t) == Some("true") by {
      TrueWord();
      WordLabel(t, "True", "true");
    }
    assert "true" == SameLabels[2];
    SameWord(t, "true");
  }

  lemma FalseLabel(t: Trial)
    requires t.matchCell == Some(BoolCell(false))
    ensures GetCorrectResponse(t) == DifferentKey
  {
    assert MatchLabel(t) == Some("false") by {
      FalseWord();
      WordLabel(t, "False", "false");
    }
    FalseNotSame();
    assert "false" == DifferentLabels[2];
    DifferentWord(t, "false");
  }

  lemma NanNotLabel() ensures "nan" !in SameLabels && "nan" !in DifferentLabels
  {
    assert "nan"[0] != "match"[0] && "nan"[0] != "1"[0] && "nan"[0] != "true"[0];
    assert "nan"[0] != "mismatch"[0] && "nan"[0] != "0"[0] && "nan"[0] != "false"[0];
  }

  lemma SameWord(t: Trial, w: string)
    requires MatchLabel(t) == Some(w) && w in SameLabels
    ensures GetCorrectResponse(t) == SameKey
  {
  }

  lemma DifferentWord(t: Trial, w: string)
    requires MatchLabel(t) == Some(w) && w !in SameLabels && w in DifferentLabels
    ensures GetCorrectResponse(t) == DifferentKey
  {
  }

  lemma FalseNotSame() ensures "false" !in SameLabels
  {
    assert "false"[0] != "match"[0] && "false"[0] != "1"[0] && "false"[0] != "true"[0];
  }

  /** The label of a cell is its text, stripped and lower-cased. */
  lemma CellLabel(t: Trial, text: string)
    requires t.matchCell.Some? && CellText(t.matchCell.value) == Some(text)
    ensures MatchLabel(t) == Some(Lower(Strip(text)))
  {
  }

  lemma WordLabel(t: Trial, text: string, w: string)
    requires t.matchCell.Some? && CellText(t.matchCell.value) == Some(text)
    requires text != [] && !IsSpace(text[0]) && !IsSpace(text[|text| - 1]) && Lower(text) == w
    ensures MatchLabel(t) == Some(w)
  {
    CellLabel(t, text);
    StripKeepsUnspaced(text);
  }

  lemma TrueWord() ensures Lower("True") == "true" { }
  lemma FalseWord() ensures Lower("False") == "false" { }

  lemma ShowOneOrZero(n: int)
    ensures Show(n) in SameLabels <==> n == 1
    ensures Show(n) in DifferentLabels <==> n == 0
  {
    var s := Show(n);
    ShowInjective(n, 1);
    ShowInjective(n, 0);
    assert Show(1) == "1" && Show(0) == "0";
    ShowIsPlain(n);
    assert s != "match" by { assert "match"[0] == 'm'; }
    assert s != "true" by { assert "true"[0] == 't'; }
    assert s != "mismatch" by { assert "mismatch"[0] == 'm'; }
    assert s != "false" by { assert "false"[0] == 'f'; }
  }

  lemma LowerPlain(s: string)
    requires forall i :: 0 <= i < |s| ==> IsDigit(s[i]) || s[i] == '-'
    ensures Lower(s) == s
  {
    LowerSpec(s);
  }

  /** `condition_map_1`. */
  const ConditionMap: map<int, string> := map[1 := "ch160", 2 := "ch161", 3 := "ch162", 4 := "ch163"]

  /** The trigger of a trial: `condition_map_1.get(int(trial.get('Condition')))`, None where `int` raises. */
  function ConditionTrigger(condition: Option<Cell>): (ch: Option<string>)
    ensures ch.Some? <==> IntOf(condition).Some? && 1 <= IntOf(condition).value <= 4
  {
    var v := IntOf(condition);
    if v.Some? && v.value in ConditionMap then Some(ConditionMap[v.value]) else None
  }

  /**
   * Condition v in 1..4 selects channel ch16(v-1), whose code on the wire is 'mh'
   * and a byte with bit v-1 set.
   */
  lemma ConditionTriggerCodes(condition: Option<Cell>)
    requires IntOf(condition).Some? && 1 <= IntOf(condition).value <= 4
    ensures var k := IntOf(condition).value - 1;
      && ConditionTrigger(condition) == Some(TriggerGateway.OneHotChannels[k])
      && TriggerGateway.Utf8(TriggerGateway.Mapping[TriggerGateway.OneHotChannels[k]]) == [0x6D, 0x68, TriggerGateway.Pow2(k)]
  {
    var v := IntOf(condition).value;
    ConditionChannel(v);
    TriggerGateway.OneHotCodes(v - 1);
  }

  lemma ConditionChannel(v: int)
    requires 1 <= v <= 4
    ensures v in ConditionMap && ConditionMap[v] == TriggerGateway.OneHotChannels[v - 1]
  {
    if v == 1 { assert ConditionMap[1] == "ch160"; }
    else if v == 2 { assert ConditionMap[2] == "ch161"; }
    else if v == 3 { assert ConditionMap[3] == "ch162"; }
    else { assert ConditionMap[4] == "ch163"; }
  }

  /** Python's `range(start, stop, step)` for a positive step. */
  function PyRange(start: int, stop: int, step: int): seq<int>
    requires step > 0
    decreases stop - start
  {
    if start >= stop then [] else [start] + PyRange(start + step, stop, step)
  }

  lemma {:induction false} PyRangeIsSeries(lo: int, hi: int, step: int)
    requires step > 0
    ensures PyRange(lo, hi + 1, step) == Online.Series(lo, hi, step)
    decreases hi - lo + step
  {
    if lo <= hi {
      PyRangeIsSeries(lo + step, hi, step);
    }
  }

  /**
   * `_make_jitter_values()`: range(min, max + 1, step). It is the list the online
   * version builds: 300, 310, ..., 700, 41 values in ascending order.
   */
  function JitterValues(): (r: seq<int>)
    ensures r == Online.Series(Online.JitterMin, Online.JitterMax, Online.JitterStep)
    ensures |r| == 41 && forall i :: 0 <= i < 41 ==> r[i] == 300 + 10 * i
  {
    PyRangeIsSeries(JitterMinMs, JitterMaxMs, JitterStepMs);
    Online.JitterSeriesValues();
    PyRange(JitterMinMs, JitterMaxMs + 1, JitterStepMs)
  }

  /** CONFIG['jitter'] in milliseconds. */
  const JitterMinMs: int := 300
  const JitterMaxMs: int := 700
  const JitterStepMs: int := 10

  type Period = r: real | r > 0.0 witness 1.0

  /** The dialog's choices, the monitor's frame period and the size of the fun-fact table. */
  datatype Config = Config(participant: string, autoRespond: bool, useFrameRate: bool, framePeriodMs: Period, funFacts: nat)

  /** `int(timing / frame_period_ms) + 1`. */
  function Frames(timing: nat, periodMs: Period): (f: nat)
    ensures f >= 1
  {
    var x := timing as real / periodMs;
    assert x >= 0.0;
    x.Floor + 1
  }

  /** `sendTrigger` runs only for a truthy trigger: a channel name that is not empty. */
  function PulseFor(trigger: Option<string>): (e: seq<Event>)
    ensures |e| <= 1
  {
    if trigger.Some? && trigger.value != "" then [Pulse(trigger.value)] else []
  }

  /** The first k passes of a frame loop: each flips `c` with the photodiode; pass 0 then sends the trigger. */
  function FrameEvents(c: Content, trigger: Option<string>, k: nat): seq<Event>
  {
    if k == 0 then []
    else FrameEvents(c, trigger, k - 1) + [Flip(c, true)] + (if k == 1 then PulseFor(trigger) else [])
  }

  /** In frame mode the trigger is sent at frame 0 only: once for a truthy trigger, else never. */
  lemma {:induction false} FramePulses(c: Content, trigger: Option<string>, k: nat)
    requires k >= 1
    ensures Pulses(FrameEvents(c, trigger, k)) == PulseFor(trigger)
    ensures |FrameEvents(c, trigger, k)| == k + |PulseFor(trigger)|
  {
    FrameStep(c, trigger, k);
    if k > 1 {
      FramePulses(c, trigger, k - 1);
    }
  }

  /** One more pass of the frame loop adds one flip, and the trigger on pass 0. */
  lemma FrameStep(c: Content, trigger: Option<string>, k: nat)
    requires k >= 1
    ensures Pulses(FrameEvents(c, trigger, k)) == Pulses(FrameEvents(c, trigger, k - 1)) + (if k == 1 then PulseFor(trigger) else [])
  {
    var prev := FrameEvents(c, trigger, k - 1);
    var extra := if k == 1 then PulseFor(trigger) else [];
    assert FrameEvents(c, trigger, k) == (prev + [Flip(c, true)]) + extra;
    PulsesAppend(prev + [Flip(c, true)], extra);
    PulsesAppend(prev, [Flip(c, true)]);
    PulsesOfFlips(c, true);
    PulseForPulses(trigger);
  }

  lemma PulseForPulses(trigger: Option<string>)
    ensures Pulses(PulseFor(trigger)) == PulseFor(trigger)
  {
    var e := PulseFor(trigger);
    if e != [] {
      assert e[..0] == [];
    }
  }

  /** What `present_stimulus` shows while `timing` runs: a frame loop, or one flip followed by the trigger. */
  function DisplayEvents(cfg: Config, text: string, timing: nat, trigger: Option<string>): seq<Event>
  {
    if timing == 0 then []
    else if cfg.useFrameRate then FrameEvents(Stimulus(text), trigger, Frames(timing, cfg.framePeriodMs))
    else [Flip(Stimulus(text), true)] + PulseFor(trigger)
  }

  /** A stimulus sends its trigger once when it has a timing and a truthy trigger, and otherwise never. */
  lemma DisplayPulses(cfg: Config, text: string, timing: nat, trigger: Option<string>)
    ensures Pulses(DisplayEvents(cfg, text, timing, trigger)) == if timing == 0 then [] else PulseFor(trigger)
  {
    if timing != 0 {
      if cfg.useFrameRate {
        FramePulses(Stimulus(text), trigger, Frames(timing, cfg.framePeriodMs));
      } else {
        PulsesAppend([Flip(Stimulus(text), true)], PulseFor(trigger));
        PulsesOfFlips(Stimulus(text), true);
        var e := PulseFor(trigger);
        if e != [] {
          assert Pulses(e) == Pulses(e[..0]) + [e[0]];
        }
      }
    }
  }

  /**
   * `present_stimulus(text, timing, trigger, keys)`. With auto-respond and keys
   * it only displays and draws `randint(1, 2)` and `uniform(0.4, 0.6)`;
   * otherwise, when keys are given, the screen is blanked after a timed display
   * and a key of keys + ['p', 'q'] is awaited, whose control meaning is then
   * handled. Without keys nothing is awaited.
   */
  function StimulusShown(cfg: Config, rng: nat -> nat, io: Io, text: string, timing: nat,
                         trigger: Option<string>, keys: Option<seq<string>>): (s: Step)
    ensures keys.None? ==> s == Step(Running, io.(trace := io.trace + DisplayEvents(cfg, text, timing, trigger)), None)
    ensures keys.Some? && !cfg.autoRespond && s.status == Running ==>
      s.key.Some? && s.key.value in keys.value + [PauseKey, QuitKey]
    ensures keys.Some? && cfg.autoRespond ==> s.status == Running && (s.key == Some("1") || s.key == Some("2"))
    ensures s.status == Running || s.status == Quitted || s.status == Stalled
    ensures s.status == Quitted ==> EndsOnEndText(s.io.trace)
  {
    Answered(cfg, rng, io.(trace := io.trace + DisplayEvents(cfg, text, timing, trigger)), timing, keys)
  }

  /** The part of `present_stimulus` after the timed display: the simulated key, or the blank and the awaited key. */
  function Answered(cfg: Config, rng: nat -> nat, io: Io, timing: nat, keys: Option<seq<string>>): (s: Step)
    ensures keys.None? ==> s == Step(Running, io, None)
    ensures keys.Some? && !cfg.autoRespond && s.status == Running ==>
      s.key.Some? && s.key.value in keys.value + [PauseKey, QuitKey]
    ensures keys.Some? && cfg.autoRespond ==> s.status == Running && (s.key == Some("1") || s.key == Some("2"))
    ensures s.status == Running || s.status == Quitted || s.status == Stalled
    ensures s.status == Quitted ==> EndsOnEndText(s.io.trace)
  {
    if keys.None? then Step(Running, io, None)
    else if cfg.autoRespond then
      Step(Running, io.(drawn := io.drawn + 2), Some(if rng(io.drawn) % 2 == 0 then "1" else "2"))
    else
      var io1 := io.(trace := io.trace + (if timing != 0 then [Flip(Blank, false)] else []));
      match FirstAllowed(io1.keys, keys.value + [PauseKey, QuitKey])
      case None => Step(Stalled, io1.(keys := []), None)
      case Some((k, rest)) => Resolved(io1.(keys := rest), k)
  }

  /** `present_stimulus` sends exactly the trigger it was given (once), and only while a timing runs. */
  lemma StimulusPulses(cfg: Config, rng: nat -> nat, io: Io, text: string, timing: nat,
                       trigger: Option<string>, keys: Option<seq<string>>)
    ensures Pulses(StimulusShown(cfg, rng, io, text, timing, trigger, keys).io.trace)
         == Pulses(io.trace) + if timing == 0 then [] else PulseFor(trigger)
  {
    var d := DisplayEvents(cfg, text, timing, trigger);
    PulsesAppend(io.trace, d);
    DisplayPulses(cfg, text, timing, trigger);
    AnsweredPulses(cfg, rng, io.(trace := io.trace + d), timing, keys);
  }

  /** Waiting for the answer sends no trigger. */
  lemma AnsweredPulses(cfg: Config, rng: nat -> nat, io: Io, timing: nat, keys: Option<seq<string>>)
    ensures Pulses(Answered(cfg, rng, io, timing, keys).io.trace) == Pulses(io.trace)
  {
    if !cfg.autoRespond && keys.Some? {
      var blank := if timing != 0 then [Flip(Blank, false)] else [];
      var io1 := io.(trace := io.trace + blank);
      PulsesAppend(io.trace, blank);
      if timing != 0 {
        PulsesOfFlips(Blank, false);
      }
      match FirstAllowed(io1.keys, keys.value + [PauseKey, QuitKey])
      case None =>
      case Some((k, rest)) => ResolvedNoPulses(io1.(keys := rest), k);
    }
  }

  /** The feedback loop: `Frames(500)` flips of "Correct"/"Wrong" with the photodiode, or one flip. */
  function FeedbackEvents(cfg: Config, correct: bool): seq<Event>
  {
    if cfg.useFrameRate then FrameEvents(Feedback(correct), None, Frames(FeedbackMs, cfg.framePeriodMs))
    else [Flip(Feedback(correct), true)]
  }

  lemma FeedbackNoPulses(cfg: Config, correct: bool)
    ensures Pulses(FeedbackEvents(cfg, correct)) == []
  {
    if cfg.useFrameRate {
      FramePulses(Feedback(correct), None, Frames(FeedbackMs, cfg.framePeriodMs));
    } else {
      PulsesOfFlips(Feedback(correct), true);
    }
  }

  /** The row logged for a trial besides the common fields: its jitter and its table columns. */
  datatype Logged = Logged(jitter: int, trial: Trial)

  /** The four timed screens before the probe: fixation, blank, the sentence with the condition's trigger, blank. */
  function PreludeEvents(cfg: Config, t: Trial): seq<Event>
  {
    DisplayEvents(cfg, "+", MaskMs, None) + DisplayEvents(cfg, "", Mask2Ms, None)
    + DisplayEvents(cfg, t.sentence, PrimeMs, ConditionTrigger(t.condition)) + DisplayEvents(cfg, "", Mask3Ms, None)
  }

  /**
   * What follows an answered probe: `random.choice(jitter_values)`, the practice
   * feedback for a '1' or '2', the jitter blank, scoring, logging and
   * `trial_num += 1`.
   */
  function Scored(cfg: Config, rng: nat -> nat, st: St<Logged>, t: Trial,
                  response: Option<string>, practiceFeedback: bool): St<Logged>
  {
    var io := st.io;
    var jitter := JitterValues()[rng(io.drawn) % 41];
    var correct := IsCorrectResponse(t, response);
    var fb := if practiceFeedback && (response == Some("1") || response == Some("2")) then FeedbackEvents(cfg, correct) else [];
    var io1 := io.(trace := io.trace + fb + DisplayEvents(cfg, "", jitter, None), drawn := io.drawn + 1);
    var entry := Entry(cfg.participant, st.trialNum, st.blockNum, response, correct, Logged(jitter, t));
    St(io1, st.trialNum + 1, st.totalCorrect + (if correct then 1 else 0), st.blockNum, st.handler,
       if st.handler then st.log + [entry] else st.log)
  }

  /**
   * One pass of `run_block`'s loop: the prelude screens, the probe with the
   * response keys, then the scoring steps. Quitting (or a key that never comes)
   * at the probe ends the run there.
   */
  function TrialRun(cfg: Config, rng: nat -> nat, st: St<Logged>, t: Trial, practiceFeedback: bool): (Status, St<Logged>)
  {
    var io := st.io.(trace := st.io.trace + PreludeEvents(cfg, t));
    var p := StimulusShown(cfg, rng, io, t.probe, TargetMs, None, Some(ResponseKeys));
    if p.status != Running then (p.status, st.(io := p.io))
    else (Running, Scored(cfg, rng, st.(io := p.io), t, p.key, practiceFeedback))
  }

  /**
   * A completed trial adds 1 to trial_num, 0 or 1 to total_correct and (with a
   * log) one entry recording this trial's number, block, response and score.
   */
  lemma ScoredCounts(cfg: Config, rng: nat -> nat, st: St<Logged>, t: Trial, response: Option<string>, fb: bool)
    ensures var st2 := Scored(cfg, rng, st, t, response, fb);
      && Advanced(st, st2, 1)
      && (st.handler ==> st2.log[|st.log|].response == response && st2.log[|st.log|].correct == IsCorrectResponse(t, response)
                          && st2.log[|st.log|].extra.trial == t)
  {
    var st2 := Scored(cfg, rng, st, t, response, fb);
    if st.handler {
      var e := st2.log[|st.log|];
      assert st2.log == st.log + [e];
      CountCorrectAppend(st.log, [e]);
      assert [e][..0] == [];
    }
  }

  /** A trial either completes (counted as above) or ends the session with the counters untouched. */
  lemma TrialCounts(cfg: Config, rng: nat -> nat, st: St<Logged>, t: Trial, fb: bool)
    ensures var r := TrialRun(cfg, rng, st, t, fb);
      && (r.0 == Running || r.0 == Quitted || r.0 == Stalled)
      && Advanced(st, r.1, if r.0 == Running then 1 else 0)
      && (r.0 == Running && st.handler ==> r.1.log[|st.log|].extra.trial == t)
  {
    var io := st.io.(trace := st.io.trace + PreludeEvents(cfg, t));
    var p := StimulusShown(cfg, rng, io, t.probe, TargetMs, None, Some(ResponseKeys));
    if p.status == Running {
      ScoredCounts(cfg, rng, st.(io := p.io), t, p.key, fb);
    }
  }

  lemma PreludePulses(cfg: Config, t: Trial)
    ensures Pulses(PreludeEvents(cfg, t)) == PulseFor(ConditionTrigger(t.condition))
  {
    var trigger := ConditionTrigger(t.condition);
    var a := DisplayEvents(cfg, "+", MaskMs, None);
    var b := DisplayEvents(cfg, "", Mask2Ms, None);
    var c := DisplayEvents(cfg, t.sentence, PrimeMs, trigger);
    var d := DisplayEvents(cfg, "", Mask3Ms, None);
    assert Pulses(a) == [] by { DisplayPulses(cfg, "+", MaskMs, None); }
    assert Pulses(b) == [] by { DisplayPulses(cfg, "", Mask2Ms, None); }
    assert Pulses(c) == PulseFor(trigger) by { DisplayPulses(cfg, t.sentence, PrimeMs, trigger); }
    assert Pulses(d) == [] by { DisplayPulses(cfg, "", Mask3Ms, None); }
    OnlyThirdPulses(a, b, c, d);
  }

  lemma OnlyThirdPulses(a: seq<Event>, b: seq<Event>, c: seq<Event>, d: seq<Event>)
    requires Pulses(a) == [] && Pulses(b) == [] && Pulses(d) == []
    ensures Pulses(a + b + c + d) == Pulses(c)
  {
    PulsesAppend(a, b);
    PulsesAppend(a + b, c);
    PulsesAppend(a + b + c, d);
    assert [] + [] + Pulses(c) + [] == Pulses(c);
  }

  /** The only trigger of a trial is the sentence's: one event for a mapped condition, none otherwise. */
  lemma TrialPulses(cfg: Config, rng: nat -> nat, st: St<Logged>, t: Trial, fb: bool)
    ensures Pulses(TrialRun(cfg, rng, st, t, fb).1.io.trace) == Pulses(st.io.trace) + PulseFor(ConditionTrigger(t.condition))
  {
    var io := st.io.(trace := st.io.trace + PreludeEvents(cfg, t));
    PulsesAppend(st.io.trace, PreludeEvents(cfg, t));
    PreludePulses(cfg, t);
    StimulusPulses(cfg, rng, io, t.probe, TargetMs, None, Some(ResponseKeys));
    var p := StimulusShown(cfg, rng, io, t.probe, TargetMs, None, Some(ResponseKeys));
    if p.status == Running {
      ScoredPulses(cfg, rng, st.(io := p.io), t, p.key, fb);
    }
  }

  lemma ScoredPulses(cfg: Config, rng: nat -> nat, st: St<Logged>, t: Trial, response: Option<string>, fb: bool)
    ensures Pulses(Scored(cfg, rng, st, t, response, fb).io.trace) == Pulses(st.io.trace)
  {
    var io := st.io;
    var jitter := JitterValues()[rng(io.drawn) % 41];
    var correct := IsCorrectResponse(t, response);
    var f := if fb && (response == Some("1") || response == Some("2")) then FeedbackEvents(cfg, correct) else [];
    var d := DisplayEvents(cfg, "", jitter, None);
    assert Scored(cfg, rng, st, t, response, fb).io.trace == io.trace + f + d;
    assert Pulses(f) == [] by {
      if f != [] {
        FeedbackNoPulses(cfg, correct);
      }
    }
    assert Pulses(d) == [] by {
      DisplayPulses(cfg, "", jitter, None);
    }
    NoPulsesAdded(io.trace, f, d);
  }

  lemma NoPulsesAdded(a: seq<Event>, f: seq<Event>, d: seq<Event>)
    requires Pulses(f) == [] && Pulses(d) == []
    ensures Pulses(a + f + d) == Pulses(a)
  {
    PulsesAppend(a, f);
    PulsesAppend(a + f, d);
  }

  /**
   * The pause quirk: a 'p' at the probe shows the pause and progress screens,
   * then the trial completes with 'p' as its response, scored wrong; the probe
   * is not asked again.
   */
  lemma PauseAtProbeScoredWrong(cfg: Config, rng: nat -> nat, st: St<Logged>, t: Trial, fb: bool, rest: seq<string>)
    requires !cfg.autoRespond
    requires st.io.keys == [PauseKey, ContinueKey, DifferentKey] + rest
    ensures var r := TrialRun(cfg, rng, st, t, fb);
      && r.0 == Running
      && r.1.trialNum == st.trialNum + 1 && r.1.totalCorrect == st.totalCorrect
      && r.1.io.keys == rest
      && (st.handler ==> r.1.log == st.log + [Entry(cfg.participant, st.trialNum, st.blockNum, Some(PauseKey), false,
                                                   Logged(JitterValues()[rng(st.io.drawn) % 41], t))])
  {
    var keys := st.io.keys;
    assert FirstAllowed(keys, ResponseKeys + [PauseKey, QuitKey]) == Some((PauseKey, keys[1..]));
    assert keys[1..] == [ContinueKey, DifferentKey] + rest;
    assert ([ContinueKey, DifferentKey] + rest)[1..] == [DifferentKey] + rest;
    assert FirstAllowed(keys[1..], [ContinueKey]) == Some((ContinueKey, [DifferentKey] + rest));
    assert ([DifferentKey] + rest)[1..] == rest;
    assert FirstAllowed([DifferentKey] + rest, ButtonKeys) == Some((DifferentKey, rest));
  }

  /** `run_block(block_data, show_practice_feedback)`: the trials in order until one ends the session. */
  function BlockRun(cfg: Config, rng: nat -> nat, st: St<Logged>, trials: seq<Trial>, fb: bool): (r: (Status, St<Logged>))
    decreases |trials|
  {
    if trials == [] then (Running, st)
    else
      var r := TrialRun(cfg, rng, st, trials[0], fb);
      if r.0 != Running then r else BlockRun(cfg, rng, r.1, trials[1..], fb)
  }

  /** A block completes all of its trials, or stops early with the session. */
  lemma {:induction false} BlockCounts(cfg: Config, rng: nat -> nat, st: St<Logged>, trials: seq<Trial>, fb: bool)
    ensures var r := BlockRun(cfg, rng, st, trials, fb);
      && (r.0 == Running || r.0 == Quitted || r.0 == Stalled)
      && Advanced(st, r.1, r.1.trialNum - st.trialNum)
      && r.1.trialNum - st.trialNum <= |trials|
      && (r.0 == Running ==> r.1.trialNum == st.trialNum + |trials|)
    decreases |trials|
  {
    if trials != [] {
      var r := TrialRun(cfg, rng, st, trials[0], fb);
      TrialCounts(cfg, rng, st, trials[0], fb);
      if r.0 == Running {
        BlockCounts(cfg, rng, r.1, trials[1..], fb);
        var r2 := BlockRun(cfg, rng, r.1, trials[1..], fb);
        AdvancedTrans(st, r.1, r2.1, 1, r2.1.trialNum - r.1.trialNum);
      }
    }
  }

  /** The log entries from index `from` on record `trials`, in order (fewer when the block stopped early). */
  predicate LogsRecord(log: seq<Entry<Logged>>, from: int, trials: seq<Trial>)
  {
    && 0 <= from <= |log| && |log| - from <= |trials|
    && forall k :: from <= k < |log| ==> log[k].extra.trial == trials[k - from]
  }

  /**
   * With a log, the entries a block adds record its trials in order: entry
   * |log| + k records trials[k], for each of the trials completed.
   */
  lemma {:induction false} BlockLogsTrials(cfg: Config, rng: nat -> nat, st: St<Logged>, trials: seq<Trial>, fb: bool)
    ensures var r := BlockRun(cfg, rng, st, trials, fb);
      st.handler ==> LogsRecord(r.1.log, |st.log|, trials)
    decreases |trials|
  {
    if trials != [] && st.handler {
      var r := TrialRun(cfg, rng, st, trials[0], fb);
      var n1 := if r.0 == Running then 1 else 0;
      assert && r.1.handler && |r.1.log| == |st.log| + n1 && r.1.log[..|st.log|] == st.log
             && (r.0 == Running ==> r.1.log[|st.log|].extra.trial == trials[0]) by {
        TrialCounts(cfg, rng, st, trials[0], fb);
      }
      if r.0 == Running {
        var r2 := BlockRun(cfg, rng, r.1, trials[1..], fb);
        assert |r.1.log| <= |r2.1.log| && r2.1.log[..|r.1.log|] == r.1.log by { BlockCounts(cfg, rng, r.1, trials[1..], fb); }
        BlockLogsTrials(cfg, rng, r.1, trials[1..], fb);
        LogsStep(st.log, r.1.log, r2.1.log, trials);
      }
    }
  }

  /** One logged trial followed by the entries of the rest of the block: together they record the whole block. */
  lemma LogsStep(log0: seq<Entry<Logged>>, log1: seq<Entry<Logged>>, log2: seq<Entry<Logged>>, trials: seq<Trial>)
    requires trials != [] && |log1| == |log0| + 1 && log1[|log0|].extra.trial == trials[0]
    requires |log1| <= |log2| && log2[..|log1|] == log1
    requires LogsRecord(log2, |log1|, trials[1..])
    ensures LogsRecord(log2, |log0|, trials)
  {
    forall k | |log0| <= k < |log2|
      ensures log2[k].extra.trial == trials[k - |log0|]
    {
      if k == |log0| {
        assert log2[k] == log2[..|log1|][k];
      } else {
        assert log2[k].extra.trial == trials[1..][k - |log1|];
      }
    }
  }

  /**
   * The main loop from block i + 1 on: set block_num, run the block, then (when
   * a trial has run at all, since the accuracy divides by trial_num) the
   * checkpoint screens. An exception in them is caught and the next block runs;
   * quitting ends the loop.
   */
  function MainRun(cfg: Config, rng: nat -> nat, st: St<Logged>, blocks: seq<seq<Trial>>, i: nat): (r: (Status, St<Logged>))
    requires i <= |blocks|
    decreases |blocks| - i
  {
    if i == |blocks| then (Running, st)
    else
      var r := BlockRun(cfg, rng, st.(blockNum := i + 1), blocks[i], false);
      if r.0 != Running then r
      else if r.1.trialNum == 0 then MainRun(cfg, rng, r.1, blocks, i + 1)
      else
        var a := CheckpointShown(r.1.io, i + 1, |blocks|, r.1.totalCorrect, r.1.trialNum, cfg.funFacts);
        if a.status == Quitted || a.status == Stalled then (a.status, r.1.(io := a.io))
        else MainRun(cfg, rng, r.1.(io := a.io), blocks, i + 1)
  }

  /** A block that ends in a quit has shown the end text last. */
  lemma {:induction false} BlockQuitEnds(cfg: Config, rng: nat -> nat, st: St<Logged>, trials: seq<Trial>, fb: bool)
    ensures var r := BlockRun(cfg, rng, st, trials, fb); r.0 == Quitted ==> EndsOnEndText(r.1.io.trace)
    decreases |trials|
  {
    if trials != [] {
      var r := TrialRun(cfg, rng, st, trials[0], fb);
      if r.0 == Running {
        BlockQuitEnds(cfg, rng, r.1, trials[1..], fb);
      }
    }
  }

  /** A main loop that ends in a quit, in a block or at a checkpoint, has shown the end text last. */
  lemma {:induction false} MainQuitEnds(cfg: Config, rng: nat -> nat, st: St<Logged>, blocks: seq<seq<Trial>>, i: nat)
    requires i <= |blocks|
    ensures var r := MainRun(cfg, rng, st, blocks, i); r.0 == Quitted ==> EndsOnEndText(r.1.io.trace)
    decreases |blocks| - i
  {
    if i < |blocks| {
      var st1 := st.(blockNum := i + 1);
      BlockQuitEnds(cfg, rng, st1, blocks[i], false);
      var r := BlockRun(cfg, rng, st1, blocks[i], false);
      if r.0 == Running {
        if r.1.trialNum == 0 {
          MainQuitEnds(cfg, rng, r.1, blocks, i + 1);
        } else {
          var a := CheckpointShown(r.1.io, i + 1, |blocks|, r.1.totalCorrect, r.1.trialNum, cfg.funFacts);
          if !(a.status == Quitted || a.status == Stalled) {
            MainQuitEnds(cfg, rng, r.1.(io := a.io), blocks, i + 1);
          }
        }
      }
    }
  }

  /** The counters and the log stay consistent through the main loop, whatever the screens do. */
  lemma {:induction false} MainConsistent(cfg: Config, rng: nat -> nat, st: St<Logged>, blocks: seq<seq<Trial>>, i: nat)
    requires i <= |blocks| && Consistent(st)
    ensures var r := MainRun(cfg, rng, st, blocks, i);
      Consistent(r.1) && r.1.handler == st.handler && r.1.trialNum >= st.trialNum
    decreases |blocks| - i
  {
    if i < |blocks| {
      var st1 := st.(blockNum := i + 1);
      var r := BlockRun(cfg, rng, st1, blocks[i], false);
      BlockCounts(cfg, rng, st1, blocks[i], false);
      ConsistentAdvanced(st1, r.1, r.1.trialNum - st1.trialNum);
      if r.0 == Running {
        if r.1.trialNum == 0 {
          MainConsistent(cfg, rng, r.1, blocks, i + 1);
        } else {
          var a := CheckpointShown(r.1.io, i + 1, |blocks|, r.1.totalCorrect, r.1.trialNum, cfg.funFacts);
          if !(a.status == Quitted || a.status == Stalled) {
            MainConsistent(cfg, rng, r.1.(io := a.io), blocks, i + 1);
          }
        }
      }
    }
  }

  /**
   * Setup and practice instructions, then the practice block with feedback,
   * counters reset and logging off, and its summary (skipped when the practice
   * table is empty, as the division raises).
   */
  function PracticeRun(cfg: Config, rng: nat -> nat, st: St<Logged>, practice: seq<Trial>): (Status, St<Logged>)
  {
    var b := IntroShown(st.io, PracticeInstructions);
    if b.status != Running then (b.status, st.(io := b.io))
    else
      var p := BlockRun(cfg, rng, st.(io := b.io, trialNum := 0, totalCorrect := 0, handler := false), practice, true);
      if p.0 != Running || |practice| == 0 then p
      else
        var c := TextShown(p.1.io, PracticeSummary(p.1.totalCorrect, |practice|), AnyButtonKeys);
        (c.status, p.1.(io := c.io))
  }

  /**
   * Logging switched on for a participant id (before the screens), setup and
   * main instructions, counters reset, the main blocks, and the final screen
   * (the end text when no trial ran, as the division raises).
   */
  function MainPartRun(cfg: Config, rng: nat -> nat, st: St<Logged>, blocks: seq<seq<Trial>>): (Status, St<Logged>)
  {
    var logged := st.(handler := cfg.participant != "", log := []);
    var e := IntroShown(st.io, MainInstructions);
    if e.status != Running then (e.status, logged.(io := e.io))
    else
      var m := MainRun(cfg, rng, St(e.io, 0, 0, 1, cfg.participant != "", []), blocks, 0);
      if m.0 != Running then m
      else
        var f := if m.1.trialNum == 0 then TextShown(m.1.io, EndText, [ContinueKey])
                 else TextShown(m.1.io, FinalSummary(m.1.totalCorrect, m.1.trialNum), [ContinueKey]);
        (f.status, m.1.(io := f.io))
  }

  /** The whole session: the practice part, then the main part unless the session ended. */
  function SessionRun(cfg: Config, rng: nat -> nat, st: St<Logged>, practice: seq<Trial>, blocks: seq<seq<Trial>>): (Status, St<Logged>)
  {
    var p := PracticeRun(cfg, rng, st, practice);
    if p.0 == Quitted || p.0 == Stalled then p else MainPartRun(cfg, rng, p.1, blocks)
  }

  /**
   * Whichever screen the participant quits on (a setup or instruction screen,
   * a probe, the practice summary, a checkpoint), the last thing the session
   * shows is the end text.
   */
  lemma SessionQuitEndsOnEndText(cfg: Config, rng: nat -> nat, st: St<Logged>, practice: seq<Trial>, blocks: seq<seq<Trial>>)
    ensures var r := SessionRun(cfg, rng, st, practice, blocks); r.0 == Quitted ==> EndsOnEndText(r.1.io.trace)
  {
    PracticeQuitEnds(cfg, rng, st, practice);
    var p := PracticeRun(cfg, rng, st, practice);
    if !(p.0 == Quitted || p.0 == Stalled) {
      MainPartQuitEnds(cfg, rng, p.1, blocks);
    }
  }

  /** A practice part that ends in a quit has shown the end text last. */
  lemma PracticeQuitEnds(cfg: Config, rng: nat -> nat, st: St<Logged>, practice: seq<Trial>)
    ensures var r := PracticeRun(cfg, rng, st, practice); r.0 == Quitted ==> EndsOnEndText(r.1.io.trace)
  {
    var b := IntroShown(st.io, PracticeInstructions);
    if b.status == Running {
      BlockQuitEnds(cfg, rng, st.(io := b.io, trialNum := 0, totalCorrect := 0, handler := false), practice, true);
    }
  }

  /** A main part that ends in a quit has shown the end text last. */
  lemma MainPartQuitEnds(cfg: Config, rng: nat -> nat, st: St<Logged>, blocks: seq<seq<Trial>>)
    ensures var r := MainPartRun(cfg, rng, st, blocks); r.0 == Quitted ==> EndsOnEndText(r.1.io.trace)
  {
    var e := IntroShown(st.io, MainInstructions);
    if e.status == Running {
      MainQuitEnds(cfg, rng, St(e.io, 0, 0, 1, cfg.participant != "", []), blocks, 0);
    }
  }

  /** The practice part leaves consistent counters and no log, unless it ended before the reset. */
  lemma PracticeConsistent(cfg: Config, rng: nat -> nat, st: St<Logged>, practice: seq<Trial>)
    requires Consistent(st)
    ensures Consistent(PracticeRun(cfg, rng, st, practice).1)
  {
    var b := IntroShown(st.io, PracticeInstructions);
    var st0 := st.(io := b.io, trialNum := 0, totalCorrect := 0, handler := false);
    if b.status == Running {
      BlockCounts(cfg, rng, st0, practice, true);
      var p := BlockRun(cfg, rng, st0, practice, true);
      ConsistentAdvanced(st0, p.1, p.1.trialNum);
    }
  }

  /**
   * Once the main instructions are passed, the counters and the log stay
   * consistent however the session ends.
   */
  lemma MainPartConsistent(cfg: Config, rng: nat -> nat, st: St<Logged>, blocks: seq<seq<Trial>>)
    requires IntroShown(st.io, MainInstructions).status == Running
    ensures Consistent(MainPartRun(cfg, rng, st, blocks).1)
  {
    var e := IntroShown(st.io, MainInstructions);
    MainConsistent(cfg, rng, St(e.io, 0, 0, 1, cfg.participant != "", []), blocks, 0);
  }

  /**
   * A session that runs to its end leaves 0 <= total_correct <= trial_num and,
   * when a participant id was given, a log with exactly one entry per main
   * trial, numbered from 0, whose correct flags add up to total_correct. The
   * only way to end otherwise is to quit (or stall) with the new logger still
   * empty beside the practice's counters.
   */
  lemma SessionConsistent(cfg: Config, rng: nat -> nat, st: St<Logged>, practice: seq<Trial>, blocks: seq<seq<Trial>>)
    requires Consistent(st)
    ensures var r := SessionRun(cfg, rng, st, practice, blocks);
      && (r.0 == Running ==> Consistent(r.1))
      && (Consistent(r.1) || (r.0 != Running && r.1.log == [] && 0 <= r.1.totalCorrect <= r.1.trialNum))
  {
    PracticeConsistent(cfg, rng, st, practice);
    var p := PracticeRun(cfg, rng, st, practice);
    if !(p.0 == Quitted || p.0 == Stalled) {
      var e := IntroShown(p.1.io, MainInstructions);
      if e.status == Running {
        MainPartConsistent(cfg, rng, p.1, blocks);
      }
    }
  }

  /** The module-level state of the script: the session counters, the logger and the screen. */
  class Session {
    const screen: Screen
    const cfg: Config
    var trialNum: int
    var totalCorrect: int
    var blockNum: int
    var handler: bool
    var log: seq<Entry<Logged>>

    function State(): St<Logged>
      reads this, screen
    {
      St(screen.State(), trialNum, totalCorrect, blockNum, handler, log)
    }

    constructor (cfg: Config, keys: seq<string>, rng: nat -> nat)
      ensures this.cfg == cfg && screen.rng == rng && fresh(screen)
      ensures State() == St(Io(keys, [], 0), 0, 0, 0, false, [])
    {
      this.cfg := cfg;
      screen := new Screen(keys, rng);
      trialNum := 0;
      totalCorrect := 0;
      blockNum := 0;
      handler := false;
      log := [];
    }

    /** `for frameN in range(frames)`: flip, and after the first flip send the trigger. */
    method ShowFrames(c: Content, trigger: Option<string>, frames: nat)
      modifies screen`trace
      ensures screen.trace == old(screen.trace) + FrameEvents(c, trigger, frames)
    {
      var frameN := 0;
      while frameN < frames
        invariant frameN <= frames
        invariant screen.trace == old(screen.trace) + FrameEvents(c, trigger, frameN)
      {
        screen.Flip(c, true);
        if frameN == 0 && trigger.Some? && trigger.value != "" {
          screen.Pulse(trigger.value);
        }
        frameN := frameN + 1;
      }
    }

    /** The timed display of `present_stimulus`. */
    method Display(text: string, timing: nat, trigger: Option<string>)
      modifies screen`trace
      ensures screen.trace == old(screen.trace) + DisplayEvents(cfg, text, timing, trigger)
    {
      if timing != 0 {
        if cfg.useFrameRate {
          ShowFrames(Stimulus(text), trigger, Frames(timing, cfg.framePeriodMs));
        } else {
          screen.Flip(Stimulus(text), true);
          if trigger.Some? && trigger.value != "" {
            screen.Pulse(trigger.value);
          }
        }
      }
    }

    /** `present_stimulus(text, timing, trigger, keys)`. */
    method PresentStimulus(text: string, timing: nat, trigger: Option<string>, keys: Option<seq<string>>)
      returns (status: Status, response: Option<string>)
      modifies screen
      ensures Step(status, screen.State(), response) ==
              StimulusShown(cfg, screen.rng, old(screen.State()), text, timing, trigger, keys)
    {
      Display(text, timing, trigger);
      assert screen.State() == old(screen.State()).(trace := old(screen.trace) + DisplayEvents(cfg, text, timing, trigger));
      status, response := Answer(timing, keys);
    }

    /** The simulated answer, or the blank screen, the awaited key and its control meaning. */
    method Answer(timing: nat, keys: Option<seq<string>>) returns (status: Status, response: Option<string>)
      modifies screen
      ensures Step(status, screen.State(), response) == Answered(cfg, screen.rng, old(screen.State()), timing, keys)
    {
      if keys.None? {
        return Running, None;
      }
      if cfg.autoRespond {
        var r := screen.Draw(2);
        var rt := screen.Draw(1);
        return Running, Some(if r == 0 then "1" else "2");
      }
      ghost var io := screen.State();
      if timing != 0 {
        screen.Flip(Blank, false);
      }
      assert screen.State() == io.(trace := io.trace + (if timing != 0 then [Flip(Blank, false)] else []));
      response := screen.WaitKeys(keys.value + [PauseKey, QuitKey]);
      if response.None? {
        return Stalled, None;
      }
      status := screen.Resolve(response.value);
    }

    /** `present_stimulus(text, timing, trigger)` without keys: a timed display and nothing else. */
    method PresentTimed(text: string, timing: nat, trigger: Option<string>)
      modifies screen
      ensures screen.State() == old(screen.State()).(trace := old(screen.trace) + DisplayEvents(cfg, text, timing, trigger))
    {
      var status, ignored := PresentStimulus(text, timing, trigger, None);
    }

    /** The four timed screens before the probe. */
    method Prelude(t: Trial)
      modifies screen
      ensures screen.State() == old(screen.State()).(trace := old(screen.trace) + PreludeEvents(cfg, t))
    {
      ghost var t0 := screen.trace;
      ghost var a := DisplayEvents(cfg, "+", MaskMs, None);
      ghost var b := DisplayEvents(cfg, "", Mask2Ms, None);
      ghost var c := DisplayEvents(cfg, t.sentence, PrimeMs, ConditionTrigger(t.condition));
      ghost var d := DisplayEvents(cfg, "", Mask3Ms, None);
      PresentTimed("+", MaskMs, None);
      PresentTimed("", Mask2Ms, None);
      PresentTimed(t.sentence, PrimeMs, ConditionTrigger(t.condition));
      PresentTimed("", Mask3Ms, None);
      assert screen.trace == t0 + a + b + c + d;
      assert t0 + a + b + c + d == t0 + (a + b + c + d);
    }

    /** The practice feedback: "Correct" or "Wrong" for 500 ms. */
    method ShowFeedback(correct: bool)
      modifies screen`trace
      ensures screen.trace == old(screen.trace) + FeedbackEvents(cfg, correct)
    {
      if cfg.useFrameRate {
        ShowFrames(Feedback(correct), None, Frames(FeedbackMs, cfg.framePeriodMs));
      } else {
        screen.Flip(Feedback(correct), true);
      }
    }

    /** The jitter draw, the practice feedback, the jitter blank, scoring, logging and `trial_num += 1`. */
    method Score(t: Trial, response: Option<string>, practiceFeedback: bool)
      modifies this, screen
      ensures State() == Scored(cfg, screen.rng, old(State()), t, response, practiceFeedback)
    {
      ghost var io := screen.State();
      var pick := screen.Draw(41);
      var jitter := JitterValues()[pick];
      var correct := IsCorrectResponse(t, response);
      ghost var fb: seq<Event> := [];
      if practiceFeedback && (response == Some("1") || response == Some("2")) {
        ShowFeedback(correct);
        fb := FeedbackEvents(cfg, correct);
      }
      assert screen.State() == io.(trace := io.trace + fb, drawn := io.drawn + 1);
      PresentTimed("", jitter, None);
      assert screen.State() == io.(trace := io.trace + fb + DisplayEvents(cfg, "", jitter, None), drawn := io.drawn + 1);
      totalCorrect := totalCorrect + if correct then 1 else 0;
      if handler {
        log := log + [Entry(cfg.participant, trialNum, blockNum, response, correct, Logged(jitter, t))];
      }
      trialNum := trialNum + 1;
    }

    /** One pass of `run_block`'s loop. */
    method RunTrial(t: Trial, practiceFeedback: bool) returns (status: Status)
      modifies this, screen
      ensures (status, State()) == TrialRun(cfg, screen.rng, old(State()), t, practiceFeedback)
    {
      Prelude(t);
      var response;
      status, response := PresentStimulus(t.probe, TargetMs, None, Some(ResponseKeys));
      if status == Running {
        Score(t, response, practiceFeedback);
      }
    }

    /** `run_block(block_data, show_practice_feedback)`. */
    method RunBlock(trials: seq<Trial>, practiceFeedback: bool) returns (status: Status)
      modifies this, screen
      ensures (status, State()) == BlockRun(cfg, screen.rng, old(State()), trials, practiceFeedback)
    {
      status := Running;
      var i := 0;
      while i < |trials|
        invariant 0 <= i <= |trials| && status == Running
        invariant BlockRun(cfg, screen.rng, State(), trials[i..], practiceFeedback)
               == BlockRun(cfg, screen.rng, old(State()), trials, practiceFeedback)
      {
        ghost var before := State();
        assert trials[i..][1..] == trials[i + 1..];
        status := RunTrial(trials[i], practiceFeedback);
        if status != Running {
          return;
        }
        i := i + 1;
      }
    }

    /** One pass of the main loop: block_num, the block, and the checkpoint screens when a trial has run. */
    method RunMainBlock(blocks: seq<seq<Trial>>, i: nat) returns (status: Status)
      requires i < |blocks|
      modifies this, screen
      ensures status == Running || status == Quitted || status == Stalled
      ensures status == Running ==> MainRun(cfg, screen.rng, old(State()), blocks, i) == MainRun(cfg, screen.rng, State(), blocks, i + 1)
      ensures status != Running ==> MainRun(cfg, screen.rng, old(State()), blocks, i) == (status, State())
    {
      blockNum := i + 1;
      status := RunBlock(blocks[i], false);
      BlockCounts(cfg, screen.rng, old(State()).(blockNum := i + 1), blocks[i], false);
      if status == Running && trialNum != 0 {
        status := screen.Checkpoint(i + 1, |blocks|, totalCorrect, trialNum, cfg.funFacts);
        if status == Fault {
          status := Running;
        }
      }
    }

    /** The main `for block_num, block in enumerate(blocks, start=1)` loop. */
    method RunMain(blocks: seq<seq<Trial>>) returns (status: Status)
      modifies this, screen
      ensures (status, State()) == MainRun(cfg, screen.rng, old(State()), blocks, 0)
    {
      status := Running;
      var i := 0;
      while i < |blocks|
        invariant 0 <= i <= |blocks| && status == Running
        invariant MainRun(cfg, screen.rng, State(), blocks, i) == MainRun(cfg, screen.rng, old(State()), blocks, 0)
      {
        status := RunMainBlock(blocks, i);
        if status != Running {
          return;
        }
        i := i + 1;
      }
    }

    /** Setup and practice instructions, the practice block and its summary. */
    method RunPractice(practice: seq<Trial>) returns (status: Status)
      modifies this, screen
      ensures (status, State()) == PracticeRun(cfg, screen.rng, old(State()), practice)
    {
      var ignored;
      status, ignored := screen.PresentIntro(PracticeInstructions);
      if status != Running {
        return;
      }
      trialNum := 0;
      totalCorrect := 0;
      handler := false;
      status := RunBlock(practice, true);
      if status != Running || |practice| == 0 {
        return;
      }
      status, ignored := screen.PresentText(PracticeSummary(totalCorrect, |practice|), AnyButtonKeys);
    }

    /** The main part: instructions, the blocks and the final screen. */
    method RunMainPart(blocks: seq<seq<Trial>>) returns (status: Status)
      modifies this, screen
      ensures (status, State()) == MainPartRun(cfg, screen.rng, old(State()), blocks)
    {
      handler := cfg.participant != "";
      log := [];
      var ignored;
      status, ignored := screen.PresentIntro(MainInstructions);
      if status != Running {
        return;
      }
      trialNum := 0;
      blockNum := 1;
      totalCorrect := 0;
      status := RunMain(blocks);
      if status != Running {
        return;
      }
      if trialNum == 0 {
        status, ignored := screen.PresentText(EndText, [ContinueKey]);
      } else {
        status, ignored := screen.PresentText(FinalSummary(totalCorrect, trialNum), [ContinueKey]);
      }
    }

    /** The script's top level from the first setup screen to the final screen. */
    method Run(practice: seq<Trial>, blocks: seq<seq<Trial>>) returns (status: Status)
      modifies this, screen
      ensures (status, State()) == SessionRun(cfg, screen.rng, old(State()), practice, blocks)
    {
      status := RunPractice(practice);
      if status == Quitted || status == Stalled {
        return;
      }
      status := RunMainPart(blocks);
    }
  }
}
