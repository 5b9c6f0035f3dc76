/**
 * The lab script (experiment.py): scoring against a `correct_response` column,
 * the trigger of a trial's condition, `present_stimulus` with its trigger list,
 * `run_block`, the main block loop with its checkpoints and the whole session,
 * over the screens of module Presenter. Unlike the in-person script, every
 * timed screen is one flip with the photodiode followed by a blank flip, and a
 * missing column raises inside `run_block`, where the caller's `except` catches it.
 */
module Lab {
  import opened Wrappers
  import opened PyText
  import opened Presenter
  import TriggerGateway

  /** ONSET and OFFSET in milliseconds; they only set how long a screen stays up. */
  const OnsetMs: nat := 300
  const OffsetMs: nat := 500

  /** A row of the stimulus table: the two stimuli and the optional condition and correct_response cells. */
  datatype Trial = Trial(stimulus1: string, stimulus2: string, condition: Option<Cell>, correctResponse: Option<Cell>)

  /** `condition_map_1`. */
  const ConditionMap: map<string, string> :=
    map["condition_A" := "ch160", "condition_B" := "ch161", "condition_C" := "ch162", "condition_D" := "ch163"]

  /**
   * `condition_map_1.get(trial['condition'])`: only a text cell spelling one of
   * the four names exactly selects a channel, and that channel is one the
   * trigger gateway knows.
   */
  function ConditionTrigger(condition: Cell): (ch: Option<string>)
    ensures ch.Some? <==> condition.TextCell? && condition.s in ConditionMap
    ensures ch.Some? ==> ch.value in TriggerGateway.Mapping
  {
    if condition.TextCell? && condition.s in ConditionMap then
      assert ConditionMap[condition.s] in TriggerGateway.Mapping by {
        TriggerGateway.MappingShape();
      }
      Some(ConditionMap[condition.s])
    else None
  }

  /** The names of conditions A to D. */
  const ConditionNames: seq<string> := ["condition_A", "condition_B", "condition_C", "condition_D"]

  /** condition_A .. condition_D select ch160 .. ch163, which put 'mh' and a byte with bit 0 .. 3 set on the wire. */
  lemma ConditionTriggerCodes(k: nat)
    requires k < 4
    ensures ConditionTrigger(TextCell(ConditionNames[k])) == Some(TriggerGateway.OneHotChannels[k])
    ensures TriggerGateway.Utf8(TriggerGateway.Mapping[TriggerGateway.OneHotChannels[k]]) == [0x6D, 0x68, TriggerGateway.Pow2(k)]
  {
    TriggerGateway.OneHotCodes(k);
    assert ConditionNames[k] in ConditionMap && ConditionMap[ConditionNames[k]] == TriggerGateway.OneHotChannels[k];
  }

  /**
   * `is_correct_response(trial, response)`: `trial['correct_response'] == response`.
   * A text cell equals the key it spells; a number, NaN or boolean never equals a
   * key string, so such a column scores every answer wrong.
   */
  function IsCorrectResponse(cell: Cell, response: Option<string>): (c: bool)
    ensures c <==> response.Some? && cell == TextCell(response.value)
  {
    match cell
    case TextCell(s) => response == Some(s)
    case _ => false
  }

  /** The `trigger` argument of `present_stimulus`: None, one channel name, or a list or tuple of them. */
  datatype TriggerArg = NoTrigger | Channel(name: string) | Channels(names: seq<Option<string>>)

  /** `for t in triggers: if t is not None: sendTrigger(t)`. */
  function ListPulses(names: seq<Option<string>>): (e: seq<Event>)
    ensures |e| <= |names|
  {
    if names == [] then []
    else ListPulses(names[..|names| - 1]) + (if names[|names| - 1].Some? then [Pulse(names[|names| - 1].value)] else [])
  }

  /** The triggers sent after the onset flip: none for a falsy trigger, else each listed channel in order. */
  function TriggerEvents(trigger: TriggerArg): seq<Event>
  {
    match trigger
    case NoTrigger => []
    case Channel(name) => if name != "" then [Pulse(name)] else []
    case Channels(names) => ListPulses(names)
  }

  lemma {:induction false} ListPulsesAppend(names: seq<Option<string>>, more: seq<Option<string>>)
    ensures ListPulses(names + more) == ListPulses(names) + ListPulses(more)
    decreases |more|
  {
    if more == [] {
      assert names + more == names;
    } else {
      assert (names + more)[..|names + more| - 1] == names + more[..|more| - 1];
      ListPulsesAppend(names, more[..|more| - 1]);
    }
  }

  /** The list loop sends one trigger per element that is not None, in list order, and nothing else. */
  lemma {:induction false} ListPulsesSpec(names: seq<Option<string>>, c: string)
    ensures Pulses(ListPulses(names)) == ListPulses(names)
    ensures Pulse(c) in ListPulses(names) <==> Some(c) in names
    decreases |names|
  {
    if names != [] {
      var init, last := names[..|names| - 1], names[|names| - 1];
      var e := if last.Some? then [Pulse(last.value)] else [];
      assert ListPulses(names) == ListPulses(init) + e;
      ListPulsesSpec(init, c);
      assert Pulses(ListPulses(names)) == ListPulses(names) by {
        PulsesAppend(ListPulses(init), e);
        if last.Some? {
          assert e[..0] == [];
        }
      }
      assert Some(c) in names <==> Some(c) in init || last == Some(c) by {
        assert names == init + [last];
      }
    }
  }

  /** A single channel is sent exactly as the one-element list holding it. */
  lemma ChannelIsOneElementList(name: string)
    requires name != ""
    ensures TriggerEvents(Channel(name)) == TriggerEvents(Channels([Some(name)]))
  {
    assert [Some(name)][..0] == [];
  }

  /** The trigger of a trial's first stimulus as `present_stimulus` receives it. */
  function TriggerOf(trigger: Option<string>): TriggerArg
  {
    if trigger.Some? then Channel(trigger.value) else NoTrigger
  }

  /** One timed screen: the stimulus with the photodiode, its triggers, then the blank flip at its end. */
  function Displayed(text: string, trigger: TriggerArg): seq<Event>
  {
    [Flip(Stimulus(text), true)] + TriggerEvents(trigger) + [Flip(Blank, false)]
  }

  lemma DisplayedPulses(text: string, trigger: TriggerArg)
    ensures Pulses(Displayed(text, trigger)) == TriggerEvents(trigger)
  {
    var e := TriggerEvents(trigger);
    PulsesAppend([Flip(Stimulus(text), true)] + e, [Flip(Blank, false)]);
    PulsesAppend([Flip(Stimulus(text), true)], e);
    PulsesOfFlips(Stimulus(text), true);
    PulsesOfFlips(Blank, false);
    match trigger
    case NoTrigger =>
    case Channel(name) =>
      if name != "" {
        assert e[..0] == [];
      }
    case Channels(names) =>
      ListPulsesSpec(names, "");
  }

  /**
   * `present_stimulus(text, timing, trigger, keys)`. With auto-respond and keys it
   * draws `randint(1, 2)` and `uniform(0.4, 0.6)` and answers at once; otherwise,
   * with keys, it awaits a key of keys + ['p', 'q'] and handles its control
   * meaning. Without keys nothing is awaited.
   */
  function StimulusShown(auto: bool, rng: nat -> nat, io: Io, text: string, trigger: TriggerArg,
                         keys: Option<seq<string>>): (s: Step)
    ensures Extends(s.io.trace, io.trace + Displayed(text, trigger))
    ensures keys.None? ==> s == Step(Running, io.(trace := io.trace + Displayed(text, trigger)), None)
    ensures keys.Some? && !auto && s.status == Running ==>
      s.key.Some? && s.key.value in keys.value + [PauseKey, QuitKey]
    ensures keys.Some? && auto ==> s.status == Running && (s.key == Some("1") || s.key == Some("2"))
    ensures s.status == Running || s.status == Quitted || s.status == Stalled
    ensures s.status == Quitted ==> EndsOnEndText(s.io.trace)
  {
    Answered(auto, rng, io.(trace := io.trace + Displayed(text, trigger)), keys)
  }

  /** The part of `present_stimulus` after the screen went blank: the simulated or awaited key. */
  function Answered(auto: bool, rng: nat -> nat, io: Io, keys: Option<seq<string>>): (s: Step)
    ensures Extends(s.io.trace, io.trace)
    ensures keys.None? ==> s == Step(Running, io, None)
    ensures keys.Some? && !auto && s.status == Running ==>
      s.key.Some? && s.key.value in keys.value + [PauseKey, QuitKey]
    ensures keys.Some? && auto ==> s.status == Running && (s.key == Some("1") || s.key == Some("2"))
    ensures s.status == Running || s.status == Quitted || s.status == Stalled
    ensures s.status == Quitted ==> EndsOnEndText(s.io.trace)
  {
    if keys.None? then Step(Running, io, None)
    else if auto then Step(Running, io.(drawn := io.drawn + 2), Some(if rng(io.drawn) % 2 == 0 then "1" else "2"))
    else
      match FirstAllowed(io.keys, keys.value + [PauseKey, QuitKey])
      case None => Step(Stalled, io.(keys := []), None)
      case Some((k, rest)) =>
        var r := Resolved(io.(keys := rest), k);
        assert Extends(r.io.trace, io.trace);
        r
  }

  /** `present_stimulus` sends exactly the triggers it was given, in order. */
  lemma StimulusPulses(auto: bool, rng: nat -> nat, io: Io, text: string, trigger: TriggerArg, keys: Option<seq<string>>)
    ensures Pulses(StimulusShown(auto, rng, io, text, trigger, keys).io.trace) == Pulses(io.trace) + TriggerEvents(trigger)
  {
    var io1 := io.(trace := io.trace + Displayed(text, trigger));
    PulsesAppend(io.trace, Displayed(text, trigger));
    DisplayedPulses(text, trigger);
    if keys.Some? && !auto {
      match FirstAllowed(io1.keys, keys.value + [PauseKey, QuitKey])
      case None =>
      case Some((k, rest)) => ResolvedNoPulses(io1.(keys := rest), k);
    }
  }

  /** The dialog's choices and the size of the fun-fact table. */
  datatype Config = Config(participant: string, autoRespond: bool, funFacts: nat)

  /** The four timed screens before the second stimulus; only the first stimulus carries the trigger. */
  function PreludeEvents(t: Trial, trigger: Option<string>): seq<Event>
  {
    Displayed("+", NoTrigger) + Displayed("", NoTrigger) + Displayed(t.stimulus1, TriggerOf(trigger)) + Displayed("", NoTrigger)
  }

  lemma PreludePulses(t: Trial, trigger: Option<string>)
    ensures Pulses(PreludeEvents(t, trigger)) == TriggerEvents(TriggerOf(trigger))
  {
    var a := Displayed("+", NoTrigger);
    var b := Displayed("", NoTrigger);
    var c := Displayed(t.stimulus1, TriggerOf(trigger));
    DisplayedPulses("+", NoTrigger);
    DisplayedPulses("", NoTrigger);
    DisplayedPulses(t.stimulus1, TriggerOf(trigger));
    PulsesAppend(a, b);
    PulsesAppend(a + b, c);
    PulsesAppend(a + b + c, b);
  }

  /**
   * What follows an answered second stimulus: `random.uniform(*JITTER)` (one
   * draw), the jitter screen, then scoring, logging and `trial_num += 1`. A
   * missing correct_response column raises after the jitter screen.
   */
  function Scored(cfg: Config, st: St<Trial>, t: Trial, response: Option<string>): (Status, St<Trial>)
  {
    var io := st.io.(trace := st.io.trace + Displayed("", NoTrigger), drawn := st.io.drawn + 1);
    if t.correctResponse.None? then (Fault, st.(io := io))
    else
      var correct := IsCorrectResponse(t.correctResponse.value, response);
      var entry := Entry(cfg.participant, st.trialNum, st.blockNum, response, correct, t);
      (Running, St(io, st.trialNum + 1, st.totalCorrect + (if correct then 1 else 0), st.blockNum, st.handler,
                   if st.handler then st.log + [entry] else st.log))
  }

  /**
   * One pass of `run_block`'s loop. A missing condition column raises before
   * anything is shown; quitting (or a key that never comes) at the second
   * stimulus ends the run there.
   */
  function TrialRun(cfg: Config, rng: nat -> nat, st: St<Trial>, t: Trial): (Status, St<Trial>)
  {
    if t.condition.None? then (Fault, st)
    else
      var io := st.io.(trace := st.io.trace + PreludeEvents(t, ConditionTrigger(t.condition.value)));
      var p := StimulusShown(cfg.autoRespond, rng, io, t.stimulus2, NoTrigger, Some(ResponseKeys));
      if p.status != Running then (p.status, st.(io := p.io))
      else Scored(cfg, st.(io := p.io), t, p.key)
  }

  /**
   * A completed trial adds 1 to trial_num, 0 or 1 to total_correct and (with a
   * log) one entry recording this trial's number, block, response, score and
   * columns. Otherwise the counters are untouched; an exception comes only from a
   * missing column.
   */
  lemma TrialCounts(cfg: Config, rng: nat -> nat, st: St<Trial>, t: Trial)
    ensures var r := TrialRun(cfg, rng, st, t);
      && (r.0 == Fault ==> t.condition.None? || t.correctResponse.None?)
      && (t.condition.None? ==> r == (Fault, st))
      && Advanced(st, r.1, if r.0 == Running then 1 else 0)
      && (r.0 == Running && st.handler ==>
            (var e := r.1.log[|st.log|]; e.extra == t && e.correct == IsCorrectResponse(t.correctResponse.value, e.response)))
  {
    if t.condition.Some? {
      var io := st.io.(trace := st.io.trace + PreludeEvents(t, ConditionTrigger(t.condition.value)));
      var p := StimulusShown(cfg.autoRespond, rng, io, t.stimulus2, NoTrigger, Some(ResponseKeys));
      if p.status == Running {
        ScoredCounts(cfg, st.(io := p.io), t, p.key);
      }
    }
  }

  lemma ScoredCounts(cfg: Config, st: St<Trial>, t: Trial, response: Option<string>)
    ensures var r := Scored(cfg, st, t, response);
      && r.1.io.drawn == st.io.drawn + 1
      && (r.0 == Fault <==> t.correctResponse.None?)
      && Advanced(st, r.1, if r.0 == Running then 1 else 0)
      && (r.0 == Running && st.handler ==>
            (var e := r.1.log[|st.log|];
             e.response == response && e.extra == t && e.correct == IsCorrectResponse(t.correctResponse.value, response)))
  {
    var r := Scored(cfg, st, t, response);
    if r.0 == Running && st.handler {
      var e := r.1.log[|st.log|];
      assert r.1.log == st.log + [e];
      CountCorrectAppend(st.log, [e]);
      assert [e][..0] == [];
    }
  }

  /**
   * The phases of a trial in order: fixation, blank, first stimulus with the
   * condition's trigger, blank, the second stimulus; a completed trial ends with
   * the jitter screen.
   */
  lemma TrialPhases(cfg: Config, rng: nat -> nat, st: St<Trial>, t: Trial)
    requires t.condition.Some?
    ensures var r := TrialRun(cfg, rng, st, t);
      && Extends(r.1.io.trace, st.io.trace + PreludeEvents(t, ConditionTrigger(t.condition.value)) + Displayed(t.stimulus2, NoTrigger))
      && (r.0 == Running ==>
            |r.1.io.trace| >= 2 && r.1.io.trace[|r.1.io.trace| - 2..] == [Flip(Stimulus(""), true), Flip(Blank, false)])
  {
    var pre := st.io.trace + PreludeEvents(t, ConditionTrigger(t.condition.value));
    var io := st.io.(trace := pre);
    var p := StimulusShown(cfg.autoRespond, rng, io, t.stimulus2, NoTrigger, Some(ResponseKeys));
    if p.status == Running {
      var jit := Displayed("", NoTrigger);
      assert jit == [Flip(Stimulus(""), true), Flip(Blank, false)];
      var r := Scored(cfg, st.(io := p.io), t, p.key);
      assert r.1.io.trace == p.io.trace + jit;
      ExtendsTrans(r.1.io.trace, p.io.trace, pre + Displayed(t.stimulus2, NoTrigger));
    }
  }

  /** The only trigger of a trial is its first stimulus's: one for a mapped condition, none otherwise. */
  lemma TrialPulses(cfg: Config, rng: nat -> nat, st: St<Trial>, t: Trial)
    ensures Pulses(TrialRun(cfg, rng, st, t).1.io.trace) ==
      Pulses(st.io.trace) + if t.condition.None? then [] else TriggerEvents(TriggerOf(ConditionTrigger(t.condition.value)))
  {
    if t.condition.Some? {
      var pre := PreludeEvents(t, ConditionTrigger(t.condition.value));
      var io := st.io.(trace := st.io.trace + pre);
      PulsesAppend(st.io.trace, pre);
      PreludePulses(t, ConditionTrigger(t.condition.value));
      StimulusPulses(cfg.autoRespond, rng, io, t.stimulus2, NoTrigger, Some(ResponseKeys));
      var p := StimulusShown(cfg.autoRespond, rng, io, t.stimulus2, NoTrigger, Some(ResponseKeys));
      if p.status == Running {
        ScoredPulses(cfg, st.(io := p.io), t, p.key);
      }
    }
  }

  /** Scoring a trial shows the jitter screen, which sends no trigger. */
  lemma ScoredPulses(cfg: Config, st: St<Trial>, t: Trial, response: Option<string>)
    ensures Pulses(Scored(cfg, st, t, response).1.io.trace) == Pulses(st.io.trace)
  {
    var d := Displayed("", NoTrigger);
    assert Scored(cfg, st, t, response).1.io.trace == st.io.trace + d;
    PulsesAppend(st.io.trace, d);
    DisplayedPulses("", NoTrigger);
  }

  /**
   * The pause quirk: a 'p' at the second stimulus shows the pause and progress
   * screens, then the trial completes with 'p' as its response, scored wrong
   * unless the correct_response cell itself reads 'p'.
   */
  lemma PauseAtProbeScoredWrong(cfg: Config, rng: nat -> nat, st: St<Trial>, t: Trial, rest: seq<string>)
    requires !cfg.autoRespond && t.condition.Some? && t.correctResponse.Some?
    requires st.io.keys == [PauseKey, ContinueKey, DifferentKey] + rest
    ensures var r := TrialRun(cfg, rng, st, t);
      && r.0 == Running
      && r.1.trialNum == st.trialNum + 1
      && r.1.totalCorrect == st.totalCorrect + (if t.correctResponse.value == TextCell(PauseKey) then 1 else 0)
      && r.1.io.keys == rest
      && (st.handler ==> r.1.log == st.log + [Entry(cfg.participant, st.trialNum, st.blockNum, Some(PauseKey),
                                                   t.correctResponse.value == TextCell(PauseKey), t)])
  {
    var keys := st.io.keys;
    assert FirstAllowed(keys, ResponseKeys + [PauseKey, QuitKey]) == Some((PauseKey, keys[1..]));
    assert keys[1..] == [ContinueKey, DifferentKey] + rest;
    assert ([ContinueKey, DifferentKey] + rest)[1..] == [DifferentKey] + rest;
    assert FirstAllowed(keys[1..], [ContinueKey]) == Some((ContinueKey, [DifferentKey] + rest));
    assert ([DifferentKey] + rest)[1..] == rest;
    assert FirstAllowed([DifferentKey] + rest, ButtonKeys) == Some((DifferentKey, rest));
  }

  /** `run_block(block_data)`: the trials in order until one raises or ends the session. */
  function BlockRun(cfg: Config, rng: nat -> nat, st: St<Trial>, trials: seq<Trial>): (r: (Status, St<Trial>))
    decreases |trials|
  {
    if trials == [] then (Running, st)
    else
      var r := TrialRun(cfg, rng, st, trials[0]);
      if r.0 != Running then r else BlockRun(cfg, rng, r.1, trials[1..])
  }

  /** A block completes all of its trials, or stops early, having completed fewer. */
  lemma {:induction false} BlockCounts(cfg: Config, rng: nat -> nat, st: St<Trial>, trials: seq<Trial>)
    ensures var r := BlockRun(cfg, rng, st, trials);
      && Advanced(st, r.1, r.1.trialNum - st.trialNum)
      && r.1.trialNum - st.trialNum <= |trials|
      && (r.0 == Running <==> r.1.trialNum == st.trialNum + |trials|)
    decreases |trials|
  {
    if trials != [] {
      var r := TrialRun(cfg, rng, st, trials[0]);
      TrialCounts(cfg, rng, st, trials[0]);
      if r.0 == Running {
        BlockCounts(cfg, rng, r.1, trials[1..]);
        var r2 := BlockRun(cfg, rng, r.1, trials[1..]);
        AdvancedTrans(st, r.1, r2.1, 1, r2.1.trialNum - r.1.trialNum);
      }
    }
  }

  /** The log entries from index `from` on record `trials`, in order (fewer when the block stopped early). */
  predicate LogsRecord(log: seq<Entry<Trial>>, from: int, trials: seq<Trial>)
  {
    && 0 <= from <= |log| && |log| - from <= |trials|
    && forall k :: from <= k < |log| ==> log[k].extra == trials[k - from]
  }

  /**
   * With a log, the entries a block adds record its trials in order: entry
   * |log| + k records trials[k], for each of the trials completed.
   */
  lemma {:induction false} BlockLogsTrials(cfg: Config, rng: nat -> nat, st: St<Trial>, trials: seq<Trial>)
    ensures var r := BlockRun(cfg, rng, st, trials);
      st.handler ==> LogsRecord(r.1.log, |st.log|, trials)
    decreases |trials|
  {
    if trials != [] && st.handler {
      var r := TrialRun(cfg, rng, st, trials[0]);
      var n1 := if r.0 == Running then 1 else 0;
      assert && r.1.handler && |r.1.log| == |st.log| + n1 && r.1.log[..|st.log|] == st.log
             && (r.0 == Running ==> r.1.log[|st.log|].extra == trials[0]) by {
        TrialCounts(cfg, rng, st, trials[0]);
      }
      if r.0 == Running {
        var r2 := BlockRun(cfg, rng, r.1, trials[1..]);
        assert |r.1.log| <= |r2.1.log| && r2.1.log[..|r.1.log|] == r.1.log by { BlockCounts(cfg, rng, r.1, trials[1..]); }
        BlockLogsTrials(cfg, rng, r.1, trials[1..]);
        LogsStep(st.log, r.1.log, r2.1.log, trials);
      }
    }
  }

  /** One logged trial followed by the entries of the rest of the block: together they record the whole block. */
  lemma LogsStep(log0: seq<Entry<Trial>>, log1: seq<Entry<Trial>>, log2: seq<Entry<Trial>>, trials: seq<Trial>)
    requires trials != [] && |log1| == |log0| + 1 && log1[|log0|].extra == trials[0]
    requires |log1| <= |log2| && log2[..|log1|] == log1
    requires LogsRecord(log2, |log1|, trials[1..])
    ensures LogsRecord(log2, |log0|, trials)
  {
    forall k | |log0| <= k < |log2|
      ensures log2[k].extra == trials[k - |log0|]
    {
      if k == |log0| {
        assert log2[k] == log2[..|log1|][k];
      } else {
        assert log2[k].extra == trials[1..][k - |log1|];
      }
    }
  }

  /**
   * The main loop from block i + 1 on: set block_num, run the block, compute the
   * accuracy (which raises while trial_num is 0) and show the checkpoint screens.
   * An exception anywhere in a block is caught and the next block runs; quitting
   * ends the loop.
   */
  function MainRun(cfg: Config, rng: nat -> nat, st: St<Trial>, blocks: seq<seq<Trial>>, i: nat): (r: (Status, St<Trial>))
    requires i <= |blocks|
    decreases |blocks| - i
  {
    if i == |blocks| then (Running, st)
    else
      var r := BlockRun(cfg, rng, st.(blockNum := i + 1), blocks[i]);
      if r.0 == Quitted || r.0 == Stalled then r
      else if r.0 == Fault || r.1.trialNum == 0 then MainRun(cfg, rng, r.1, blocks, i + 1)
      else
        var a := CheckpointShown(r.1.io, i + 1, |blocks|, r.1.totalCorrect, r.1.trialNum, cfg.funFacts);
        if a.status == Quitted || a.status == Stalled then (a.status, r.1.(io := a.io))
        else MainRun(cfg, rng, r.1.(io := a.io), blocks, i + 1)
  }

  /** A block that ends in a quit has shown the end text last. */
  lemma {:induction false} BlockQuitEnds(cfg: Config, rng: nat -> nat, st: St<Trial>, trials: seq<Trial>)
    ensures var r := BlockRun(cfg, rng, st, trials); r.0 == Quitted ==> EndsOnEndText(r.1.io.trace)
    decreases |trials|
  {
    if trials != [] {
      var r := TrialRun(cfg, rng, st, trials[0]);
      if r.0 == Running {
        BlockQuitEnds(cfg, rng, r.1, trials[1..]);
      }
    }
  }

  /** A main loop that ends in a quit, in a block or at a checkpoint, has shown the end text last. */
  lemma {:induction false} MainQuitEnds(cfg: Config, rng: nat -> nat, st: St<Trial>, blocks: seq<seq<Trial>>, i: nat)
    requires i <= |blocks|
    ensures var r := MainRun(cfg, rng, st, blocks, i); r.0 == Quitted ==> EndsOnEndText(r.1.io.trace)
    decreases |blocks| - i
  {
    if i < |blocks| {
      var st1 := st.(blockNum := i + 1);
      BlockQuitEnds(cfg, rng, st1, blocks[i]);
      var r := BlockRun(cfg, rng, st1, blocks[i]);
      if r.0 == Fault || (r.0 == Running && r.1.trialNum == 0) {
        MainQuitEnds(cfg, rng, r.1, blocks, i + 1);
      } else if r.0 == Running {
        var a := CheckpointShown(r.1.io, i + 1, |blocks|, r.1.totalCorrect, r.1.trialNum, cfg.funFacts);
        if !(a.status == Quitted || a.status == Stalled) {
          MainQuitEnds(cfg, rng, r.1.(io := a.io), blocks, i + 1);
        }
      }
    }
  }

  /**
   * Whichever screen the participant quits on (a setup or instruction screen,
   * a second stimulus, the practice summary, a checkpoint), the last thing the
   * session shows is the end text.
   */
  lemma SessionQuitEndsOnEndText(cfg: Config, rng: nat -> nat, st: St<Trial>, practice: seq<Trial>, blocks: seq<seq<Trial>>)
    ensures var r := SessionRun(cfg, rng, st, practice, blocks); r.0 == Quitted ==> EndsOnEndText(r.1.io.trace)
  {
    PracticeQuitEnds(cfg, rng, st, practice);
    var p := PracticeRun(cfg, rng, st, practice);
    if !(p.0 == Quitted || p.0 == Stalled) {
      MainPartQuitEnds(cfg, rng, p.1, blocks);
    }
  }

  /** A practice part that ends in a quit has shown the end text last. */
  lemma PracticeQuitEnds(cfg: Config, rng: nat -> nat, st: St<Trial>, practice: seq<Trial>)
    ensures var r := PracticeRun(cfg, rng, st, practice); r.0 == Quitted ==> EndsOnEndText(r.1.io.trace)
  {
    var b := IntroShown(st.io, PracticeInstructions);
    if b.status == Running {
      BlockQuitEnds(cfg, rng, st.(io := b.io, trialNum := 0, totalCorrect := 0, handler := false), practice);
    }
  }

  /** A main part that ends in a quit has shown the end text last. */
  lemma MainPartQuitEnds(cfg: Config, rng: nat -> nat, st: St<Trial>, blocks: seq<seq<Trial>>)
    ensures var r := MainPartRun(cfg, rng, st, blocks); r.0 == Quitted ==> EndsOnEndText(r.1.io.trace)
  {
    var e := IntroShown(st.io, MainInstructions);
    if e.status == Running {
      MainQuitEnds(cfg, rng, St(e.io, 0, 0, 1, cfg.participant != "", []), blocks, 0);
    }
  }

  /** The counters and the log stay consistent through the main loop, whatever raises. */
  lemma {:induction false} MainConsistent(cfg: Config, rng: nat -> nat, st: St<Trial>, blocks: seq<seq<Trial>>, i: nat)
    requires i <= |blocks| && Consistent(st)
    ensures var r := MainRun(cfg, rng, st, blocks, i);
      && (r.0 == Running || r.0 == Quitted || r.0 == Stalled)
      && Consistent(r.1) && r.1.handler == st.handler && r.1.trialNum >= st.trialNum
    decreases |blocks| - i
  {
    if i < |blocks| {
      var st1 := st.(blockNum := i + 1);
      var r := BlockRun(cfg, rng, st1, blocks[i]);
      BlockCounts(cfg, rng, st1, blocks[i]);
      ConsistentAdvanced(st1, r.1, r.1.trialNum - st1.trialNum);
      if r.0 == Fault || (r.0 == Running && r.1.trialNum == 0) {
        MainConsistent(cfg, rng, r.1, blocks, i + 1);
      } else if r.0 == Running {
        var a := CheckpointShown(r.1.io, i + 1, |blocks|, r.1.totalCorrect, r.1.trialNum, cfg.funFacts);
        if !(a.status == Quitted || a.status == Stalled) {
          MainConsistent(cfg, rng, r.1.(io := a.io), blocks, i + 1);
        }
      } else {
        assert r == BlockRun(cfg, rng, st1, blocks[i]);
      }
    }
  }

  /**
   * Setup and practice instructions, counters reset with logging off, the
   * practice block and its summary. An exception in the block, or the division
   * by an empty practice table, is caught: the summary is skipped and the
   * session goes on.
   */
  function PracticeRun(cfg: Config, rng: nat -> nat, st: St<Trial>, practice: seq<Trial>): (Status, St<Trial>)
  {
    var b := IntroShown(st.io, PracticeInstructions);
    if b.status != Running then (b.status, st.(io := b.io))
    else
      var p := BlockRun(cfg, rng, st.(io := b.io, trialNum := 0, totalCorrect := 0, handler := false), practice);
      if p.0 == Quitted || p.0 == Stalled then p
      else if p.0 == Fault || |practice| == 0 then (Running, p.1)
      else
        var c := TextShown(p.1.io, PracticeSummary(p.1.totalCorrect, |practice|), AnyButtonKeys);
        (c.status, p.1.(io := c.io))
  }

  /**
   * Logging switched on for a participant id (before the screens), setup and
   * main instructions, counters reset, the main blocks, and the final screen
   * (the end text when no trial ran, as the division raises).
   */
  function MainPartRun(cfg: Config, rng: nat -> nat, st: St<Trial>, blocks: seq<seq<Trial>>): (Status, St<Trial>)
  {
    var logged := st.(handler := cfg.participant != "", log := []);
    var e := IntroShown(st.io, MainInstructions);
    if e.status != Running then (e.status, logged.(io := e.io))
    else
      var m := MainRun(cfg, rng, St(e.io, 0, 0, 1, cfg.participant != "", []), blocks, 0);
      if m.0 != Running then m
      else
        var f := if m.1.trialNum == 0 then TextShown(m.1.io, EndText, [ContinueKey])
                 else TextShown(m.1.io, FinalSummary(m.1.totalCorrect, m.1.trialNum), [ContinueKey]);
        (f.status, m.1.(io := f.io))
  }

  /** The whole session: the practice part, then the main part unless the session ended. */
  function SessionRun(cfg: Config, rng: nat -> nat, st: St<Trial>, practice: seq<Trial>, blocks: seq<seq<Trial>>): (Status, St<Trial>)
  {
    var p := PracticeRun(cfg, rng, st, practice);
    if p.0 == Quitted || p.0 == Stalled then p else MainPartRun(cfg, rng, p.1, blocks)
  }

  /** The practice part leaves consistent counters, and no exception escapes it. */
  lemma PracticeConsistent(cfg: Config, rng: nat -> nat, st: St<Trial>, practice: seq<Trial>)
    requires Consistent(st)
    ensures var p := PracticeRun(cfg, rng, st, practice);
      Consistent(p.1) && p.0 != Fault
  {
    var b := IntroShown(st.io, PracticeInstructions);
    var st0 := st.(io := b.io, trialNum := 0, totalCorrect := 0, handler := false);
    if b.status == Running {
      BlockCounts(cfg, rng, st0, practice);
      var p := BlockRun(cfg, rng, st0, practice);
      ConsistentAdvanced(st0, p.1, p.1.trialNum);
    }
  }

  /**
   * Once the main instructions are passed, the counters and the log stay
   * consistent however the session ends. A quit at the setup or instruction
   * screens leaves the new logger empty beside the practice's trial_num.
   * experiment.py repeats this part of in-person/main.py, so the lemma repeats
   * `InPerson.MainPartConsistent` for this script's own functions.
   */
  lemma MainPartConsistent(cfg: Config, rng: nat -> nat, st: St<Trial>, blocks: seq<seq<Trial>>)
    requires IntroShown(st.io, MainInstructions).status == Running
    ensures Consistent(MainPartRun(cfg, rng, st, blocks).1)
  {
    var e := IntroShown(st.io, MainInstructions);
    MainConsistent(cfg, rng, St(e.io, 0, 0, 1, cfg.participant != "", []), blocks, 0);
  }

  /**
   * A session that runs to its end leaves 0 <= total_correct <= trial_num and,
   * when a participant id was given, a log with exactly one entry per main
   * trial, numbered from 0, whose correct flags add up to total_correct. The
   * only way to end otherwise is to quit (or stall) with the new logger still
   * empty beside the practice's counters. Like `MainPartConsistent`, it
   * repeats its `InPerson` counterpart for this script's own functions.
   */
  lemma SessionConsistent(cfg: Config, rng: nat -> nat, st: St<Trial>, practice: seq<Trial>, blocks: seq<seq<Trial>>)
    requires Consistent(st)
    ensures var r := SessionRun(cfg, rng, st, practice, blocks);
      && (r.0 == Running ==> Consistent(r.1))
      && (Consistent(r.1) || (r.0 != Running && r.1.log == [] && 0 <= r.1.totalCorrect <= r.1.trialNum))
  {
    PracticeConsistent(cfg, rng, st, practice);
    var p := PracticeRun(cfg, rng, st, practice);
    if !(p.0 == Quitted || p.0 == Stalled) {
      var e := IntroShown(p.1.io, MainInstructions);
      if e.status == Running {
        MainPartConsistent(cfg, rng, p.1, blocks);
      }
    }
  }

  /** The module-level state of the script: the session counters, the logger and the screen. */
  class Session {
    const screen: Screen
    const cfg: Config
    var trialNum: int
    var totalCorrect: int
    var blockNum: int
    var handler: bool
    var log: seq<Entry<Trial>>

    function State(): St<Trial>
      reads this, screen
    {
      St(screen.State(), trialNum, totalCorrect, blockNum, handler, log)
    }

    constructor (cfg: Config, keys: seq<string>, rng: nat -> nat)
      ensures this.cfg == cfg && screen.rng == rng && fresh(screen)
      ensures State() == St(Io(keys, [], 0), 0, 0, 0, false, [])
    {
      this.cfg := cfg;
      screen := new Screen(keys, rng);
      trialNum := 0;
      totalCorrect := 0;
      blockNum := 0;
      handler := false;
      log := [];
    }

    /** The loop over a trigger list, skipping None. */
    method SendList(names: seq<Option<string>>)
      modifies screen`trace
      ensures screen.trace == old(screen.trace) + ListPulses(names)
    {
      var i := 0;
      while i < |names|
        invariant i <= |names|
        invariant screen.trace == old(screen.trace) + ListPulses(names[..i])
      {
        assert names[..i + 1][..i] == names[..i];
        if names[i].Some? {
          screen.Pulse(names[i].value);
        }
        i := i + 1;
      }
      assert names[..i] == names;
    }

    /** `if trigger and send_triggers:` and the trigger loop. */
    method SendTriggers(trigger: TriggerArg)
      modifies screen`trace
      ensures screen.trace == old(screen.trace) + TriggerEvents(trigger)
    {
      match trigger
      case NoTrigger =>
      case Channel(name) =>
        if name != "" {
          screen.Pulse(name);
        }
      case Channels(names) =>
        SendList(names);
    }

    /** `present_stimulus(text, timing, trigger, keys)`. */
    method PresentStimulus(text: string, trigger: TriggerArg, keys: Option<seq<string>>)
      returns (status: Status, response: Option<string>)
      modifies screen
      ensures Step(status, screen.State(), response) ==
              StimulusShown(cfg.autoRespond, screen.rng, old(screen.State()), text, trigger, keys)
    {
      screen.Flip(Stimulus(text), true);
      SendTriggers(trigger);
      screen.Flip(Blank, false);
      assert screen.State() == old(screen.State()).(trace := old(screen.trace) + Displayed(text, trigger));
      status, response := Answer(keys);
    }

    /** The simulated answer, or the awaited key and its control meaning. */
    method Answer(keys: Option<seq<string>>) returns (status: Status, response: Option<string>)
      modifies screen
      ensures Step(status, screen.State(), response) == Answered(cfg.autoRespond, screen.rng, old(screen.State()), keys)
    {
      if keys.None? {
        return Running, None;
      }
      if cfg.autoRespond {
        var r := screen.Draw(2);
        var rt := screen.Draw(1);
        return Running, Some(if r == 0 then "1" else "2");
      }
      response := screen.WaitKeys(keys.value + [PauseKey, QuitKey]);
      if response.None? {
        return Stalled, None;
      }
      status := screen.Resolve(response.value);
    }

    /** `present_stimulus(text, timing, trigger)` without keys. */
    method PresentTimed(text: string, trigger: TriggerArg)
      modifies screen
      ensures screen.State() == old(screen.State()).(trace := old(screen.trace) + Displayed(text, trigger))
    {
      var status, ignored := PresentStimulus(text, trigger, None);
    }

    /** The four timed screens before the second stimulus. */
    method Prelude(t: Trial, trigger: Option<string>)
      modifies screen
      ensures screen.State() == old(screen.State()).(trace := old(screen.trace) + PreludeEvents(t, trigger))
    {
      PresentTimed("+", NoTrigger);
      PresentTimed("", NoTrigger);
      PresentTimed(t.stimulus1, TriggerOf(trigger));
      PresentTimed("", NoTrigger);
    }

    /** The jitter screen, scoring, logging and `trial_num += 1`. */
    method Score(t: Trial, response: Option<string>) returns (status: Status)
      modifies this, screen
      ensures (status, State()) == Scored(cfg, old(State()), t, response)
    {
      var jitter := screen.Draw(1);
      PresentTimed("", NoTrigger);
      if t.correctResponse.None? {
        return Fault;
      }
      var correct := IsCorrectResponse(t.correctResponse.value, response);
      totalCorrect := totalCorrect + if correct then 1 else 0;
      if handler {
        log := log + [Entry(cfg.participant, trialNum, blockNum, response, correct, t)];
      }
      trialNum := trialNum + 1;
      status := Running;
    }

    /** One pass of `run_block`'s loop. */
    method RunTrial(t: Trial) returns (status: Status)
      modifies this, screen
      ensures (status, State()) == TrialRun(cfg, screen.rng, old(State()), t)
    {
      if t.condition.None? {
        return Fault;
      }
      var trigger := ConditionTrigger(t.condition.value);
      Prelude(t, trigger);
      var response;
      status, response := PresentStimulus(t.stimulus2, NoTrigger, Some(ResponseKeys));
      if status == Running {
        status := Score(t, response);
      }
    }

    /** `run_block(block_data)`. */
    method RunBlock(trials: seq<Trial>) returns (status: Status)
      modifies this, screen
      ensures (status, State()) == BlockRun(cfg, screen.rng, old(State()), trials)
    {
      status := Running;
      var i := 0;
      while i < |trials|
        invariant 0 <= i <= |trials| && status == Running
        invariant BlockRun(cfg, screen.rng, State(), trials[i..]) == BlockRun(cfg, screen.rng, old(State()), trials)
      {
        assert trials[i..][1..] == trials[i + 1..];
        status := RunTrial(trials[i]);
        if status != Running {
          return;
        }
        i := i + 1;
      }
    }

    /** One pass of the main loop, with its `try`/`except`. */
    method RunMainBlock(blocks: seq<seq<Trial>>, i: nat) returns (status: Status)
      requires i < |blocks|
      modifies this, screen
      ensures status == Running || status == Quitted || status == Stalled
      ensures status == Running ==> MainRun(cfg, screen.rng, old(State()), blocks, i) == MainRun(cfg, screen.rng, State(), blocks, i + 1)
      ensures status != Running ==> MainRun(cfg, screen.rng, old(State()), blocks, i) == (status, State())
    {
      blockNum := i + 1;
      status := RunBlock(blocks[i]);
      if status == Fault {
        return Running;
      }
      if status == Running && trialNum != 0 {
        status := screen.Checkpoint(i + 1, |blocks|, totalCorrect, trialNum, cfg.funFacts);
        if status == Fault {
          status := Running;
        }
      }
    }

    /** The main `for block_num, block in enumerate(blocks, start=1)` loop. */
    method RunMain(blocks: seq<seq<Trial>>) returns (status: Status)
      modifies this, screen
      ensures (status, State()) == MainRun(cfg, screen.rng, old(State()), blocks, 0)
    {
      status := Running;
      var i := 0;
      while i < |blocks|
        invariant 0 <= i <= |blocks| && status == Running
        invariant MainRun(cfg, screen.rng, State(), blocks, i) == MainRun(cfg, screen.rng, old(State()), blocks, 0)
      {
        status := RunMainBlock(blocks, i);
        if status != Running {
          return;
        }
        i := i + 1;
      }
    }

    /** Setup and practice instructions, the practice block and its summary. */
    method RunPractice(practice: seq<Trial>) returns (status: Status)
      modifies this, screen
      ensures (status, State()) == PracticeRun(cfg, screen.rng, old(State()), practice)
    {
      var ignored;
      status, ignored := screen.PresentIntro(PracticeInstructions);
      if status != Running {
        return;
      }
      trialNum := 0;
      totalCorrect := 0;
      handler := false;
      status := RunBlock(practice);
      if status == Quitted || status == Stalled {
        return;
      }
      if status == Fault || |practice| == 0 {
        return Running;
      }
      status, ignored := screen.PresentText(PracticeSummary(totalCorrect, |practice|), AnyButtonKeys);
    }

    /** The main part: the logger, the instructions, the blocks and the final screen. */
    method RunMainPart(blocks: seq<seq<Trial>>) returns (status: Status)
      modifies this, screen
      ensures (status, State()) == MainPartRun(cfg, screen.rng, old(State()), blocks)
    {
      handler := cfg.participant != "";
      log := [];
      var ignored;
      status, ignored := screen.PresentIntro(MainInstructions);
      if status != Running {
        return;
      }
      trialNum := 0;
      blockNum := 1;
      totalCorrect := 0;
      status := RunMain(blocks);
      if status != Running {
        return;
      }
      if trialNum == 0 {
        status, ignored := screen.PresentText(EndText, [ContinueKey]);
      } else {
        status, ignored := screen.PresentText(FinalSummary(totalCorrect, trialNum), [ContinueKey]);
      }
    }

    /** The script's top level from the first setup screen to the final screen. */
    method Run(practice: seq<Trial>, blocks: seq<seq<Trial>>) returns (status: Status)
      modifies this, screen
      ensures (status, State()) == SessionRun(cfg, screen.rng, old(State()), practice, blocks)
    {
      status := RunPractice(practice);
      if status == Quitted || status == Stalled {
        return;
      }
      status := RunMainPart(blocks);
    }
  }
}
