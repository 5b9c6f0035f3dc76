/**
 * The screen-and-keyboard logic the two PsychoPy scripts share: `present_text`
 * with its pause and quit keys, `present_feedback` with the fun-fact gate, and
 * the screens shown after each block. The display is a trace of events, the
 * keyboard a list of key presses, and the random number generator a stream of
 * draws.
 */
module Presenter {
  import opened Wrappers

  /** What a flip puts on screen; texts whose wording does not matter are named by their role. */
  datatype Content =
    | Stimulus(text: string)                   // a stimulus, the "+" fixation or the "" blank
    | Blank                                    // a flip with nothing drawn
    | Setup
    | PracticeInstructions
    | MainInstructions
    | EndText
    | PauseText
    | ProgressText
    | PracticeSummary(correct: int, total: int)
    | EndOfBlock(block: int, correct: int, trials: int, askExperimenter: bool)
    | HalfwayGate
    | StartOfBlock(block: int)
    | FunFactPrompt(item: nat)
    | FunFactContent(item: nat)
    | FinalSummary(correct: int, trials: int)
    | Feedback(wasCorrect: bool)

  /** A screen flip (with or without the photodiode patch), or one `sendTrigger` call. */
  datatype Event = Flip(content: Content, diode: bool) | Pulse(channel: string)

  /**
   * How a step ends: on normally, with an exception (`Fault`), with `core.quit()`
   * (`Quitted`), or waiting forever for a key that never comes (`Stalled`).
   */
  datatype Status = Running | Fault | Quitted | Stalled

  const SameKey: string := "2"
  const DifferentKey: string := "1"
  const ContinueKey: string := "s"
  const PauseKey: string := "p"
  const QuitKey: string := "q"
  const ExperimentKeys: seq<string> := ["s", "p", "q"]
  const ResponseKeys: seq<string> := ["1", "2", "p", "q"]
  const AnyButtonKeys: seq<string> := ["1", "2", "s", "q"]
  const ButtonKeys: seq<string> := ["1", "2"]

  /**
   * `event.waitKeys(keyList=allowed)`: presses of other keys are ignored; the
   * first allowed press is returned with the presses after it. None when no
   * allowed key is ever pressed.
   */
  function FirstAllowed(pending: seq<string>, allowed: seq<string>): (r: Option<(string, seq<string>)>)
    ensures r.Some? ==> r.value.0 in allowed && |r.value.1| < |pending|
  {
    if pending == [] then None
    else if pending[0] in allowed then Some((pending[0], pending[1..]))
    else FirstAllowed(pending[1..], allowed)
  }

  /**
   * `FirstAllowed` returns the first allowed press and exactly the presses after
   * it, having skipped only keys that are not allowed; it fails only when no
   * allowed key is pressed at all.
   */
  lemma {:induction false} FirstAllowedSpec(pending: seq<string>, allowed: seq<string>)
    ensures var r := FirstAllowed(pending, allowed);
      && (r.None? <==> forall i :: 0 <= i < |pending| ==> pending[i] !in allowed)
      && (r.Some? ==>
            var j := |pending| - |r.value.1| - 1;
            && 0 <= j && pending[j] == r.value.0
            && r.value.1 == pending[j + 1..]
            && forall i :: 0 <= i < j ==> pending[i] !in allowed)
  {
    if pending != [] && pending[0] !in allowed {
      FirstAllowedSpec(pending[1..], allowed);
      var r := FirstAllowed(pending, allowed);
      if r.None? {
        forall i | 0 <= i < |pending|
          ensures pending[i] !in allowed
        {
          if i > 0 {
            assert pending[i] == pending[1..][i - 1];
          }
        }
      } else {
        var j := |pending| - |r.value.1| - 1;
        forall i | 0 <= i < j
          ensures pending[i] !in allowed
        {
          if i > 0 {
            assert pending[i] == pending[1..][i - 1];
          }
        }
      }
    }
  }

  /** The keyboard still to be read, the screen events so far, and the random draws used. */
  datatype Io = Io(keys: seq<string>, trace: seq<Event>, drawn: nat)

  /** The end of a screen: its status, the new input/output state and the key read, if any. */
  datatype Step = Step(status: Status, io: Io, key: Option<string>)

  /** Flip a text screen without the photodiode and wait for one of `allowed`. */
  function Shown(io: Io, c: Content, allowed: seq<string>): (s: Step)
    ensures s.io.trace == io.trace + [Flip(c, false)] && s.io.drawn == io.drawn
    ensures s.status == Running <==> s.key.Some?
    ensures s.status == Running ==> s.key.value in allowed
    ensures s.status == Running || s.status == Stalled
  {
    var io' := io.(trace := io.trace + [Flip(c, false)]);
    match FirstAllowed(io.keys, allowed)
    case None => Step(Stalled, io'.(keys := []), None)
    case Some((k, rest)) => Step(Running, io'.(keys := rest), Some(k))
  }

  /**
   * The control-key branch after a key was read: 'q' shows the end text, waits
   * for 's' and quits; 'p' shows the pause text (wait for 's') and the progress
   * text (wait for '1' or '2') and carries on; any other key carries on.
   */
  function Resolved(io: Io, key: string): (s: Step)
    ensures s.key == Some(key) && s.io.drawn == io.drawn
    ensures s.status == Quitted ==> key == QuitKey && s.io.trace == io.trace + [Flip(EndText, false)]
    ensures key != QuitKey && key != PauseKey ==> s == Step(Running, io, Some(key))
    ensures s.status == Running || s.status == Quitted || s.status == Stalled
    ensures key == PauseKey && s.status == Running ==>
              s.io.trace == io.trace + [Flip(PauseText, false), Flip(ProgressText, false)]
  {
    if key == QuitKey then
      var e := Shown(io, EndText, [ContinueKey]);
      Step(if e.status == Running then Quitted else Stalled, e.io, Some(key))
    else if key == PauseKey then
      var a := Shown(io, PauseText, [ContinueKey]);
      if a.status != Running then Step(Stalled, a.io, Some(key))
      else
        var b := Shown(a.io, ProgressText, ButtonKeys);
        Step(b.status, b.io, Some(key))
    else Step(Running, io, Some(key))
  }

  /** The trace ends on the end text: what every quit shows last before `core.quit()`. */
  predicate EndsOnEndText(t: seq<Event>)
  {
    t != [] && t[|t| - 1] == Flip(EndText, false)
  }

  /** `present_text(content, allowed)`: show, wait, then handle 'q' and 'p'. */
  function TextShown(io: Io, c: Content, allowed: seq<string>): (s: Step)
    ensures Extends(s.io.trace, io.trace + [Flip(c, false)]) && s.io.drawn == io.drawn
    ensures s.status == Running ==> s.key.Some? && s.key.value in allowed && s.key.value != QuitKey
    ensures s.status == Quitted ==> QuitKey in allowed && s.io.trace[|s.io.trace| - 1] == Flip(EndText, false)
    ensures s.status == Running || s.status == Quitted || s.status == Stalled
  {
    var s := Shown(io, c, allowed);
    if s.status != Running then s else Resolved(s.io, s.key.value)
  }

  /**
   * The nested `present_text(pause_text, ['s'])` and friends cannot see a control
   * key, so they are plain `Shown` steps, which is how `Resolved` writes them.
   */
  lemma TextShownWithoutControlKeys(io: Io, c: Content, allowed: seq<string>)
    requires QuitKey !in allowed && PauseKey !in allowed
    ensures TextShown(io, c, allowed) == Shown(io, c, allowed)
  {
  }

  /**
   * The quirk at every response screen: a 'p' shows the two pause screens and then
   * hands 'p' back to the caller; the screen that asked for a key is not shown again.
   */
  lemma PauseReturnsP(io: Io, c: Content, allowed: seq<string>, rest: seq<string>)
    requires PauseKey in allowed
    requires io.keys == [PauseKey, ContinueKey, DifferentKey] + rest
    ensures var s := TextShown(io, c, allowed);
      && s == Step(Running, Io(rest, io.trace + [Flip(c, false), Flip(PauseText, false), Flip(ProgressText, false)], io.drawn), Some(PauseKey))
  {
    var s1 := Shown(io, c, allowed);
    assert FirstAllowed(io.keys, allowed) == Some((PauseKey, io.keys[1..]));
    assert io.keys[1..] == [ContinueKey, DifferentKey] + rest;
    assert ([ContinueKey, DifferentKey] + rest)[1..] == [DifferentKey] + rest;
    assert FirstAllowed(io.keys[1..], [ContinueKey]) == Some((ContinueKey, [DifferentKey] + rest));
    assert ([DifferentKey] + rest)[1..] == rest;
    assert FirstAllowed([DifferentKey] + rest, ButtonKeys) == Some((DifferentKey, rest));
  }

  /**
   * `present_feedback` as the scripts have it. Its '2' branch calls
   * `present_text(text=..., keys=...)`, but the parameter is `text_content`, so
   * Python raises TypeError there, after `feedback_items.sample(1)` has drawn a
   * fun fact (or has itself raised on an empty table): the branch always ends in
   * an exception, right after the question, with no fun-fact screen.
   */
  function FeedbackShownAsWritten(io: Io, c: Content, allowed: seq<string>, funFacts: nat): (s: Step)
    ensures s.status == Fault <==> Shown(io, c, allowed).key == Some(SameKey)
    ensures s.status == Fault ==> s.io.trace == io.trace + [Flip(c, false)]
    ensures s.io.drawn == io.drawn + (if s.status == Fault && funFacts > 0 then 1 else 0)
    ensures s.status == Quitted ==> EndsOnEndText(s.io.trace)
  {
    var s := Shown(io, c, allowed);
    if s.status != Running then s
    else if s.key.value == SameKey then Step(Fault, s.io.(drawn := s.io.drawn + (if funFacts > 0 then 1 else 0)), s.key)
    else Resolved(s.io, s.key.value)
  }

  /** The trace `t` begins with the events `p`. */
  predicate Extends(t: seq<Event>, p: seq<Event>)
  {
    |p| <= |t| && t[..|p|] == p
  }

  lemma ExtendsTrans(t: seq<Event>, u: seq<Event>, p: seq<Event>)
    requires Extends(t, u) && Extends(u, p)
    ensures Extends(t, p)
  {
    assert t[..|p|] == t[..|u|][..|p|];
  }

  /**
   * `present_feedback` as evidently intended: on '2', pick fun fact `item` at
   * random (pandas raises on an empty table), show its prompt and then its
   * content, each waiting for any button.
   */
  function FeedbackShown(io: Io, c: Content, allowed: seq<string>, rng: nat -> nat, funFacts: nat): (s: Step)
    ensures s.status == Fault <==> Shown(io, c, allowed).key == Some(SameKey) && funFacts == 0
  {
    var s := Shown(io, c, allowed);
    if s.status != Running then s
    else if s.key.value == SameKey then
      if funFacts == 0 then Step(Fault, s.io, s.key) else FunFactShown(s.io, rng, funFacts)
    else Resolved(s.io, s.key.value)
  }

  /** The fun-fact screens after a "yes": one draw picks the fact, then its screens. */
  function FunFactShown(io: Io, rng: nat -> nat, funFacts: nat): (s: Step)
    requires funFacts > 0
    ensures s.key == Some(SameKey) && s.io.drawn == io.drawn + 1
    ensures s.status == Running || s.status == Quitted || s.status == Stalled
  {
    FactShown(io.(drawn := io.drawn + 1), rng(io.drawn) % funFacts)
  }

  /** Fun fact `item`: its prompt and, unless the prompt ends the session, its content. */
  function FactShown(io: Io, item: nat): (s: Step)
    ensures s.key == Some(SameKey) && s.io.drawn == io.drawn
    ensures s.status == Running || s.status == Quitted || s.status == Stalled
  {
    var a := TextShown(io, FunFactPrompt(item), AnyButtonKeys);
    if a.status != Running then Step(a.status, a.io, Some(SameKey))
    else
      var b := TextShown(a.io, FunFactContent(item), AnyButtonKeys);
      Step(b.status, b.io, Some(SameKey))
  }

  /** The feedback screens only add to the trace, starting with the question itself. */
  lemma FeedbackExtends(io: Io, c: Content, allowed: seq<string>, rng: nat -> nat, funFacts: nat)
    ensures Extends(FeedbackShown(io, c, allowed, rng, funFacts).io.trace, io.trace + [Flip(c, false)])
  {
    var s := Shown(io, c, allowed);
    if s.status == Running && s.key.value == SameKey && funFacts > 0 {
      FunFactScreens(io, c, allowed, rng, funFacts);
      var item := rng(io.drawn) % funFacts;
      var f := FeedbackShown(io, c, allowed, rng, funFacts);
      ExtendsTrans(f.io.trace, io.trace + [Flip(c, false), Flip(FunFactPrompt(item), false)], io.trace + [Flip(c, false)]);
    }
  }

  /** On "yes" the intended gate draws one fun fact and shows its prompt, then (unless quit) its content. */
  lemma FunFactScreens(io: Io, c: Content, allowed: seq<string>, rng: nat -> nat, funFacts: nat)
    requires Shown(io, c, allowed).key == Some(SameKey) && funFacts > 0
    ensures var s := FeedbackShown(io, c, allowed, rng, funFacts);
      var item := rng(io.drawn) % funFacts;
      && s.io.drawn == io.drawn + 1
      && Extends(s.io.trace, io.trace + [Flip(c, false), Flip(FunFactPrompt(item), false)])
      && (s.status == Running ==> s.io.trace[|s.io.trace| - 1] == Flip(FunFactContent(item), false))
  {
    var s := Shown(io, c, allowed);
    var item := rng(io.drawn) % funFacts;
    FactShownSpec(s.io.(drawn := s.io.drawn + 1), item);
    assert s.io.trace + [Flip(FunFactPrompt(item), false)] == io.trace + [Flip(c, false), Flip(FunFactPrompt(item), false)];
  }

  /** A fun fact's screens start with its prompt and, when they run through, end with its content. */
  lemma FactShownSpec(io: Io, item: nat)
    ensures var s := FactShown(io, item);
      && Extends(s.io.trace, io.trace + [Flip(FunFactPrompt(item), false)])
      && (s.status == Running ==> s.io.trace[|s.io.trace| - 1] == Flip(FunFactContent(item), false))
  {
    var a := TextShown(io, FunFactPrompt(item), AnyButtonKeys);
    if a.status == Running {
      var b := TextShown(a.io, FunFactContent(item), AnyButtonKeys);
      ExtendsTrans(b.io.trace, a.io.trace + [Flip(FunFactContent(item), false)], a.io.trace);
      ExtendsTrans(b.io.trace, a.io.trace, io.trace + [Flip(FunFactPrompt(item), false)]);
    }
  }

  /**
   * The halfway gate pressed with "yes": the screens as written end in an
   * exception, while the intended version shows the fun fact's prompt and content.
   */
  lemma FunFactGateDiscrepancy(trace: seq<Event>, drawn: nat, rng: nat -> nat)
    ensures var io := Io([SameKey, DifferentKey, DifferentKey], trace, drawn);
      && FeedbackShownAsWritten(io, HalfwayGate, ButtonKeys, 1).status == Fault
      && FeedbackShown(io, HalfwayGate, ButtonKeys, rng, 1) ==
         Step(Running,
              Io([], trace + [Flip(HalfwayGate, false), Flip(FunFactPrompt(0), false), Flip(FunFactContent(0), false)], drawn + 1),
              Some(SameKey))
  {
    var io := Io([SameKey, DifferentKey, DifferentKey], trace, drawn);
    assert FirstAllowed(io.keys, ButtonKeys) == Some((SameKey, [DifferentKey, DifferentKey]));
    assert FirstAllowed([DifferentKey, DifferentKey], AnyButtonKeys) == Some((DifferentKey, [DifferentKey]));
    assert FirstAllowed([DifferentKey], AnyButtonKeys) == Some((DifferentKey, []));
  }

  /** The trigger events of a trace, in order. */
  function Pulses(events: seq<Event>): seq<Event>
  {
    if events == [] then []
    else Pulses(events[..|events| - 1]) + (if events[|events| - 1].Pulse? then [events[|events| - 1]] else [])
  }

  lemma {:induction false} PulsesAppend(a: seq<Event>, b: seq<Event>)
    ensures Pulses(a + b) == Pulses(a) + Pulses(b)
    decreases |b|
  {
    if b == [] {
      assert a + b == a;
    } else {
      assert (a + b)[..|a + b| - 1] == a + b[..|b| - 1];
      PulsesAppend(a, b[..|b| - 1]);
    }
  }

  lemma PulsesOfFlips(c: Content, d: bool)
    ensures Pulses([Flip(c, d)]) == []
  {
    assert [Flip(c, d)][..0] == [];
  }

  /** The control screens after a key add no trigger. */
  lemma ResolvedNoPulses(io: Io, key: string)
    ensures Pulses(Resolved(io, key).io.trace) == Pulses(io.trace)
  {
    if key == QuitKey {
      PulsesAppend(io.trace, [Flip(EndText, false)]);
      PulsesOfFlips(EndText, false);
    } else if key == PauseKey {
      var a := Shown(io, PauseText, [ContinueKey]);
      PulsesAppend(io.trace, [Flip(PauseText, false)]);
      PulsesOfFlips(PauseText, false);
      if a.status == Running {
        PulsesAppend(a.io.trace, [Flip(ProgressText, false)]);
        PulsesOfFlips(ProgressText, false);
      }
    }
  }

  /** The setup screen (continue or quit), then the instructions (a response key, pause or quit). */
  function IntroShown(io: Io, instructions: Content): (s: Step)
    ensures s.status == Quitted ==> EndsOnEndText(s.io.trace)
  {
    var a := TextShown(io, Setup, [ContinueKey, QuitKey]);
    if a.status != Running then a else TextShown(a.io, instructions, ResponseKeys)
  }

  /** What the main loop does after block `b` of `n` has run, given `trials` > 0. */
  datatype After = After(status: Status, io: Io)

  /**
   * The halfway checkpoint as the scripts have it: an end-of-block screen asking
   * for the experimenter, the fun-fact gate as written and a start-of-block
   * screen. A "yes" at the gate raises, so the start-of-block screen is then
   * never shown; the main loop catches the exception.
   */
  function HalfwayShown(io: Io, b: int, correct: int, trials: int, funFacts: nat): (a: After)
    ensures var e := TextShown(io, EndOfBlock(b, correct, trials, true), ExperimentKeys);
      a.status == Fault <==> e.status == Running && Shown(e.io, HalfwayGate, ButtonKeys).key == Some(SameKey)
    ensures a.status == Fault ==> a.io.trace != [] && a.io.trace[|a.io.trace| - 1] == Flip(HalfwayGate, false)
    ensures a.status == Quitted ==> EndsOnEndText(a.io.trace)
  {
    var e := TextShown(io, EndOfBlock(b, correct, trials, true), ExperimentKeys);
    if e.status != Running then After(e.status, e.io)
    else
      var f := FeedbackShownAsWritten(e.io, HalfwayGate, ButtonKeys, funFacts);
      if f.status != Running then After(f.status, f.io)
      else
        var g := TextShown(f.io, StartOfBlock(b + 1), AnyButtonKeys);
        After(g.status, g.io)
  }

  /**
   * The checkpoint screens after block b of n: the halfway screens at
   * b == n / 2; otherwise, unless b is the last block, a plain end-of-block
   * screen; after the last block nothing.
   */
  function CheckpointShown(io: Io, b: int, n: int, correct: int, trials: int, funFacts: nat): (a: After)
    ensures a.status == Fault ==> b == n / 2 && a.io.trace != [] && a.io.trace[|a.io.trace| - 1] == Flip(HalfwayGate, false)
    ensures a.status == Quitted ==> EndsOnEndText(a.io.trace)
  {
    if b == n / 2 then HalfwayShown(io, b, correct, trials, funFacts)
    else if b != n then
      var e := TextShown(io, EndOfBlock(b, correct, trials, false), AnyButtonKeys);
      After(e.status, e.io)
    else After(Running, io)
  }

  /**
   * Which checkpoint screen comes first: the halfway one iff b == n / 2, else a
   * plain end-of-block screen iff b is not the last block, else none at all.
   */
  lemma CheckpointRule(io: Io, b: int, n: int, correct: int, trials: int, funFacts: nat)
    ensures var a := CheckpointShown(io, b, n, correct, trials, funFacts);
      && (b == n / 2 ==> Extends(a.io.trace, io.trace + [Flip(EndOfBlock(b, correct, trials, true), false)]))
      && (b != n / 2 && b != n ==> Extends(a.io.trace, io.trace + [Flip(EndOfBlock(b, correct, trials, false), false)]))
      && (b != n / 2 && b == n ==> a == After(Running, io))
  {
    if b == n / 2 {
      HalfwayExtends(io, b, correct, trials, funFacts);
    }
  }

  /** The halfway screens only add to the trace, starting with the end-of-block screen. */
  lemma HalfwayExtends(io: Io, b: int, correct: int, trials: int, funFacts: nat)
    ensures Extends(HalfwayShown(io, b, correct, trials, funFacts).io.trace,
                    io.trace + [Flip(EndOfBlock(b, correct, trials, true), false)])
  {
    var p := io.trace + [Flip(EndOfBlock(b, correct, trials, true), false)];
    var e := TextShown(io, EndOfBlock(b, correct, trials, true), ExperimentKeys);
    if e.status == Running {
      var f := FeedbackShownAsWritten(e.io, HalfwayGate, ButtonKeys, funFacts);
      var s := Shown(e.io, HalfwayGate, ButtonKeys);
      if s.status == Running && s.key.value != SameKey {
        ExtendsTrans(f.io.trace, s.io.trace, e.io.trace + [Flip(HalfwayGate, false)]);
      }
      ExtendsTrans(f.io.trace, e.io.trace + [Flip(HalfwayGate, false)], e.io.trace);
      ExtendsTrans(f.io.trace, e.io.trace, p);
      if f.status == Running {
        var g := TextShown(f.io, StartOfBlock(b + 1), AnyButtonKeys);
        ExtendsTrans(g.io.trace, f.io.trace + [Flip(StartOfBlock(b + 1), false)], f.io.trace);
        ExtendsTrans(g.io.trace, f.io.trace, p);
      }
    }
  }

  /**
   * The halfway checkpoint as the scripts run it: 's' for the experimenter and
   * "yes" at the gate end in the exception, right after the gate's question; the
   * start-of-block screen is never shown and the fun fact's draw is spent.
   */
  lemma HalfwayYesRaises(io: Io, b: int, correct: int, trials: int, funFacts: nat, rest: seq<string>)
    requires io.keys == [ContinueKey, SameKey] + rest
    ensures HalfwayShown(io, b, correct, trials, funFacts) ==
      After(Fault, Io(rest, io.trace + [Flip(EndOfBlock(b, correct, trials, true), false), Flip(HalfwayGate, false)],
                      io.drawn + (if funFacts > 0 then 1 else 0)))
  {
    assert io.keys[0] == ContinueKey && io.keys[1..] == [SameKey] + rest;
    assert FirstAllowed(io.keys, ExperimentKeys) == Some((ContinueKey, [SameKey] + rest));
    assert ([SameKey] + rest)[1..] == rest;
    assert FirstAllowed([SameKey] + rest, ButtonKeys) == Some((SameKey, rest));
  }

  /** The block counters, the logging switch and the log that `run_block` maintains. */
  datatype Entry<E> = Entry(participant: string, trialNum: int, block: int, response: Option<string>, correct: bool, extra: E)

  datatype St<E> = St(io: Io, trialNum: int, totalCorrect: int, blockNum: int, handler: bool, log: seq<Entry<E>>)

  /** How many logged trials were scored correct. */
  function CountCorrect<E>(log: seq<Entry<E>>): (k: nat)
    ensures k <= |log|
  {
    if log == [] then 0 else CountCorrect(log[..|log| - 1]) + (if log[|log| - 1].correct then 1 else 0)
  }

  lemma {:induction false} CountCorrectAppend<E>(log: seq<Entry<E>>, more: seq<Entry<E>>)
    ensures CountCorrect(log + more) == CountCorrect(log) + CountCorrect(more)
    decreases |more|
  {
    if more == [] {
      assert log + more == log;
    } else {
      assert (log + more)[..|log + more| - 1] == log + more[..|more| - 1];
      CountCorrectAppend(log, more[..|more| - 1]);
    }
  }

  /**
   * What the counters promise once they were reset: 0 <= total_correct <= trial_num,
   * and while a log is kept it holds one entry per trial, numbered 0, 1, ..., whose
   * correct flags add up to total_correct, so accuracy recomputed from the log is
   * the accuracy on screen.
   */
  predicate Consistent<E>(st: St<E>)
  {
    && 0 <= st.totalCorrect <= st.trialNum
    && (st.handler ==>
          && |st.log| == st.trialNum
          && CountCorrect(st.log) == st.totalCorrect
          && forall i :: 0 <= i < |st.log| ==> st.log[i].trialNum == i)
  }

  /**
   * From `st` to `st2` exactly k trials were completed in one block: trial_num
   * went up by k, total_correct by at most k, and while a log is kept it gained
   * one entry per trial, numbered on from trial_num, whose correct flags add up
   * to the gain in total_correct. Without a log nothing was logged.
   */
  ghost predicate Advanced<E>(st: St<E>, st2: St<E>, k: int)
  {
    && k >= 0
    && st2.trialNum == st.trialNum + k
    && st.totalCorrect <= st2.totalCorrect <= st.totalCorrect + k
    && st2.handler == st.handler && st2.blockNum == st.blockNum
    && (!st.handler ==> st2.log == st.log)
    && (st.handler ==>
          && |st2.log| == |st.log| + k
          && st2.log[..|st.log|] == st.log
          && CountCorrect(st2.log) == CountCorrect(st.log) + (st2.totalCorrect - st.totalCorrect)
          && forall i :: |st.log| <= i < |st2.log| ==>
               st2.log[i].trialNum == st.trialNum + (i - |st.log|) && st2.log[i].block == st.blockNum)
  }

  lemma AdvancedTrans<E>(st: St<E>, st2: St<E>, st3: St<E>, k: int, m: int)
    requires Advanced(st, st2, k) && Advanced(st2, st3, m)
    ensures Advanced(st, st3, k + m)
  {
    if st.handler {
      assert st3.log[..|st.log|] == st3.log[..|st2.log|][..|st.log|];
      forall i | |st.log| <= i < |st3.log|
        ensures st3.log[i].trialNum == st.trialNum + (i - |st.log|) && st3.log[i].block == st.blockNum
      {
        if i < |st2.log| {
          assert st3.log[i] == st3.log[..|st2.log|][i];
        }
      }
    }
  }

  /** Completed trials keep the counters and the log consistent. */
  lemma ConsistentAdvanced<E>(st: St<E>, st2: St<E>, k: int)
    requires Consistent(st) && Advanced(st, st2, k)
    ensures Consistent(st2)
  {
    if st.handler {
      forall i | 0 <= i < |st2.log|
        ensures st2.log[i].trialNum == i
      {
        if i < |st.log| {
          assert st2.log[i] == st2.log[..|st.log|][i];
        }
      }
    }
  }

  /** One screen of the keyboard and trace state, shared by the script's functions. */
  class Screen {
    var keys: seq<string>
    var trace: seq<Event>
    var drawn: nat
    const rng: nat -> nat

    function State(): Io
      reads this
    {
      Io(keys, trace, drawn)
    }

    constructor (keys: seq<string>, rng: nat -> nat)
      ensures State() == Io(keys, [], 0) && this.rng == rng
    {
      this.keys := keys;
      this.trace := [];
      this.drawn := 0;
      this.rng := rng;
    }

    /** `win.flip()` after drawing `c` (and the photodiode patch when `diode`). */
    method Flip(c: Content, diode: bool)
      modifies this`trace
      ensures trace == old(trace) + [Event.Flip(c, diode)]
    {
      trace := trace + [Event.Flip(c, diode)];
    }

    /** `sendTrigger(channel=...)`, recorded. */
    method Pulse(channel: string)
      modifies this`trace
      ensures trace == old(trace) + [Event.Pulse(channel)]
    {
      trace := trace + [Event.Pulse(channel)];
    }

    /** One call into the random number generator, reduced to `0 .. bound - 1`. */
    method Draw(bound: nat) returns (v: nat)
      requires bound > 0
      modifies this`drawn
      ensures v == rng(old(drawn)) % bound && v < bound && drawn == old(drawn) + 1
    {
      v := rng(drawn) % bound;
      drawn := drawn + 1;
    }

    method WaitKeys(allowed: seq<string>) returns (key: Option<string>)
      modifies this`keys
      ensures var w := FirstAllowed(old(keys), allowed);
        && (w.None? ==> key.None? && keys == [])
        && (w.Some? ==> key == Some(w.value.0) && keys == w.value.1)
    {
      while keys != [] && keys[0] !in allowed
        invariant FirstAllowed(keys, allowed) == FirstAllowed(old(keys), allowed)
      {
        keys := keys[1..];
      }
      if keys == [] {
        key := None;
      } else {
        key := Some(keys[0]);
        keys := keys[1..];
      }
    }

    method Show(c: Content, allowed: seq<string>) returns (status: Status, key: Option<string>)
      modifies this`keys, this`trace
      ensures Step(status, State(), key) == Shown(old(State()), c, allowed)
    {
      Flip(c, false);
      key := WaitKeys(allowed);
      status := if key.None? then Stalled else Running;
    }

    method Resolve(key: string) returns (status: Status)
      modifies this`keys, this`trace
      ensures Step(status, State(), Some(key)) == Resolved(old(State()), key)
    {
      status := Running;
      if key == QuitKey {
        var s, ignored := Show(EndText, [ContinueKey]);
        status := if s == Running then Quitted else Stalled;
      } else if key == PauseKey {
        var s, ignored := Show(PauseText, [ContinueKey]);
        if s != Running {
          status := Stalled;
        } else {
          status, ignored := Show(ProgressText, ButtonKeys);
        }
      }
    }

    method PresentText(c: Content, allowed: seq<string>) returns (status: Status, key: Option<string>)
      modifies this`keys, this`trace
      ensures Step(status, State(), key) == TextShown(old(State()), c, allowed)
    {
      status, key := Show(c, allowed);
      if status == Running {
        status := Resolve(key.value);
      }
    }

    /** `present_text(setup_text, ['s', 'q'])`, then the instructions with the response keys. */
    method PresentIntro(instructions: Content) returns (status: Status, key: Option<string>)
      modifies this`keys, this`trace
      ensures Step(status, State(), key) == IntroShown(old(State()), instructions)
    {
      status, key := PresentText(Setup, [ContinueKey, QuitKey]);
      if status != Running {
        return;
      }
      status, key := PresentText(instructions, ResponseKeys);
    }

    /** `present_feedback` as evidently intended, with the fun-fact screens shown (the corrected half of the finding). */
    method PresentFeedback(c: Content, allowed: seq<string>, funFacts: nat) returns (status: Status, key: Option<string>)
      modifies this
      ensures Step(status, State(), key) == FeedbackShown(old(State()), c, allowed, rng, funFacts)
    {
      status, key := Show(c, allowed);
      if status != Running {
        return;
      }
      if key.value == SameKey {
        if funFacts == 0 {
          status := Fault;
        } else {
          status, key := PresentFunFact(funFacts);
        }
      } else {
        status := Resolve(key.value);
      }
    }

    /** `feedback_items.sample(1)`, then its prompt and its content. */
    method PresentFunFact(funFacts: nat) returns (status: Status, key: Option<string>)
      requires funFacts > 0
      modifies this
      ensures Step(status, State(), key) == FunFactShown(old(State()), rng, funFacts)
    {
      ghost var io := State();
      var item := Draw(funFacts);
      assert State() == io.(drawn := io.drawn + 1) && item == rng(io.drawn) % funFacts;
      status, key := PresentFact(item);
      assert FunFactShown(io, rng, funFacts) == FactShown(io.(drawn := io.drawn + 1), item);
    }

    /** The prompt of fun fact `item`, then its content. */
    method PresentFact(item: nat) returns (status: Status, key: Option<string>)
      modifies this`keys, this`trace
      ensures Step(status, State(), key) == FactShown(old(State()), item)
    {
      var ignored: Option<string>;
      status, ignored := PresentText(FunFactPrompt(item), AnyButtonKeys);
      if status == Running {
        status, ignored := PresentText(FunFactContent(item), AnyButtonKeys);
      }
      key := Some(SameKey);
    }

    /**
     * `present_feedback` as the scripts have it: after a "yes" it draws a fun
     * fact and then raises.
     */
    method PresentFeedbackAsWritten(c: Content, allowed: seq<string>, funFacts: nat) returns (status: Status, key: Option<string>)
      modifies this
      ensures Step(status, State(), key) == FeedbackShownAsWritten(old(State()), c, allowed, funFacts)
    {
      status, key := Show(c, allowed);
      if status != Running {
        return;
      }
      if key.value == SameKey {
        if funFacts > 0 {
          var item := Draw(funFacts);
        }
        status := Fault;
      } else {
        status := Resolve(key.value);
      }
    }

    /** The halfway checkpoint after block `b`. */
    method Halfway(b: int, correct: int, trials: int, funFacts: nat) returns (status: Status)
      modifies this
      ensures After(status, State()) == HalfwayShown(old(State()), b, correct, trials, funFacts)
    {
      var ignored: Option<string>;
      status, ignored := PresentText(EndOfBlock(b, correct, trials, true), ExperimentKeys);
      if status == Running {
        status, ignored := PresentFeedbackAsWritten(HalfwayGate, ButtonKeys, funFacts);
        if status == Running {
          status, ignored := PresentText(StartOfBlock(b + 1), AnyButtonKeys);
        }
      }
    }

    /** The checkpoint branch of the main loop after block `b` of `n`. */
    method Checkpoint(b: int, n: int, correct: int, trials: int, funFacts: nat) returns (status: Status)
      modifies this
      ensures After(status, State()) == CheckpointShown(old(State()), b, n, correct, trials, funFacts)
    {
      status := Running;
      if b == n / 2 {
        status := Halfway(b, correct, trials, funFacts);
      } else if b != n {
        var ignored: Option<string>;
        status, ignored := PresentText(EndOfBlock(b, correct, trials, false), AnyButtonKeys);
      }
    }
  }
}
