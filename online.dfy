/**
 * The bookkeeping of the online version (online/data_includes/main.js): the
 * jitter list and its sampler, the separator-inserting sequence helper
 * `SepWithN`, the derived correct key, the practice success counter and the
 * break counter. The PennController screens themselves are not modelled.
 */
module Online {
  import opened Wrappers

  const JitterMin: int := 300
  const JitterMax: int := 700
  const JitterStep: int := 10
  const TrialsPerBlock: int := 25
  const TotalBlocks: int := 8
  const SameKey: string := "2"
  const DifferentKey: string := "1"

  /** lo, lo + step, lo + 2 * step, ... while the value is at most hi. */
  function Series(lo: int, hi: int, step: int): (r: seq<int>)
    requires step > 0
    decreases hi - lo + step
  {
    if lo > hi then [] else [lo] + Series(lo + step, hi, step)
  }

  /** The series is ascending, starts at lo, never passes hi, and goes up by `step`. */
  lemma {:induction false} SeriesShape(lo: int, hi: int, step: int)
    requires step > 0
    ensures var r := Series(lo, hi, step);
      && (lo <= hi ==> r != [] && r[0] == lo && hi - step < r[|r| - 1])
      && (forall i :: 0 <= i < |r| ==> lo <= r[i] <= hi)
      && (forall i :: 0 < i < |r| ==> r[i] == r[i - 1] + step)
    decreases hi - lo + step
  {
    if lo <= hi {
      SeriesShape(lo + step, hi, step);
    }
  }

  /** The online jitter list has the 41 values 300, 310, ..., 700. */
  lemma JitterSeriesValues()
    ensures var r := Series(JitterMin, JitterMax, JitterStep);
      |r| == 41 && forall i :: 0 <= i < 41 ==> r[i] == 300 + 10 * i
  {
    var r := Series(JitterMin, JitterMax, JitterStep);
    SeriesLength(JitterMin, JitterMax, JitterStep, 41);
    SeriesAt(JitterMin, JitterMax, JitterStep);
  }

  lemma {:induction false} SeriesLength(lo: int, hi: int, step: int, k: nat)
    requires step > 0 && lo + (k - 1) * step <= hi < lo + k * step
    ensures |Series(lo, hi, step)| == k
    decreases k
  {
    if k > 0 {
      SeriesLength(lo + step, hi, step, k - 1);
    }
  }

  lemma {:induction false} SeriesAt(lo: int, hi: int, step: int)
    requires step > 0
    ensures forall i :: 0 <= i < |Series(lo, hi, step)| ==> Series(lo, hi, step)[i] == lo + i * step
    decreases hi - lo + step
  {
    if lo <= hi {
      SeriesAt(lo + step, hi, step);
      var r := Series(lo, hi, step);
      forall i | 0 < i < |r|
        ensures r[i] == lo + i * step
      {
        assert r[i] == Series(lo + step, hi, step)[i - 1];
      }
    }
  }

  /** `Math.floor(Math.random() * array.length / 10) * 10` for a draw r in [0, 1). */
  function SampleIndex(len: nat, r: real): (sel: int)
    requires 0.0 <= r < 1.0
    ensures sel >= 0 && sel % 10 == 0
    ensures len > 0 ==> sel < len
  {
    assert 0.0 <= r * len as real && (len > 0 ==> r * len as real < len as real) by {
      if len > 0 {
        FractionBelow(r, len as real);
      }
    }
    TenthsFloorBounds(r * len as real, len);
    (r * len as real / 10.0).Floor * 10
  }

  /** For 0 <= y (< len when len > 0), the largest multiple of 10 at most y is in range. */
  lemma TenthsFloorBounds(y: real, len: nat)
    requires 0.0 <= y && (len > 0 ==> y < len as real)
    ensures var sel := (y / 10.0).Floor * 10; sel >= 0 && (len > 0 ==> sel < len)
  {
    var x := y / 10.0;
    assert x * 10.0 == y;
    var f := x.Floor;
    assert f as real <= x && 0 <= f;
    assert (f * 10) as real == f as real * 10.0 <= y;
  }

  lemma FractionBelow(r: real, l: real)
    requires 0.0 <= r < 1.0 && l > 0.0
    ensures 0.0 <= r * l < l
  {
    assert l - r * l == (1.0 - r) * l;
  }

  /** `sample(array)`: None when the index falls outside the array (JavaScript's `undefined`). */
  function Sample(a: seq<int>, r: real): (v: Option<int>)
    requires 0.0 <= r < 1.0
    ensures a != [] ==> v.Some? && v.value in a
  {
    var sel := SampleIndex(|a|, r);
    if sel < |a| then Some(a[sel]) else None
  }

  /**
   * Drawn from the 41-value jitter list, `sample` yields only 300, 400, 500, 600
   * or 700, and each of the five is drawn for some r.
   */
  lemma SampleJitterFiveValues(r: real)
    requires 0.0 <= r < 1.0
    ensures Sample(Series(JitterMin, JitterMax, JitterStep), r) in
      {Some(300), Some(400), Some(500), Some(600), Some(700)}
  {
    var a := Series(JitterMin, JitterMax, JitterStep);
    JitterSeriesValues();
    var sel := SampleIndex(|a|, r);
    assert sel in {0, 10, 20, 30, 40};
  }

  lemma SampleJitterReaches(k: nat)
    requires k < 5
    ensures var r := (10 * k) as real / 41.0;
      0.0 <= r < 1.0 && Sample(Series(JitterMin, JitterMax, JitterStep), r) == Some(300 + 100 * k)
  {
    var a := Series(JitterMin, JitterMax, JitterStep);
    JitterSeriesValues();
    var r := (10 * k) as real / 41.0;
    assert r * 41.0 / 10.0 == k as real;
    assert SampleIndex(|a|, r) == 10 * k;
  }

  /** `row.Sentence === row.Probe ? CONFIG.keys.same : CONFIG.keys.different`. */
  function CorrectResponse(sentence: string, probe: string): (k: string)
    ensures k == SameKey <==> sentence == probe
    ensures k == DifferentKey <==> sentence != probe
  {
    if sentence == probe then SameKey else DifferentKey
  }

  /** `(v || 0) + 1`, the update of the global `block_n` at each break. */
  function NextBlockN(v: Option<int>): int
  {
    (if v.None? || v == Some(0) then 0 else v.value) + 1
  }

  /** The value of `block_n` after k breaks. */
  function BlockNAfter(k: nat): Option<int>
  {
    if k == 0 then None else Some(NextBlockN(BlockNAfter(k - 1)))
  }

  /** The k-th break announces block k. */
  lemma {:induction false} BlockNCountsBreaks(k: nat)
    ensures BlockNAfter(k) == if k == 0 then None else Some(k)
  {
    if k > 0 {
      BlockNCountsBreaks(k - 1);
    }
  }

  /** The script's global variables. */
  class OnlineState {
    var correctCount: int
    var jitterValues: seq<int>
    var blockN: Option<int>

    constructor ()
      ensures correctCount == 0 && jitterValues == [] && blockN == None
    {
      correctCount := 0;
      jitterValues := [];
      blockN := None;
    }

    /** `initializeJitter()`: append min, min + step, ... while at most max. */
    method InitializeJitter()
      modifies this`jitterValues
      ensures jitterValues == old(jitterValues) + Series(JitterMin, JitterMax, JitterStep)
    {
      var i := JitterMin;
      while i <= JitterMax
        invariant jitterValues + Series(i, JitterMax, JitterStep)
               == old(jitterValues) + Series(JitterMin, JitterMax, JitterStep)
        decreases JitterMax - i
      {
        jitterValues := jitterValues + [i];
        i := i + JitterStep;
      }
    }

    /**
     * The practice key test. Its success branch only creates the element
     * `newFunction(() => correctCount += 1)`; a PennController Function element
     * runs its body when `.call()` is issued on it, and the script never issues
     * it, so the counter keeps its value on both branches.
     */
    method AnswerPractice(sentence: string, probe: string, pressed: string) returns (success: bool)
      modifies this`correctCount
      ensures success <==> pressed == CorrectResponse(sentence, probe)
      ensures correctCount == old(correctCount)
    {
      success := pressed == CorrectResponse(sentence, probe);
    }

    /** The break screen: `block_n` becomes `(v || 0) + 1`; the screen announces that number. */
    method Break() returns (announced: int)
      modifies this`blockN
      ensures announced == NextBlockN(old(blockN)) && blockN == Some(announced)
    {
      announced := NextBlockN(blockN);
      blockN := Some(announced);
    }
  }

  /** A JavaScript array, shared by reference. */
  class JsArray<T> {
    var items: seq<T>

    constructor (items: seq<T>)
      ensures this.items == items
    {
      this.items := items;
    }

    /** `Array.prototype.shift`: remove and return the first element (undefined when empty). */
    method Shift() returns (x: Option<T>)
      modifies this
      ensures old(items) == [] ==> x == None && items == []
      ensures old(items) != [] ==> x == Some(old(items)[0]) && items == old(items)[1..]
    {
      if items == [] {
        x := None;
      } else {
        x := Some(items[0]);
        items := items[1..];
      }
    }
  }

  /**
   * What `SepWithN.run` builds from `main`: groups of up to n items, each
   * followed by the separator. When `sep` and `main` are the same array, the
   * "separator" read after a group is what is left of `main` at that moment.
   */
  function Grouped<T>(sep: seq<T>, main: seq<T>, n: int, aliased: bool): seq<T>
    requires n > 0
    decreases |main|
  {
    if main == [] then []
    else
      var k := Min(n, |main|);
      main[..k] + (if aliased then main[k..] else sep) + Grouped(sep, main[k..], n, aliased)
  }

  /** The number of groups of up to n items that m items make: the ceiling of m / n. */
  function CeilDiv(m: nat, n: nat): nat
    requires n > 0
    decreases m
  {
    if m == 0 then 0 else 1 + CeilDiv(m - Min(n, m), n)
  }

  /** CeilDiv is the ceiling: the least q with q * n >= m. */
  lemma {:induction false} CeilDivBounds(m: nat, n: nat)
    requires n > 0
    ensures CeilDiv(m, n) * n >= m
    ensures m > 0 ==> (CeilDiv(m, n) - 1) * n < m
    decreases m
  {
    if m > 0 {
      CeilDivBounds(m - Min(n, m), n);
    }
  }

  /** The output holds `main` plus one whole copy of `sep` per group of n: len + ceil(len / n) * |sep| items. */
  lemma {:induction false} GroupedLength<T>(sep: seq<T>, main: seq<T>, n: int)
    requires n > 0
    ensures |Grouped(sep, main, n, false)| == |main| + CeilDiv(|main|, n) * |sep|
    decreases |main|
  {
    if main != [] {
      var k := Min(n, |main|);
      GroupedLength(sep, main[k..], n);
    }
  }

  /** Skipping the separator slots: groups of up to n items, each followed by sepLen slots to skip. */
  function Ungroup<T>(out: seq<T>, n: int, sepLen: nat, m: nat): seq<T>
    requires n > 0
    decreases m
  {
    if m == 0 then []
    else
      var k := Min(n, m);
      if |out| < k + sepLen then out else out[..k] + Ungroup(out[k + sepLen..], n, sepLen, m - k)
  }

  /** Dropping the separator slots gives back `main`, in its original order. */
  lemma {:induction false} UngroupGrouped<T>(sep: seq<T>, main: seq<T>, n: int)
    requires n > 0
    ensures Ungroup(Grouped(sep, main, n, false), n, |sep|, |main|) == main
    decreases |main|
  {
    if main != [] {
      var k := Min(n, |main|);
      var out := Grouped(sep, main, n, false);
      var rest := Grouped(sep, main[k..], n, false);
      assert out == main[..k] + sep + rest;
      assert out[..k] == main[..k];
      assert out[k + |sep|..] == rest;
      UngroupGrouped(sep, main[k..], n);
      assert main == main[..k] + main[k..];
    }
  }

  /** A non-empty `main` always ends with a full copy of `sep`, after the last group too. */
  lemma {:induction false} GroupedEndsWithSep<T>(sep: seq<T>, main: seq<T>, n: int)
    requires n > 0 && main != []
    ensures var out := Grouped(sep, main, n, false);
      |out| >= |sep| && out[|out| - |sep|..] == sep
    decreases |main|
  {
    var k := Min(n, |main|);
    if main[k..] != [] {
      GroupedEndsWithSep(sep, main[k..], n);
    }
  }

  /**
   * With a one-item separator that does not occur in `main` (the "break" screen),
   * the output holds ceil(len / n) separators: one break per block of trials.
   */
  lemma {:induction false} GroupedSeparatorCount<T>(s: T, main: seq<T>, n: int)
    requires n > 0 && s !in main
    ensures multiset(Grouped([s], main, n, false))[s] == CeilDiv(|main|, n)
    decreases |main|
  {
    if main != [] {
      var k := Min(n, |main|);
      assert main == main[..k] + main[k..];
      assert s !in main[..k] && s !in main[k..];
      GroupedSeparatorCount(s, main[k..], n);
    }
  }

  /**
   * With the full 200-trial test list (8 blocks of 25) and a break item that is
   * not a trial, `sepWithN` inserts 8 breaks and the last one announces block 8 of 8.
   * Whether `randomize("test")` selects the trials labelled "text_test" depends on
   * PennController's label matching, which is not modelled; the list is a parameter.
   */
  lemma BreaksMatchTotalBlocks<T>(brk: T, test: seq<T>)
    requires |test| == TrialsPerBlock * TotalBlocks && brk !in test
    ensures multiset(Grouped([brk], test, TrialsPerBlock, false))[brk] == TotalBlocks
    ensures BlockNAfter(TotalBlocks) == Some(TotalBlocks)
  {
    GroupedSeparatorCount(brk, test, TrialsPerBlock);
    CeilDivBounds(|test|, TrialsPerBlock);
    BlockNCountsBreaks(TotalBlocks);
  }

  datatype SepError = WrongArgumentCount | NonPositiveN

  /** `new SepWithN(sep, main, n)`: `run` receives the two arrays once they are built. */
  class SepWithN<T> {
    const n: int

    constructor (n: int)
      ensures this.n == n
    {
      this.n := n;
    }

    /** `run(arrays)`: validate the arguments, then interleave, emptying `main` by `shift`. */
    method Run(arrays: seq<JsArray<T>>) returns (r: Result<JsArray<T>, SepError>)
      modifies arrays
      ensures |arrays| != 2 ==> r == Failure(WrongArgumentCount) && unchanged(arrays)
      ensures |arrays| == 2 && n <= 0 ==> r == Failure(NonPositiveN) && unchanged(arrays)
      ensures |arrays| == 2 && n > 0 && |old(arrays[1].items)| <= 1 ==>
                r == Success(arrays[1]) && unchanged(arrays)
      ensures |arrays| == 2 && n > 0 && |old(arrays[1].items)| > 1 ==>
                && r.Success? && fresh(r.value) && arrays[1].items == []
                && r.value.items == Grouped(old(arrays[0].items), old(arrays[1].items), n, arrays[0] == arrays[1])
                && (arrays[0] != arrays[1] ==> unchanged(arrays[0]))
    {
      if |arrays| != 2 {
        return Failure(WrongArgumentCount);
      }
      if n <= 0 {
        return Failure(NonPositiveN);
      }
      var sep := arrays[0];
      var main := arrays[1];
      if |main.items| <= 1 {
        return Success(main);
      }
      var newArray := Interleave(sep, main);
      var out := new JsArray(newArray);
      return Success(out);
    }

    /** The `while (main.length)` loop of `run`: n shifted items, then a copy of `sep`, until `main` is empty. */
    method Interleave(sep: JsArray<T>, main: JsArray<T>) returns (newArray: seq<T>)
      requires n > 0
      modifies main
      ensures newArray == Grouped(old(sep.items), old(main.items), n, sep == main)
      ensures main.items == []
    {
      ghost var main0 := main.items;
      ghost var sep0 := sep.items;
      ghost var aliased := sep == main;
      newArray := [];
      while |main.items| > 0
        invariant newArray + Grouped(sep0, main.items, n, aliased) == Grouped(sep0, main0, n, aliased)
        invariant aliased ==> sep.items == main.items
        invariant !aliased ==> sep.items == sep0
        decreases |main.items|
      {
        ghost var before := main.items;
        var group := TakeGroup(main);
        var copy := Copy(sep);
        assert copy == if aliased then before[|group|..] else sep0;
        assert Grouped(sep0, before, n, aliased) == group + copy + Grouped(sep0, main.items, n, aliased);
        newArray := newArray + (group + copy);
      }
    }

    /** `for (let i = 0; i < n && main.length > 0; i++) newArray.push(main.shift())`. */
    method TakeGroup(main: JsArray<T>) returns (group: seq<T>)
      requires n > 0
      modifies main
      ensures var k := Min(n, |old(main.items)|);
        group == old(main.items)[..k] && main.items == old(main.items)[k..]
    {
      ghost var before := main.items;
      group := [];
      var i := 0;
      while i < n && |main.items| > 0
        invariant 0 <= i <= Min(n, |before|)
        invariant main.items == before[i..] && group == before[..i]
      {
        var x := main.Shift();
        group := group + [x.value];
        i := i + 1;
      }
    }

    /** `for (let j = 0; j < sep.length; ++j) newArray.push(sep[j])`. */
    method Copy(sep: JsArray<T>) returns (copy: seq<T>)
      ensures copy == sep.items
    {
      copy := [];
      var j := 0;
      while j < |sep.items|
        invariant 0 <= j <= |sep.items| && copy == sep.items[..j]
      {
        copy := copy + [sep.items[j]];
        j := j + 1;
      }
    }
  }
}
