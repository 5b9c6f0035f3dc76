/**
 * Cutting the shuffled stimulus table into blocks. Both scripts take block i
 * to be rows [i * size, (i + 1) * size) of the shuffled table, for i < n_blocks;
 * in-person/main.py uses size = max(1, n_trials // n_blocks), experiment.py
 * uses size = n_trials // n_blocks. Each block, and then the list of blocks, is
 * shuffled again; a shuffle is any permutation here.
 */
module Blocks {
  import opened Wrappers

  /** Python's `s[lo:hi]` for non-negative bounds: out-of-range bounds are clamped. */
  function PySlice<T>(s: seq<T>, lo: nat, hi: nat): (r: seq<T>)
    ensures |r| == Max(0, Min(hi, |s|) - Min(lo, |s|))
  {
    s[Min(lo, |s|)..Min(Max(lo, hi), |s|)]
  }

  /** in-person/main.py: `max(1, n_trials // n_blocks)`. */
  function InPersonBlockSize(nTrials: nat, nBlocks: nat): (size: nat)
    requires nBlocks > 0
    ensures size >= 1
    ensures nTrials >= nBlocks ==> size * nBlocks <= nTrials < (size + 1) * nBlocks
  {
    Max(1, nTrials / nBlocks)
  }

  /** experiment.py: `n_trials // n_blocks`. */
  function LabBlockSize(nTrials: nat, nBlocks: nat): (size: nat)
    requires nBlocks > 0
    ensures size * nBlocks <= nTrials < (size + 1) * nBlocks
  {
    nTrials / nBlocks
  }

  /** `[items[i*size:(i+1)*size] for i in range(n_blocks)]`. */
  function Slices<T>(items: seq<T>, nBlocks: nat, size: nat): (blocks: seq<seq<T>>)
    ensures |blocks| == nBlocks
    ensures forall i :: 0 <= i < nBlocks ==> |blocks[i]| <= size
  {
    seq(nBlocks, i requires 0 <= i < nBlocks => PySlice(items, i * size, (i + 1) * size))
  }

  /** The blocks run one after another. */
  function Flatten<T>(blocks: seq<seq<T>>): seq<T>
  {
    if blocks == [] then [] else Flatten(blocks[..|blocks| - 1]) + blocks[|blocks| - 1]
  }

  lemma {:induction false} FlattenConcat<T>(a: seq<seq<T>>, b: seq<seq<T>>)
    ensures Flatten(a + b) == Flatten(a) + Flatten(b)
  {
    if b != [] {
      assert (a + b)[..|a + b| - 1] == a + b[..|b| - 1];
      FlattenConcat(a, b[..|b| - 1]);
    } else {
      assert a + b == a;
    }
  }

  /**
   * Taken together the blocks are exactly the first min(n_blocks * size, n_trials)
   * rows, each once and in table order: the blocks are pairwise disjoint and the
   * rows after position n_blocks * size are in none of them.
   */
  lemma {:induction false} SlicesArePrefix<T>(items: seq<T>, nBlocks: nat, size: nat)
    ensures Flatten(Slices(items, nBlocks, size)) == items[..Min(nBlocks * size, |items|)]
  {
    if nBlocks > 0 {
      var blocks := Slices(items, nBlocks, size);
      var k := nBlocks - 1;
      assert blocks[..k] == Slices(items, k, size);
      SlicesArePrefix(items, k, size);
      MulMono(0, k, size);
      MulSucc(k, size);
      assert blocks[k] == items[Min(k * size, |items|)..Min(nBlocks * size, |items|)];
    }
  }

  /** in-person/main.py keeps every row iff there are no more rows than blocks or the blocks divide them evenly. */
  lemma InPersonCoverage(nTrials: nat, nBlocks: nat)
    requires nBlocks > 0
    ensures nBlocks * InPersonBlockSize(nTrials, nBlocks) >= nTrials
        <==> nTrials <= nBlocks || nTrials % nBlocks == 0
  {
    var size := InPersonBlockSize(nTrials, nBlocks);
    if nTrials > nBlocks {
      assert size == nTrials / nBlocks;
      assert nBlocks * size + nTrials % nBlocks == nTrials;
    }
  }

  /** experiment.py drops the last n_trials % n_blocks rows of the shuffled table. */
  lemma LabDropsRemainder<T>(items: seq<T>, nBlocks: nat)
    requires nBlocks > 0
    ensures |Flatten(Slices(items, nBlocks, LabBlockSize(|items|, nBlocks)))| == |items| - |items| % nBlocks
  {
    var m := |items|;
    var size := LabBlockSize(m, nBlocks);
    SlicesArePrefix(items, nBlocks, size);
    DivSplit(m, nBlocks);
  }

  /** experiment.py: with fewer rows than blocks every block is empty. */
  lemma LabFewRowsEmptyBlocks<T>(items: seq<T>, nBlocks: nat)
    requires |items| < nBlocks
    ensures forall i :: 0 <= i < nBlocks ==> Slices(items, nBlocks, LabBlockSize(|items|, nBlocks))[i] == []
  {
    var size := LabBlockSize(|items|, nBlocks);
    assert size == 0;
    forall i | 0 <= i < nBlocks
      ensures Slices(items, nBlocks, size)[i] == []
    {
      assert i * size == 0 && (i + 1) * size == 0;
    }
  }

  /** n * (m / n) rows fill the blocks and m % n are left over. */
  lemma DivSplit(m: nat, n: nat)
    requires n > 0
    ensures n * (m / n) + m % n == m && Min(n * (m / n), m) == n * (m / n)
  {
  }

  lemma MulSucc(k: nat, size: nat)
    ensures (k + 1) * size == k * size + size
  {
  }

  lemma MulMono(a: nat, b: nat, c: nat)
    requires a <= b
    ensures a * c <= b * c
  {
  }

  /** Row p of block i is row i * size + p of the table, and p < size. */
  lemma SliceAt<T>(items: seq<T>, nBlocks: nat, size: nat, i: nat, p: nat) returns (x: nat)
    requires i < nBlocks && p < |Slices(items, nBlocks, size)[i]|
    ensures x == i * size + p && p < size && x < |items|
    ensures Slices(items, nBlocks, size)[i][p] == items[x]
  {
    MulMono(0, i, size);
    MulSucc(i, size);
    x := i * size + p;
  }

  /** Block i ends where block i + 1 starts, at or before the start of any later block j. */
  lemma StartsOrdered(i: nat, j: nat, size: nat)
    requires i < j
    ensures i * size + size <= j * size
  {
    MulMono(i + 1, j, size);
    MulSucc(i, size);
  }

  predicate Distinct<T(==)>(s: seq<T>)
  {
    forall p, q :: 0 <= p < q < |s| ==> s[p] != s[q]
  }

  /** With distinct rows no row lies in two blocks. */
  lemma DistinctRowsDisjointBlocks<T>(items: seq<T>, nBlocks: nat, size: nat, i: nat, j: nat, p: nat)
    requires Distinct(items) && i < j < nBlocks && p < |Slices(items, nBlocks, size)[i]|
    ensures Slices(items, nBlocks, size)[i][p] !in Slices(items, nBlocks, size)[j]
  {
    var blocks := Slices(items, nBlocks, size);
    forall q | 0 <= q < |blocks[j]|
      ensures blocks[j][q] != blocks[i][p]
    {
      var x, y := LaterRowIndex(items, nBlocks, size, i, j, p, q);
    }
  }

  /** Row p of block i comes before row q of a later block j in the table. */
  lemma LaterRowIndex<T>(items: seq<T>, nBlocks: nat, size: nat, i: nat, j: nat, p: nat, q: nat)
    returns (x: nat, y: nat)
    requires i < j < nBlocks
    requires p < |Slices(items, nBlocks, size)[i]| && q < |Slices(items, nBlocks, size)[j]|
    ensures x < y < |items|
    ensures Slices(items, nBlocks, size)[i][p] == items[x] && Slices(items, nBlocks, size)[j][q] == items[y]
  {
    x := SliceAt(items, nBlocks, size, i, p);
    y := SliceAt(items, nBlocks, size, j, q);
    StartsOrdered(i, j, size);
    Earlier(i * size, p, size, j * size, q);
  }

  lemma Earlier(a: int, p: int, size: int, b: int, q: int)
    requires p < size && a + size <= b && 0 <= q
    ensures a + p < b + q
  {
  }

  /** With distinct rows, the rows from position n_blocks * size on are in no block. */
  lemma DistinctRowsTailUnused<T>(items: seq<T>, nBlocks: nat, size: nat, p: nat, i: nat)
    requires Distinct(items) && nBlocks * size <= p < |items| && i < nBlocks
    ensures items[p] !in Slices(items, nBlocks, size)[i]
  {
    var blocks := Slices(items, nBlocks, size);
    forall q | 0 <= q < |blocks[i]|
      ensures blocks[i][q] != items[p]
    {
      var x := SliceAt(items, nBlocks, size, i, q);
      StartsOrdered(i, nBlocks, size);
    }
  }

  lemma {:induction false} FlattenPointwisePermutation<T>(a: seq<seq<T>>, b: seq<seq<T>>)
    requires |a| == |b|
    requires forall i :: 0 <= i < |a| ==> multiset(a[i]) == multiset(b[i])
    ensures multiset(Flatten(a)) == multiset(Flatten(b))
  {
    if a != [] {
      FlattenPointwisePermutation(a[..|a| - 1], b[..|b| - 1]);
    }
  }

  lemma {:induction false} FlattenPermutation<T>(a: seq<seq<T>>, b: seq<seq<T>>)
    requires multiset(a) == multiset(b)
    ensures multiset(Flatten(a)) == multiset(Flatten(b))
    decreases |a|
  {
    if a == [] {
      assert |b| == |multiset(b)| == 0;
    } else {
      var x := a[|a| - 1];
      var a' := a[..|a| - 1];
      assert multiset(a') == multiset(a) - multiset{x} by {
        assert a == a' + [x];
      }
      assert x in multiset(b) by {
        assert x in multiset(a);
      }
      var j :| 0 <= j < |b| && b[j] == x;
      var b' := b[..j] + b[j + 1..];
      assert multiset(b') == multiset(b) - multiset{x} by {
        assert b == b[..j] + [x] + b[j + 1..];
      }
      FlattenPermutation(a', b');
      FlattenRemoveAt(b, j);
      assert Flatten(a) == Flatten(a') + x;
    }
  }

  lemma FlattenRemoveAt<T>(b: seq<seq<T>>, j: nat)
    requires j < |b|
    ensures multiset(Flatten(b)) == multiset(Flatten(b[..j] + b[j + 1..])) + multiset(b[j])
  {
    FlattenSplit(b, j);
    FlattenConcat(b[..j], b[j + 1..]);
  }

  /** Block j sits between the blocks before it and the blocks after it. */
  lemma FlattenSplit<T>(b: seq<seq<T>>, j: nat)
    requires j < |b|
    ensures Flatten(b) == Flatten(b[..j]) + b[j] + Flatten(b[j + 1..])
  {
    var left, right := b[..j + 1], b[j + 1..];
    assert b == left + right;
    FlattenConcat(left, right);
    assert Flatten(b) == Flatten(left) + Flatten(right);
    FlattenPrefix(b, j);
  }

  /** The first k + 1 blocks are the first k blocks followed by block k. */
  lemma FlattenPrefix<T>(b: seq<seq<T>>, k: nat)
    requires k < |b|
    ensures Flatten(b[..k + 1]) == Flatten(b[..k]) + b[k]
  {
    assert b[..k + 1][..k] == b[..k];
  }

  /**
   * However the rows of each block and the list of blocks are reshuffled, the
   * trials presented over all blocks are, as a multiset, the first
   * min(n_blocks * size, n_trials) rows of the shuffled table.
   */
  lemma ShuffledBlocksKeepRows<T>(items: seq<T>, nBlocks: nat, size: nat,
                                   inner: seq<seq<T>>, blocks: seq<seq<T>>)
    requires |inner| == nBlocks
    requires forall i :: 0 <= i < nBlocks ==> multiset(inner[i]) == multiset(Slices(items, nBlocks, size)[i])
    requires multiset(blocks) == multiset(inner)
    ensures |blocks| == nBlocks
    ensures multiset(Flatten(blocks)) == multiset(items[..Min(nBlocks * size, |items|)])
  {
    assert |blocks| == |multiset(blocks)| == |multiset(inner)| == nBlocks;
    FlattenPermutation(blocks, inner);
    FlattenPointwisePermutation(inner, Slices(items, nBlocks, size));
    SlicesArePrefix(items, nBlocks, size);
  }
}
