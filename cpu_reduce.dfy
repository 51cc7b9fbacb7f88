/**
 * The host thread-pool reduction.
 *
 * T worker threads each sum a contiguous chunk of the data into their own
 * slot of a partial-sum array (the last thread also takes the remainder),
 * then combine the partials in barrier-separated rounds s = T/2, T/4, ..., 1
 * in which every thread with id < s adds slot id + s into slot id.
 *
 * Threads and the POSIX barrier are replaced by sequential loops: within a
 * round each writer id < s writes only its own slot and reads only its own
 * slot and slot id + s >= s, which no thread writes in that round, so running
 * the ids one after another gives the same array as running them at once; the
 * rounds themselves are
 * ordered by the barrier. Round states this simultaneous update and
 * CombineRound is proved to compute it. Element values are integers: the
 * data are all 1.0, so every partial sum is exact.
 */
module CpuReduce {
  import opened Powers

  /** Threads used when the hardware reports zero cores. */
  const FALLBACK_THREADS: nat := 4

  /** Sum of a sequence, adding the last element last (as the chunk loop does). */
  function Sum(s: seq<int>): int
  {
    if s == [] then 0 else Sum(s[..|s| - 1]) + s[|s| - 1]
  }


  // ---------------------------------------------------------------------
  // Phase 1: chunk partitioning and per-thread sums
  // ---------------------------------------------------------------------

  /** First index of thread id's chunk when n elements are split across t threads. */
  function ChunkStart(id: nat, n: nat, t: nat): nat
    requires t > 0
  {
    id * (n / t)
  }

  /** One past the last index of thread id's chunk: the last thread runs to n. */
  function ChunkEnd(id: nat, n: nat, t: nat): nat
    requires t > 0
  {
    if id == t - 1 then n else ChunkStart(id, n, t) + n / t
  }

  lemma MulMonotone(a: nat, b: nat, q: nat)
    requires a <= b
    ensures a * q <= b * q
  {
  }

  lemma MulStrict(c: int, a: nat, b: nat)
    requires c > 0 && a < b
    ensures c * a < c * b
  {
  }

  lemma ChunkInRange(id: nat, n: nat, t: nat)
    requires id < t
    ensures ChunkStart(id, n, t) <= ChunkEnd(id, n, t) <= n
  {
    var q := n / t;
    if id < t - 1 {
      MulMonotone(id + 1, t, q);
      assert (id + 1) * q == id * q + q;
      assert t * q <= n;
    } else {
      MulMonotone(id, t, q);
      assert t * q <= n;
    }
  }

  /** The thread whose chunk holds index k. */
  function Owner(k: nat, n: nat, t: nat): nat
    requires t > 0
  {
    if n / t == 0 then t - 1
    else if k / (n / t) < t - 1 then k / (n / t)
    else t - 1
  }

  lemma ChunksOrdered(i: nat, j: nat, n: nat, t: nat)
    requires i < j < t
    ensures ChunkEnd(i, n, t) <= ChunkStart(j, n, t)
    ensures j == i + 1 ==> ChunkEnd(i, n, t) == ChunkStart(j, n, t)
  {
    var q := n / t;
    MulMonotone(i + 1, j, q);
    assert (i + 1) * q == i * q + q;
  }

  lemma OwnerHoldsIndex(k: nat, n: nat, t: nat)
    requires t > 0 && k < n
    ensures Owner(k, n, t) < t
    ensures ChunkStart(Owner(k, n, t), n, t) <= k < ChunkEnd(Owner(k, n, t), n, t)
  {
    var q := n / t;
    var o := Owner(k, n, t);
    if q == 0 {
      assert ChunkStart(o, n, t) == 0;
    } else {
      var d := k / q;
      assert d * q <= k < d * q + q;
      if d < t - 1 {
        assert o == d;
        assert ChunkEnd(o, n, t) == d * q + q;
      } else {
        assert o == t - 1;
        MulMonotone(t - 1, d, q);
      }
    }
  }

  /**
   * The chunks partition [0, n): each lies inside [0, n), they are pairwise
   * disjoint and in thread order, consecutive ones touch, and every index
   * below n lies in the chunk of exactly one thread, also when n < t.
   */
  lemma ChunksPartition(n: nat, t: nat)
    requires t > 0
    ensures ChunkStart(0, n, t) == 0 && ChunkEnd(t - 1, n, t) == n
    ensures forall id :: 0 <= id < t ==> ChunkStart(id, n, t) <= ChunkEnd(id, n, t) <= n
    ensures forall i, j :: 0 <= i < j < t ==> ChunkEnd(i, n, t) <= ChunkStart(j, n, t)
    ensures forall i :: 0 <= i < t - 1 ==> ChunkEnd(i, n, t) == ChunkStart(i + 1, n, t)
    ensures forall k :: 0 <= k < n ==>
      Owner(k, n, t) < t && ChunkStart(Owner(k, n, t), n, t) <= k < ChunkEnd(Owner(k, n, t), n, t)
  {
    forall id | 0 <= id < t
      ensures ChunkStart(id, n, t) <= ChunkEnd(id, n, t) <= n
    {
      ChunkInRange(id, n, t);
    }
    forall i, j | 0 <= i < j < t
      ensures ChunkEnd(i, n, t) <= ChunkStart(j, n, t)
    {
      ChunksOrdered(i, j, n, t);
    }
    forall i | 0 <= i < t - 1
      ensures ChunkEnd(i, n, t) == ChunkStart(i + 1, n, t)
    {
      ChunksOrdered(i, i + 1, n, t);
    }
    forall k | 0 <= k < n
      ensures Owner(k, n, t) < t && ChunkStart(Owner(k, n, t), n, t) <= k < ChunkEnd(Owner(k, n, t), n, t)
    {
      OwnerHoldsIndex(k, n, t);
    }
  }

  /** Phase 1: partial i is the sum of thread i's chunk. */
  function PhaseOne(data: seq<int>, t: nat): (p: seq<int>)
    requires t > 0
    ensures |p| == t
  {
    seq(t, id requires 0 <= id < t =>
      ChunkInRange(id, |data|, t);
      Sum(data[ChunkStart(id, |data|, t)..ChunkEnd(id, |data|, t)]))
  }

  lemma {:induction false} SumSplit(s: seq<int>, a: nat, b: nat)
    requires a <= b <= |s|
    ensures Sum(s[..b]) == Sum(s[..a]) + Sum(s[a..b])
    decreases b
  {
    if b > a {
      SumSplit(s, a, b - 1);
      assert s[..b][..b - 1] == s[..b - 1];
      assert s[a..b][..b - 1 - a] == s[a..b - 1];
    } else {
      assert s[a..b] == [];
    }
  }

  /** The first j partials add up to the data up to the end of chunk j - 1. */
  lemma {:induction false} PhaseOnePrefix(data: seq<int>, t: nat, j: nat)
    requires 1 <= j <= t
    ensures ChunkEnd(j - 1, |data|, t) <= |data|
    ensures Sum(PhaseOne(data, t)[..j]) == Sum(data[..ChunkEnd(j - 1, |data|, t)])
    decreases j
  {
    var n := |data|;
    var p := PhaseOne(data, t);
    ChunkInRange(j - 1, n, t);
    assert p[..j][..j - 1] == p[..j - 1];
    assert Sum(p[..j]) == Sum(p[..j - 1]) + p[j - 1];
    if j == 1 {
      assert p[..0] == [];
      assert data[0..ChunkEnd(0, n, t)] == data[..ChunkEnd(0, n, t)];
    } else {
      PhaseOnePrefix(data, t, j - 1);
      ChunksOrdered(j - 2, j - 1, n, t);
      SumSplit(data, ChunkStart(j - 1, n, t), ChunkEnd(j - 1, n, t));
    }
  }

  /** The partials of phase 1 add up to the sum of the whole data. */
  lemma PhaseOneTotal(data: seq<int>, t: nat)
    requires t > 0
    ensures Sum(PhaseOne(data, t)) == Sum(data)
  {
    PhaseOnePrefix(data, t, t);
    assert PhaseOne(data, t)[..t] == PhaseOne(data, t);
    assert data[..|data|] == data;
  }

  // ---------------------------------------------------------------------
  // Phase 2: the halving rounds
  // ---------------------------------------------------------------------

  /** Round s done by all threads at once: slot id < s becomes p[id] + p[id + s]; the rest is unchanged. */
  function Round(p: seq<int>, s: nat): (q: seq<int>)
    requires 2 * s <= |p|
    ensures |q| == |p|
  {
    seq(|p|, j requires 0 <= j < |p| => if j < s then p[j] + p[j + s] else p[j])
  }

  /** The rounds s, s/2, ..., 1. */
  function Rounds(p: seq<int>, s: nat): (q: seq<int>)
    requires 2 * s <= |p|
    ensures |q| == |p|
    decreases s
  {
    if s == 0 then p else Rounds(Round(p, s), s / 2)
  }

  /** All rounds of a pool of |p| threads, starting from s = |p| / 2. */
  function TreeCombine(p: seq<int>): (q: seq<int>)
    ensures |q| == |p|
  {
    Rounds(p, |p| / 2)
  }

  /** Number of rounds the loop `for (s = x; s > 0; s >>= 1)` runs. */
  function RoundCount(s: nat): nat
  {
    if s == 0 then 0 else 1 + RoundCount(s / 2)
  }

  /** The rounds started at t / 2 number floor(log2 t): 2^k <= t < 2^(k+1); 2^k == t exactly when t is a power of two. */
  lemma {:induction false} RoundCountIsFloorLog2(t: nat)
    requires t >= 1
    ensures Pow2(RoundCount(t / 2)) <= t < 2 * Pow2(RoundCount(t / 2))
    ensures Pow2(RoundCount(t / 2)) == t <==> IsPow2(t)
    decreases t
  {
    if t >= 2 {
      RoundCountIsFloorLog2(t / 2);
      assert RoundCount(t / 2) == 1 + RoundCount(t / 2 / 2);
    }
  }

  lemma {:induction false} RoundPrefixSum(p: seq<int>, s: nat, j: nat)
    requires 2 * s <= |p| && j <= s
    ensures Sum(Round(p, s)[..j]) == Sum(p[..j]) + Sum(p[s..s + j])
    decreases j
  {
    if j > 0 {
      RoundPrefixSum(p, s, j - 1);
      var q := Round(p, s);
      assert q[..j][..j - 1] == q[..j - 1];
      assert p[..j][..j - 1] == p[..j - 1];
      assert p[s..s + j][..j - 1] == p[s..s + j - 1];
    } else {
      assert p[s..s] == [];
    }
  }

  /** For s a power of two, the rounds s, s/2, ..., 1 leave the sum of the first 2s slots in slot 0. */
  lemma {:induction false} RoundsSumPrefix(p: seq<int>, s: nat)
    requires IsPow2(s) && 2 * s <= |p|
    ensures Rounds(p, s)[0] == Sum(p[..2 * s])
    decreases s
  {
    var q := Round(p, s);
    RoundFoldsPrefix(p, s);
    if s == 1 {
      assert Rounds(p, 1) == Rounds(q, 0) == q;
      assert q[..1][..0] == [];
      assert Sum(q[..1]) == q[0];
    } else {
      RoundsSumPrefix(q, s / 2);
      assert 2 * (s / 2) == s;
    }
  }

  /** One round folds the first 2s slots into the first s. */
  lemma RoundFoldsPrefix(p: seq<int>, s: nat)
    requires 2 * s <= |p|
    ensures Sum(Round(p, s)[..s]) == Sum(p[..2 * s])
  {
    RoundPrefixSum(p, s, s);
    SumSplit(p, s, 2 * s);
    assert p[..2 * s][..s] == p[..s];
    assert p[..2 * s][s..2 * s] == p[s..2 * s];
  }

  /** With a power-of-two number of threads, slot 0 ends up holding the sum of all partials. */
  lemma TreeCombineSum(p: seq<int>)
    requires IsPow2(|p|)
    ensures TreeCombine(p)[0] == Sum(p)
  {
    if |p| == 1 {
      assert p[..0] == [];
      assert p == p[..0] + [p[0]];
    } else {
      RoundsSumPrefix(p, |p| / 2);
      assert p[..2 * (|p| / 2)] == p;
    }
  }

  lemma {:induction false} SumUniform(p: seq<int>, c: int)
    requires forall j :: 0 <= j < |p| ==> p[j] == c
    ensures Sum(p) == c * |p|
    decreases |p|
  {
    if p != [] {
      SumUniform(p[..|p| - 1], c);
    }
  }

  lemma {:induction false} RoundsUniform(p: seq<int>, s: nat, v: int)
    requires 1 <= |p| && 2 * s <= |p|
    requires forall j :: 0 <= j < |p| && (j < 2 * s || j == 0) ==> p[j] == v
    ensures Rounds(p, s)[0] == v * Pow2(RoundCount(s))
    decreases s
  {
    if s > 0 {
      var q := Round(p, s);
      RoundUniformStep(p, s, v);
      RoundsUniform(q, s / 2, 2 * v);
      assert Rounds(p, s) == Rounds(q, s / 2);
      var k := RoundCount(s / 2);
      assert Pow2(RoundCount(s)) == 2 * Pow2(k);
      MulDouble(v, Pow2(k));
    }
  }

  lemma MulDouble(v: int, r: int)
    ensures v * (2 * r) == (2 * v) * r
  {
  }

  /** One round on slots that all hold v leaves 2v in every slot the next round reads. */
  lemma RoundUniformStep(p: seq<int>, s: nat, v: int)
    requires 1 <= |p| && 1 <= s && 2 * s <= |p|
    requires forall j :: 0 <= j < |p| && (j < 2 * s || j == 0) ==> p[j] == v
    ensures forall j :: 0 <= j < |p| && (j < 2 * (s / 2) || j == 0) ==> Round(p, s)[j] == 2 * v
  {
    forall j | 0 <= j < |p| && (j < 2 * (s / 2) || j == 0)
      ensures Round(p, s)[j] == 2 * v
    {
      assert j < s && j + s < 2 * s;
    }
  }

  /**
   * With t threads not a power of two the rounds lose partials: if every
   * partial is c > 0, slot 0 ends up as c * 2^floor(log2 t), short of the
   * total c * t (for t = 6: 4c instead of 6c).
   */
  lemma NonPowerOfTwoShortfall(p: seq<int>, c: int)
    requires |p| >= 1 && !IsPow2(|p|) && c > 0
    requires forall j :: 0 <= j < |p| ==> p[j] == c
    ensures TreeCombine(p)[0] == c * Pow2(RoundCount(|p| / 2))
    ensures TreeCombine(p)[0] < Sum(p)
  {
    RoundsUniform(p, |p| / 2, c);
    RoundCountIsFloorLog2(|p|);
    SumUniform(p, c);
    var k := Pow2(RoundCount(|p| / 2));
    assert k < |p|;
    MulStrict(c, k, |p|);
  }

  lemma SumOfThree(a: seq<int>)
    requires |a| == 3
    ensures Sum(a) == a[0] + a[1] + a[2]
  {
    assert a[..2][..1] == a[..1];
    assert a[..1][..0] == [];
    assert Sum(a[..1]) == a[0];
    assert Sum(a[..2]) == Sum(a[..1]) + a[1];
    assert Sum(a) == Sum(a[..2]) + a[2];
  }

  /** For six threads the rounds s = 3, 1 never fold slots 2 and 5 into slot 0. */
  lemma SixThreadsDropTwoPartials(p: seq<int>)
    requires |p| == 6
    ensures TreeCombine(p)[0] == p[0] + p[1] + p[3] + p[4]
    ensures TreeCombine(p)[0] == Sum(p) - p[2] - p[5]
  {
    var q := Round(p, 3);
    var r := Round(q, 1);
    assert r[0] == p[0] + p[3] + p[1] + p[4];
    assert TreeCombine(p) == r;
    SumSplit(p, 3, 6);
    assert p[..6] == p;
    SumOfThree(p[..3]);
    SumOfThree(p[3..6]);
  }

  // ---------------------------------------------------------------------
  // A combine that is correct for every thread count
  // ---------------------------------------------------------------------

  function Zeros(k: nat): (z: seq<int>)
    ensures |z| == k && forall j :: 0 <= j < k ==> z[j] == 0
  {
    seq(k, _ => 0)
  }

  /** The least power of two that is at least t. */
  function NextPow2(t: nat): (r: nat)
    ensures IsPow2(r) && t <= r
    ensures r == 1 || r / 2 < t
    ensures IsPow2(t) ==> r == t
    decreases t
  {
    if t <= 1 then 1 else 2 * NextPow2((t + 1) / 2)
  }

  /** The guarded round: slot id < s takes slot id + s only when that slot exists. */
  function GuardedRound(p: seq<int>, s: nat): (q: seq<int>)
    ensures |q| == |p|
  {
    seq(|p|, j requires 0 <= j < |p| => if j < s && j + s < |p| then p[j] + p[j + s] else p[j])
  }

  function GuardedRounds(p: seq<int>, s: nat): (q: seq<int>)
    ensures |q| == |p|
    decreases s
  {
    if s == 0 then p else GuardedRounds(GuardedRound(p, s), s / 2)
  }

  /** The corrected combine: guarded rounds from half the next power of two down to 1. */
  function FixedCombine(p: seq<int>): (q: seq<int>)
    ensures |q| == |p|
  {
    GuardedRounds(p, NextPow2(|p|) / 2)
  }

  /** A guarded round on p is the unguarded round on p padded with zero slots. */
  lemma PaddedRound(p: seq<int>, k: nat, s: nat)
    requires 2 * s <= |p| + k
    ensures Round(p + Zeros(k), s) == GuardedRound(p, s) + Zeros(k)
  {
    var a := Round(p + Zeros(k), s);
    var b := GuardedRound(p, s) + Zeros(k);
    forall j | 0 <= j < |a|
      ensures a[j] == b[j]
    {
      if j < |p| && j < s && j + s >= |p| {
        assert (p + Zeros(k))[j + s] == 0;
      }
    }
  }

  lemma {:induction false} PaddedRounds(p: seq<int>, k: nat, s: nat)
    requires 2 * s <= |p| + k
    ensures Rounds(p + Zeros(k), s) == GuardedRounds(p, s) + Zeros(k)
    decreases s
  {
    if s > 0 {
      PaddedRound(p, k, s);
      PaddedRounds(GuardedRound(p, s), k, s / 2);
    }
  }

  lemma {:induction false} SumPadded(p: seq<int>, k: nat)
    ensures Sum(p + Zeros(k)) == Sum(p)
    decreases k
  {
    if k > 0 {
      assert (p + Zeros(k))[..|p| + k - 1] == p + Zeros(k - 1);
      SumPadded(p, k - 1);
    } else {
      assert p + Zeros(0) == p;
    }
  }

  /** The corrected combine leaves the sum of all partials in slot 0 for every thread count. */
  lemma FixedCombineSum(p: seq<int>)
    requires |p| >= 1
    ensures FixedCombine(p)[0] == Sum(p)
  {
    var big := NextPow2(|p|);
    var k := big - |p|;
    var padded := p + Zeros(k);
    assert |padded| == big && IsPow2(|padded|);
    var combined := GuardedRounds(p, big / 2);
    PaddedRounds(p, k, big / 2);
    assert TreeCombine(padded) == combined + Zeros(k);
    TreeCombineSum(padded);
    SumPadded(p, k);
    assert FixedCombine(p) == combined;
    assert (combined + Zeros(k))[0] == combined[0];
  }

  /** For a power-of-two thread count the corrected combine is the original one. */
  lemma {:induction false} FixedCombineAgrees(p: seq<int>)
    requires IsPow2(|p|)
    ensures FixedCombine(p) == TreeCombine(p)
  {
    PaddedRounds(p, 0, |p| / 2);
    assert p + Zeros(0) == p;
    assert GuardedRounds(p, |p| / 2) + Zeros(0) == GuardedRounds(p, |p| / 2);
  }

  // ---------------------------------------------------------------------
  // The task
  // ---------------------------------------------------------------------

  class CpuReduceTask {
    /** m_n: number of elements. */
    const n: nat
    /** m_numThreads. */
    const numThreads: nat
    /** The number of threads the barrier waits for. */
    const barrierCount: nat
    /** m_data and m_threadPartialSums. */
    var data: array<int>
    var partialSums: array<int>

    ghost predicate Valid()
      reads this
    {
      numThreads >= 1 && barrierCount == numThreads && data != partialSums
    }

    /** State after init: n elements and one partial slot per thread. */
    ghost predicate Initialized()
      reads this
    {
      data.Length == n && partialSums.Length == numThreads
    }

    /** The constructor: hardware_concurrency(), or 4 when that reports 0; the barrier is sized to the thread count. */
    constructor (n: nat, hardwareConcurrency: nat)
      ensures Valid()
      ensures this.n == n
      ensures numThreads == if hardwareConcurrency == 0 then FALLBACK_THREADS else hardwareConcurrency
      ensures data.Length == 0 && partialSums.Length == 0
    {
      this.n := n;
      var threads := hardwareConcurrency;
      if threads == 0 {
        threads := FALLBACK_THREADS;
      }
      numThreads := threads;
      barrierCount := threads;
      data := new int[0];
      partialSums := new int[0];
    }

    /** std::vector::resize: keeps the first elements, zero-fills the new ones. */
    static method Resized(a: array<int>, len: nat) returns (b: array<int>)
      ensures fresh(b) && b.Length == len
      ensures forall i :: 0 <= i < len ==> b[i] == if i < a.Length then a[i] else 0
    {
      b := new int[len];
      for i := 0 to len
        invariant forall j :: 0 <= j < i ==> b[j] == if j < a.Length then a[j] else 0
      {
        b[i] := if i < a.Length then a[i] else 0;
      }
    }

    /** init: n copies of 1 in the data, one partial slot per thread (earlier slots kept, as resize does). */
    method Init()
      requires Valid()
      modifies this`data, this`partialSums
      ensures Valid() && Initialized()
      ensures fresh(data) && fresh(partialSums)
      ensures forall i :: 0 <= i < data.Length ==> data[i] == 1
      ensures forall i :: 0 <= i < partialSums.Length ==>
        partialSums[i] == if i < old(partialSums.Length) then old(partialSums[i]) else 0
    {
      var d := Resized(data, n);
      for i := 0 to n
        modifies d
        invariant forall j :: 0 <= j < i ==> d[j] == 1
      {
        d[i] := 1;
      }
      var p := Resized(partialSums, numThreads);
      data, partialSums := d, p;
    }

    /** cleanup: both vectors emptied. */
    method Cleanup()
      requires Valid()
      modifies this`data, this`partialSums
      ensures Valid()
      ensures data.Length == 0 && partialSums.Length == 0
    {
      data := new int[0];
      partialSums := new int[0];
    }

    /** Phase 1 of reduceThread(id): the sum of the thread's chunk. */
    method ChunkSum(id: nat) returns (sum: int)
      requires Valid() && Initialized() && id < numThreads
      ensures ChunkStart(id, n, numThreads) <= ChunkEnd(id, n, numThreads) <= n
      ensures sum == Sum(data[ChunkStart(id, n, numThreads)..ChunkEnd(id, n, numThreads)])
    {
      var dataPerThread := n / numThreads;
      var start := id * dataPerThread;
      var end := if id == numThreads - 1 then n else start + dataPerThread;
      ChunkInRange(id, n, numThreads);
      sum := 0;
      var i := start;
      while i < end
        invariant start <= i <= end
        invariant sum == Sum(data[start..i])
      {
        assert data[start..i + 1][..i - start] == data[start..i];
        sum := sum + data[i];
        i := i + 1;
      }
    }

    /** One round with every id < s run in turn: equal to the simultaneous update Round. */
    method CombineRound(s: nat)
      requires 2 * s <= partialSums.Length
      modifies partialSums
      ensures partialSums[..] == Round(old(partialSums[..]), s)
    {
      ghost var before := partialSums[..];
      var id := 0;
      while id < s
        invariant 0 <= id <= s
        invariant forall j :: 0 <= j < id ==> partialSums[j] == before[j] + before[j + s]
        invariant forall j :: id <= j < partialSums.Length ==> partialSums[j] == before[j]
      {
        partialSums[id] := partialSums[id] + partialSums[id + s];
        id := id + 1;
      }
    }

    /**
     * dispatch: every thread's phase 1, then the rounds s = T/2, ..., 1, then
     * slot 0 is compared with n. Slot 0 holds the sum of the data whenever T is
     * a power of two; each thread passes the barrier 1 + floor(log2 T) times.
     */
    method Dispatch() returns (result: int, success: bool, ghost barrierWaits: nat)
      requires Valid() && Initialized()
      modifies partialSums
      ensures partialSums[..] == TreeCombine(PhaseOne(data[..], numThreads))
      ensures result == partialSums[0]
      ensures success <==> result == n
      ensures IsPow2(numThreads) ==> result == Sum(data[..])
      ensures IsPow2(numThreads) && (forall i :: 0 <= i < data.Length ==> data[i] == 1) ==> success
      ensures barrierWaits == 1 + RoundCount(numThreads / 2)
    {
      ghost var partials := PhaseOne(data[..], numThreads);
      var id := 0;
      while id < numThreads
        invariant 0 <= id <= numThreads
        invariant forall j :: 0 <= j < id ==> partialSums[j] == partials[j]
      {
        var sum := ChunkSum(id);
        assert data[..][ChunkStart(id, n, numThreads)..ChunkEnd(id, n, numThreads)]
          == data[ChunkStart(id, n, numThreads)..ChunkEnd(id, n, numThreads)];
        partialSums[id] := sum;
        id := id + 1;
      }
      assert partialSums[..] == partials;
      barrierWaits := 1;

      var s: nat := numThreads / 2;
      while s > 0
        invariant 2 * s <= numThreads
        invariant Rounds(partialSums[..], s) == TreeCombine(partials)
        invariant barrierWaits + RoundCount(s) == 1 + RoundCount(numThreads / 2)
        decreases s
      {
        CombineRound(s);
        barrierWaits := barrierWaits + 1;
        s := s / 2;
      }
      result := partialSums[0];
      success := result == n;

      if IsPow2(numThreads) {
        TreeCombineSum(partials);
        PhaseOneTotal(data[..], numThreads);
        if forall i :: 0 <= i < data.Length ==> data[i] == 1 {
          SumUniform(data[..], 1);
        }
      }
    }
  }
}
