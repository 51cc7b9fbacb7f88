/**
 * Host-side sequencing of the device tree reduction.
 *
 * The task owns two storage buffers, A (the input, n floats) and B (the
 * intermediate, n / 256 floats), and two descriptor sets that bind them in
 * opposite directions. One dispatch records a command buffer: a local pass
 * over all n elements that writes one partial per workgroup from A into B,
 * then a loop of tree passes that halve the element count, ping-ponging
 * between the two descriptor sets with a write-to-read barrier before every
 * pass, and finally a write-to-host-read barrier on the buffer that holds the
 * result, whose element 0 the host reads.
 *
 * The Vulkan calls are entries of an abstract command log; what the shaders
 * compute is not modelled, only which buffers, counts and workgroup numbers
 * each pass is given.
 */
module GpuTreeReduce {
  import opened Powers

  /** Invocations per workgroup of the reduction shader. */
  const WORKGROUP_SIZE: nat := 256

  /** One more than the largest uint32_t. */
  const UINT32_LIMIT: nat := 0x1_0000_0000

  datatype Buffer = BufferA | BufferB

  /** The two descriptor sets; slot 0 is the shader's input, slot 1 its output. */
  datatype BindingSet = AToB | BToA

  /** The push-constant pass type: 0 for the local pass, 1 for a tree pass. */
  datatype PassKind = LocalPass | TreePass

  /** Who must see the writes a barrier makes available. */
  datatype BarrierTarget = ShaderRead | HostRead

  /** The commands dispatch records, in recording order. */
  datatype Command =
    | ResetQueryPool
    | BindPipeline
    | WriteTimestamp(query: nat)
    | Barrier(buffer: Buffer, target: BarrierTarget)
    | Push(kind: PassKind, numElements: nat)
    | Bind(bindingSet: BindingSet)
    | DispatchGroups(groups: nat)

  /** A descriptor-set-layout binding: every binding is one storage buffer seen by the compute stage. */
  datatype LayoutBinding = LayoutBinding(binding: nat, descriptorCount: nat)

  function InputOf(s: BindingSet): Buffer { if s == AToB then BufferA else BufferB }
  function OutputOf(s: BindingSet): Buffer { if s == AToB then BufferB else BufferA }

  /** Number of floats a buffer holds for problem size n. */
  function Capacity(n: nat, b: Buffer): nat { if b == BufferA then n else n / WORKGROUP_SIZE }

  /** The least number of blocks of size b that cover a items. */
  function CeilDiv(a: nat, b: nat): (q: nat)
    requires b > 0
    ensures q * b >= a
    ensures q > 0 ==> (q - 1) * b < a
  {
    (a + b - 1) / b
  }

  // ---------------------------------------------------------------------
  // The tree loop as a schedule of passes
  // ---------------------------------------------------------------------

  /** One iteration of the tree loop: the element count and the ping-pong flag at its start. */
  datatype TreeStep = TreeStep(numElements: nat, readFromB: bool)

  /** The buffer the barrier of a tree pass is placed on. */
  function BarrierBuffer(p: TreeStep): Buffer { if p.readFromB then BufferB else BufferA }

  /** The descriptor set a tree pass binds. */
  function BoundSet(p: TreeStep): BindingSet { if p.readFromB then BToA else AToB }

  /** Workgroups of a tree pass over e elements: ceil((e / 2) / 256) in exact arithmetic. */
  function TreeGroups(e: nat): nat { CeilDiv(e, 2 * WORKGROUP_SIZE) }

  /** The four commands one tree pass records. */
  function StepCommands(p: TreeStep): seq<Command>
  {
    [Barrier(BarrierBuffer(p), ShaderRead), Push(TreePass, p.numElements), Bind(BoundSet(p)), DispatchGroups(TreeGroups(p.numElements))]
  }

  /** The passes of the tree loop started with e elements and flag readFromB. */
  function TreeSchedule(e: nat, readFromB: bool): seq<TreeStep>
    decreases e
  {
    if e <= 1 then [] else [TreeStep(e, readFromB)] + TreeSchedule(CeilDiv(e, 2), !readFromB)
  }

  function StepsLog(steps: seq<TreeStep>): seq<Command>
  {
    if steps == [] then [] else StepCommands(steps[0]) + StepsLog(steps[1..])
  }

  /** The buffer holding the result: the output of the last pass, the local pass when no tree pass ran. */
  function FinalBuffer(steps: seq<TreeStep>): Buffer
  {
    if steps == [] then OutputOf(AToB) else OutputOf(BoundSet(steps[|steps| - 1]))
  }

  /** Commands recorded before the tree loop: query reset, pipeline, start timestamp, local pass. */
  function Prologue(n: nat, queryPool: bool): seq<Command>
  {
    (if queryPool then [ResetQueryPool] else []) + [BindPipeline] +
    (if queryPool then [WriteTimestamp(0)] else []) +
    [Push(LocalPass, n), Bind(AToB), DispatchGroups(n / WORKGROUP_SIZE)]
  }

  /** Commands recorded after the tree loop: the host-read barrier and the end timestamp. */
  function Epilogue(final: Buffer, queryPool: bool): seq<Command>
  {
    [Barrier(final, HostRead)] + (if queryPool then [WriteTimestamp(1)] else [])
  }

  lemma {:induction false} StepsLogAppend(steps: seq<TreeStep>, p: TreeStep)
    ensures StepsLog(steps + [p]) == StepsLog(steps) + StepCommands(p)
  {
    if steps == [] {
      assert steps + [p] == [p];
    } else {
      assert (steps + [p])[1..] == steps[1..] + [p];
      StepsLogAppend(steps[1..], p);
    }
  }

  /**
   * One iteration of the tree loop keeps the loop's invariant: the passes
   * recorded so far followed by the passes still to come are the whole
   * schedule, the log is the prologue followed by the recorded passes, and
   * the flag names the output of the last recorded pass.
   */
  lemma TreeLoopStep(whole: seq<TreeStep>, done: seq<TreeStep>, e: nat, readFromB: bool, prologue: seq<Command>, log: seq<Command>)
    requires e > 1
    requires done + TreeSchedule(e, readFromB) == whole
    requires log == prologue + StepsLog(done)
    requires FinalBuffer(done) == (if readFromB then BufferB else BufferA)
    ensures (done + [TreeStep(e, readFromB)]) + TreeSchedule(CeilDiv(e, 2), !readFromB) == whole
    ensures log + StepCommands(TreeStep(e, readFromB)) == prologue + StepsLog(done + [TreeStep(e, readFromB)])
    ensures FinalBuffer(done + [TreeStep(e, readFromB)]) == (if !readFromB then BufferB else BufferA)
  {
    StepsLogAppend(done, TreeStep(e, readFromB));
  }

  /** The schedule is empty exactly when e is at most one; otherwise it starts at e and ends once the halved count is at most one. */
  lemma {:induction false} TreeScheduleEnds(e: nat, readFromB: bool)
    ensures var s := TreeSchedule(e, readFromB);
      (s == [] <==> e <= 1) &&
      (s != [] ==> s[0] == TreeStep(e, readFromB) && CeilDiv(s[|s| - 1].numElements, 2) <= 1)
    decreases e
  {
    if e > 1 {
      var h := CeilDiv(e, 2);
      var t := TreeSchedule(h, !readFromB);
      TreeScheduleEnds(h, !readFromB);
      if t != [] {
        assert TreeSchedule(e, readFromB)[|t|] == t[|t| - 1];
      }
    }
  }

  /** Every pass has more than one element and at most e, and the flag alternates starting from readFromB. */
  lemma {:induction false} TreeScheduleBounds(e: nat, readFromB: bool)
    ensures forall i :: 0 <= i < |TreeSchedule(e, readFromB)| ==>
      1 < TreeSchedule(e, readFromB)[i].numElements <= e &&
      TreeSchedule(e, readFromB)[i].readFromB == (readFromB == (i % 2 == 0))
    decreases e
  {
    var s := TreeSchedule(e, readFromB);
    if e > 1 {
      var h := CeilDiv(e, 2);
      var t := TreeSchedule(h, !readFromB);
      TreeScheduleBounds(h, !readFromB);
      assert s == [TreeStep(e, readFromB)] + t;
      assert h < e;
      forall i | 0 < i < |s|
        ensures 1 < s[i].numElements <= e && s[i].readFromB == (readFromB == (i % 2 == 0))
      {
        assert s[i] == t[i - 1];
      }
    }
  }

  /** Each pass after the first works on the ceiling half of the previous pass's count, which is strictly smaller. */
  lemma {:induction false} TreeScheduleHalves(e: nat, readFromB: bool)
    ensures var s := TreeSchedule(e, readFromB);
      forall i :: 0 < i < |s| ==>
        s[i].numElements == CeilDiv(s[i - 1].numElements, 2) && s[i].numElements < s[i - 1].numElements
    decreases e
  {
    var s := TreeSchedule(e, readFromB);
    if e > 1 {
      var h := CeilDiv(e, 2);
      var t := TreeSchedule(h, !readFromB);
      TreeScheduleHalves(h, !readFromB);
      TreeScheduleEnds(h, !readFromB);
      assert s == [TreeStep(e, readFromB)] + t;
      forall i | 0 < i < |s|
        ensures s[i].numElements == CeilDiv(s[i - 1].numElements, 2) && s[i].numElements < s[i - 1].numElements
      {
        assert s[i] == t[i - 1];
        if i > 1 {
          assert s[i - 1] == t[i - 2];
        }
      }
    }
  }

  /**
   * The number of tree passes is ceil(log2 e): the least k with e <= 2^k.
   */
  lemma {:induction false} TreePassCount(e: nat, readFromB: bool)
    requires e >= 1
    ensures var k := |TreeSchedule(e, readFromB)|;
      e <= Pow2(k) && (k > 0 ==> Pow2(k - 1) < e)
    decreases e
  {
    if e > 1 {
      var h := CeilDiv(e, 2);
      TreePassCount(h, !readFromB);
      assert |TreeSchedule(e, readFromB)| == 1 + |TreeSchedule(h, !readFromB)|;
    }
  }

  /**
   * Ping-pong consistency of the dispatch that starts the tree loop on the
   * local pass's output with the flag set: every tree pass reads the buffer
   * the previous pass (the local pass, for the first one) wrote, the barrier
   * before it is on exactly that buffer, and the bound set flips each pass.
   */
  lemma PingPong(e: nat, s: seq<TreeStep>)
    requires s == TreeSchedule(e, true)
    ensures forall i :: 0 <= i < |s| ==>
      BarrierBuffer(s[i]) == InputOf(BoundSet(s[i])) &&
      InputOf(BoundSet(s[i])) == (if i == 0 then OutputOf(AToB) else OutputOf(BoundSet(s[i - 1]))) &&
      (i > 0 ==> BoundSet(s[i]) != BoundSet(s[i - 1]))
  {
    TreeScheduleBounds(e, true);
    forall i | 0 <= i < |s|
      ensures BarrierBuffer(s[i]) == InputOf(BoundSet(s[i]))
      ensures InputOf(BoundSet(s[i])) == (if i == 0 then OutputOf(AToB) else OutputOf(BoundSet(s[i - 1])))
      ensures i > 0 ==> BoundSet(s[i]) != BoundSet(s[i - 1])
    {
      assert s[i].readFromB == (i % 2 == 0);
      if i > 0 {
        assert s[i - 1].readFromB == ((i - 1) % 2 == 0);
      }
    }
  }

  /**
   * Buffer capacities suffice: for problem size n the local pass reads n
   * elements of A and writes n / 256 partials into B; every tree pass reads
   * no more elements than its input buffer holds and writes its ceiling half
   * into an output buffer large enough for it.
   */
  lemma CapacityBounds(n: nat)
    requires WORKGROUP_SIZE <= n
    ensures n <= Capacity(n, InputOf(AToB)) && n / WORKGROUP_SIZE <= Capacity(n, OutputOf(AToB))
    ensures var s := TreeSchedule(n / WORKGROUP_SIZE, true);
      forall i :: 0 <= i < |s| ==>
        s[i].numElements <= Capacity(n, InputOf(BoundSet(s[i]))) &&
        CeilDiv(s[i].numElements, 2) <= Capacity(n, OutputOf(BoundSet(s[i])))
    ensures 1 <= Capacity(n, FinalBuffer(TreeSchedule(n / WORKGROUP_SIZE, true)))
  {
    TreeScheduleBounds(n / WORKGROUP_SIZE, true);
    TreeScheduleHalves(n / WORKGROUP_SIZE, true);
  }

  /**
   * A tree pass over e elements launches enough workgroups of 256 to give one
   * invocation to each of the ceil(e / 2) pairs, and no more than needed.
   */
  lemma TreeGroupsCoverPairs(e: nat)
    ensures TreeGroups(e) * WORKGROUP_SIZE >= CeilDiv(e, 2)
    ensures TreeGroups(e) > 0 ==> (TreeGroups(e) - 1) * WORKGROUP_SIZE < CeilDiv(e, 2)
  {
    var g := TreeGroups(e);
    var h := CeilDiv(e, 2);
    assert g * 512 >= e;
    assert g * 512 == (g * WORKGROUP_SIZE) * 2;
    if g > 0 {
      assert (g - 1) * 512 < e;
      assert (g - 1) * 512 == ((g - 1) * WORKGROUP_SIZE) * 2;
    }
  }

  /** For n = 1024: four partials, two tree passes (4 then 2 elements), result in B. */
  lemma TwoTreePassesFor1024()
    ensures TreeSchedule(1024 / WORKGROUP_SIZE, true) == [TreeStep(4, true), TreeStep(2, false)]
    ensures FinalBuffer(TreeSchedule(1024 / WORKGROUP_SIZE, true)) == BufferB
  {
    assert CeilDiv(4, 2) == 2 && CeilDiv(2, 2) == 1;
  }

  /** A tree pass records no timestamp or query-pool command. */
  lemma {:induction false} StepsLogHasNoQueries(steps: seq<TreeStep>, q: nat)
    ensures ResetQueryPool !in StepsLog(steps) && WriteTimestamp(q) !in StepsLog(steps)
  {
    if steps != [] {
      StepsLogHasNoQueries(steps[1..], q);
    }
  }

  /** Timestamp and query-pool commands appear in a recorded dispatch exactly when the task has a query pool. */
  lemma TimestampsOnlyWithQueryPool(n: nat, steps: seq<TreeStep>, final: Buffer, queryPool: bool)
    ensures var log := Prologue(n, queryPool) + StepsLog(steps) + Epilogue(final, queryPool);
      (ResetQueryPool in log <==> queryPool) &&
      (WriteTimestamp(0) in log <==> queryPool) &&
      (WriteTimestamp(1) in log <==> queryPool)
  {
    StepsLogHasNoQueries(steps, 0);
    StepsLogHasNoQueries(steps, 1);
    var log := Prologue(n, queryPool) + StepsLog(steps) + Epilogue(final, queryPool);
    if queryPool {
      assert log[0] == ResetQueryPool;
      assert log[2] == WriteTimestamp(0);
      assert log[|log| - 1] == WriteTimestamp(1);
    }
  }

  class GpuTreeReduceTask {
    /** m_n: elements to reduce (a uint32_t). */
    const n: nat
    /** m_gpuTimestampPeriod, as reported by the context when the task is built. */
    const timestampPeriod: real

    var bufferA: array?<real>
    var bufferB: array?<real>
    var layoutBindings: seq<LayoutBinding>
    var poolMaxSets: nat
    var poolStorageBuffers: nat
    /** For each allocated descriptor set, the buffer bound at each slot. */
    var descriptorSlots: map<BindingSet, seq<Buffer>>
    /** m_queryPool != VK_NULL_HANDLE. */
    var hasQueryPool: bool

    /** The state init establishes and dispatch relies on. */
    ghost predicate Valid()
      reads this
    {
      WORKGROUP_SIZE <= n < UINT32_LIMIT && n % WORKGROUP_SIZE == 0 &&
      bufferA != null && bufferB != null &&
      bufferA.Length == Capacity(n, BufferA) && bufferB.Length == Capacity(n, BufferB) &&
      |layoutBindings| == 2 &&
      (forall i :: 0 <= i < |layoutBindings| ==> layoutBindings[i] == LayoutBinding(i, 1)) &&
      descriptorSlots.Keys == {AToB, BToA} &&
      (forall s :: s in descriptorSlots ==> descriptorSlots[s] == [InputOf(s), OutputOf(s)]) &&
      poolMaxSets == |descriptorSlots| &&
      poolStorageBuffers == poolMaxSets * |layoutBindings| &&
      hasQueryPool == (timestampPeriod > 0.0)
    }

    /**
     * Holds in every state of a task: the query pool is only ever created
     * when the (constant) timestamp period is positive.
     */
    ghost predicate QueryPoolNeedsTimestamps()
      reads this
    {
      hasQueryPool ==> timestampPeriod > 0.0
    }

    constructor (n: nat, timestampPeriod: real)
      requires n < UINT32_LIMIT
      ensures QueryPoolNeedsTimestamps()
      ensures this.n == n && this.timestampPeriod == timestampPeriod
      ensures bufferA == null && bufferB == null
      ensures layoutBindings == [] && descriptorSlots == map[] && poolMaxSets == 0 && poolStorageBuffers == 0
      ensures !hasQueryPool
    {
      this.n := n;
      this.timestampPeriod := timestampPeriod;
      bufferA, bufferB := null, null;
      layoutBindings := [];
      poolMaxSets, poolStorageBuffers := 0, 0;
      descriptorSlots := map[];
      hasQueryPool := false;
    }

    /** createBuffers: A holds n floats, all 1.0; B holds one float per workgroup of the local pass. */
    method CreateBuffers()
      modifies this`bufferA, this`bufferB
      ensures bufferA != null && bufferB != null && fresh(bufferA) && fresh(bufferB)
      ensures bufferA.Length == Capacity(n, BufferA) && bufferB.Length == Capacity(n, BufferB)
      ensures forall i :: 0 <= i < bufferA.Length ==> bufferA[i] == 1.0
    {
      var a := new real[n];
      for i := 0 to n
        invariant forall j :: 0 <= j < i ==> a[j] == 1.0
      {
        a[i] := 1.0;
      }
      bufferA := a;
      bufferB := new real[n / WORKGROUP_SIZE];
    }

    /** createDescriptorSetLayout: bindings 0 and 1, one storage buffer each. */
    method CreateDescriptorSetLayout()
      modifies this`layoutBindings
      ensures |layoutBindings| == 2
      ensures forall i :: 0 <= i < |layoutBindings| ==> layoutBindings[i] == LayoutBinding(i, 1)
    {
      layoutBindings := [LayoutBinding(0, 1), LayoutBinding(1, 1)];
    }

    /** createDescriptorPool: room for both descriptor sets of the two-binding layout and no more. */
    method CreateDescriptorPool()
      modifies this`poolMaxSets, this`poolStorageBuffers
      ensures poolMaxSets == |{AToB, BToA}|
      ensures poolStorageBuffers == poolMaxSets * 2
    {
      poolMaxSets := 2;
      poolStorageBuffers := 4;
    }

    /** createDescriptorSet: the A-to-B set reads A and writes B, the B-to-A set is its mirror image. */
    method CreateDescriptorSet()
      modifies this`descriptorSlots
      ensures descriptorSlots.Keys == {AToB, BToA}
      ensures forall s :: s in descriptorSlots ==> descriptorSlots[s] == [InputOf(s), OutputOf(s)]
      ensures descriptorSlots[BToA] == [descriptorSlots[AToB][1], descriptorSlots[AToB][0]]
    {
      descriptorSlots := map[AToB := [BufferA, BufferB], BToA := [BufferB, BufferA]];
    }

    /**
     * init: buffers, layout, pool and sets, then a timestamp query pool only
     * when the device reports a positive timestamp period.
     */
    method Init()
      requires WORKGROUP_SIZE <= n < UINT32_LIMIT && n % WORKGROUP_SIZE == 0
      requires QueryPoolNeedsTimestamps()
      modifies this
      ensures Valid() && QueryPoolNeedsTimestamps()
      ensures fresh(bufferA) && fresh(bufferB)
      ensures forall i :: 0 <= i < bufferA.Length ==> bufferA[i] == 1.0
    {
      CreateBuffers();
      CreateDescriptorSetLayout();
      CreateDescriptorPool();
      CreateDescriptorSet();
      if timestampPeriod > 0.0 {
        hasQueryPool := true;
      }
    }

    /**
     * dispatch: records the local pass and the tree loop, and picks the
     * buffer whose element 0 the host reads back. The recorded log is the
     * prologue, the commands of every pass of the tree schedule that starts
     * at n / 256 elements reading B, and the epilogue on the buffer the last
     * pass wrote; that buffer is large enough for the read of element 0.
     */
    method Dispatch() returns (log: seq<Command>, finalBuffer: Buffer)
      requires Valid()
      ensures log == Prologue(n, hasQueryPool) + StepsLog(TreeSchedule(n / WORKGROUP_SIZE, true)) + Epilogue(finalBuffer, hasQueryPool)
      ensures finalBuffer == FinalBuffer(TreeSchedule(n / WORKGROUP_SIZE, true))
      ensures 0 < (if finalBuffer == BufferA then bufferA.Length else bufferB.Length)
    {
      log := [];
      if hasQueryPool {
        log := log + [ResetQueryPool];
      }
      log := log + [BindPipeline];
      if hasQueryPool {
        log := log + [WriteTimestamp(0)];
      }

      // Pass 1: local reduce from A into B.
      log := log + [Push(LocalPass, n), Bind(AToB)];
      var numWorkgroups: nat := n / WORKGROUP_SIZE;
      log := log + [DispatchGroups(numWorkgroups)];
      assert log == Prologue(n, hasQueryPool);

      // Passes 2..: tree reduce, ping-ponging between the two sets.
      var elementsToProcess := numWorkgroups;
      var readFromBWriteToA := true;
      ghost var whole := TreeSchedule(n / WORKGROUP_SIZE, true);
      ghost var prologue := log;
      ghost var done: seq<TreeStep> := [];
      while elementsToProcess > 1
        invariant done + TreeSchedule(elementsToProcess, readFromBWriteToA) == whole
        invariant log == prologue + StepsLog(done)
        invariant FinalBuffer(done) == (if readFromBWriteToA then BufferB else BufferA)
        decreases elementsToProcess
      {
        ghost var step := TreeStep(elementsToProcess, readFromBWriteToA);
        ghost var beforePass := log;
        log := log + [Barrier(if readFromBWriteToA then BufferB else BufferA, ShaderRead)];
        log := log + [Push(TreePass, elementsToProcess)];
        log := log + [Bind(if readFromBWriteToA then BToA else AToB)];
        numWorkgroups := CeilDiv(elementsToProcess, 2 * WORKGROUP_SIZE);
        log := log + [DispatchGroups(numWorkgroups)];
        assert log == beforePass + StepCommands(step);
        TreeLoopStep(whole, done, elementsToProcess, readFromBWriteToA, prologue, beforePass);
        done := done + [step];
        elementsToProcess := CeilDiv(elementsToProcess, 2);
        readFromBWriteToA := !readFromBWriteToA;
      }
      assert done == whole;

      finalBuffer := if readFromBWriteToA then BufferB else BufferA;
      ghost var beforeEpilogue := log;
      log := log + [Barrier(finalBuffer, HostRead)];
      if hasQueryPool {
        log := log + [WriteTimestamp(1)];
      }
      assert log == beforeEpilogue + Epilogue(finalBuffer, hasQueryPool);
    }
  }
}
