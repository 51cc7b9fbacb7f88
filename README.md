# GpuComputeTest reduction core in Dafny

GpuComputeTest is an Android benchmark that sums a vector of ones in two ways:

- on the GPU, through Vulkan compute passes;
- on the CPU, through a pool of threads.

It checks that each result equals the vector length. This project models the three host-side pieces that hold the logic.

- `GpuTreeReduce` (`gpu_tree_reduce.dfy`) covers the device tree reduction.
  - The task owns buffer A (n floats, all 1.0) and buffer B (n / 256 floats).
  - Two mirror-image descriptor sets bind A→B and B→A. A pool is sized for exactly those two sets.
  - `dispatch` records a command buffer with these passes:
    - a local pass over n elements, A→B, with n / 256 workgroups;
    - a loop of tree passes, while more than one element remains. Each tree pass places a barrier on the buffer just written, pushes the element count, binds the set picked by the ping-pong flag, dispatches ceil((e/2)/256) workgroups, halves the count (rounding up) and flips the flag;
    - a host-read barrier on the buffer that holds the result.

  The command buffer is an abstract log of `Command`s. `Dispatch` is proved to record exactly the prologue, the passes of `TreeSchedule` and the epilogue. Lemmas about `TreeSchedule` give:
  - termination and the halving;
  - the number of passes, which is ceil(log2);
  - ping-pong consistency;
  - that every buffer is large enough;
  - that timestamps are recorded only with a query pool.
- `CpuReduce` (`cpu_reduce.dfy`) covers the thread-pool reduction.
  - The thread count is `hardware_concurrency()`, or 4 when that reports 0.
  - `init` resizes the data to n ones and the partial-sum vector to one slot per thread.
  - Each thread sums its chunk of the data. The last thread also takes the remainder.
  - The partials are then combined in rounds s = T/2, T/4, …, 1, with a barrier before and after each round. In each round, slot id < s takes slot id + s.

  Threads and the barrier become sequential loops. Within a round, each writer id < s writes only its own slot, and reads only its own slot and slot id + s ≥ s, which no thread writes in that round. So running the ids one after another gives the same array as the simultaneous update `Round`, and `CombineRound` is proved to compute `Round`.
- `VulkanContext` (`vulkan_context.dfy`) covers the process-wide device context:
  - the lazy singleton `getInstance`;
  - the memory-type search;
  - queue-family selection, which prefers a compute-only family;
  - the first-device pick;
  - the five initialisation steps, which stop at the first step that throws. The throw is caught inside `init`.

  The Vulkan queries become inputs: a physical device is its list of queue-family masks and its list of memory-type masks. Each creating call (instance, device, command pool) becomes a boolean outcome.
- `Powers` (`powers.dfy`) holds the powers of two that both reductions' pass counts are stated in.

## Model

| member | source | states |
|---|---|---|
| GpuTreeReduce.CeilDiv | app/src/main/cpp/GpuTreeReduceTask.cpp:194-197 | The float `ceil` of a / b is the least q with q·b ≥ a. |
| GpuTreeReduce.GpuTreeReduceTask.constructor | app/src/main/cpp/GpuTreeReduceTask.cpp:7-12 | Records n and the timestamp period taken from the context. No buffer, layout, set, pool or query pool exists yet. |
| GpuTreeReduce.GpuTreeReduceTask.CreateBuffers | app/src/main/cpp/GpuTreeReduceTask.cpp:359-391 | A is a fresh buffer of n floats, each set to 1.0. B is a fresh buffer of n / 256 floats. |
| GpuTreeReduce.GpuTreeReduceTask.CreateDescriptorSetLayout | app/src/main/cpp/GpuTreeReduceTask.cpp:119-137 | The layout has two bindings, numbered 0 and 1, each holding one storage buffer. |
| GpuTreeReduce.GpuTreeReduceTask.CreateDescriptorPool | app/src/main/cpp/GpuTreeReduceTask.cpp:285-298 | The pool holds exactly the two sets and 2 × 2 storage-buffer descriptors. |
| GpuTreeReduce.GpuTreeReduceTask.CreateDescriptorSet | app/src/main/cpp/GpuTreeReduceTask.cpp:300-357 | A→B binds A at slot 0 (input) and B at slot 1 (output). B→A is its mirror image. |
| GpuTreeReduce.GpuTreeReduceTask.Init | app/src/main/cpp/GpuTreeReduceTask.cpp:46-109 | Runs the four creation steps. It establishes the dispatch invariant `Valid`: buffer sizes, binding shape and pool sizing. A query pool exists exactly when the timestamp period is positive. It relies on the class invariant `QueryPoolNeedsTimestamps`, which the constructor establishes, and on the size requirement on n listed under Left out. |
| GpuTreeReduce.GpuTreeReduceTask.Dispatch | app/src/main/cpp/GpuTreeReduceTask.cpp:139-215 | The recorded log is: optional query reset, pipeline bind, optional start timestamp, the local pass (n elements, A→B, n/256 groups), the commands of every pass of `TreeSchedule(n/256, true)`, then a host-read barrier on the final buffer and an optional end timestamp. The buffer read back is the output of the last pass, and its element 0 exists. |
| GpuTreeReduce.TreeLoopStep | app/src/main/cpp/GpuTreeReduceTask.cpp:178-199 | One loop iteration keeps the loop invariant. The recorded passes followed by the remaining schedule make up the whole schedule. The log is the prologue followed by the passes' commands. The flag names the output of the last pass. |
| GpuTreeReduce.TreeScheduleEnds | app/src/main/cpp/GpuTreeReduceTask.cpp:175-199 | The loop runs exactly when e > 1. Its first pass has e elements. It stops once the halved count is ≤ 1. |
| GpuTreeReduce.TreeScheduleBounds | app/src/main/cpp/GpuTreeReduceTask.cpp:175-198 | Every pass has more than 1 and at most e elements. The flag alternates, starting true. |
| GpuTreeReduce.TreeScheduleHalves | app/src/main/cpp/GpuTreeReduceTask.cpp:197 | Each pass processes ceil(previous / 2) elements, strictly fewer than the previous pass, so the loop terminates. |
| GpuTreeReduce.TreePassCount | app/src/main/cpp/GpuTreeReduceTask.cpp:171-199 | The number of tree passes k is ceil(log2 e): e ≤ 2^k, and 2^(k-1) < e when k > 0. |
| GpuTreeReduce.PingPong | app/src/main/cpp/GpuTreeReduceTask.cpp:176-198 | Each pass reads the buffer the previous pass wrote (the local pass's B for the first tree pass). The barrier is on exactly that buffer. The bound set flips every pass. |
| GpuTreeReduce.CapacityBounds | app/src/main/cpp/GpuTreeReduceTask.cpp:361-386 | The local pass fits A and B. Every tree pass reads no more elements than its input buffer holds and writes ceil(e/2) results into a buffer that holds them. The final buffer has at least one element. |
| GpuTreeReduce.TreeGroupsCoverPairs | app/src/main/cpp/GpuTreeReduceTask.cpp:194-195 | ceil((e/2)/256) groups of 256 cover the ceil(e/2) pairs, with no group to spare. |
| GpuTreeReduce.TwoTreePassesFor1024 | app/src/main/cpp/GpuTreeReduceTask.cpp:171-202 | For n = 1024 there are two tree passes, over 4 then 2 elements, and the result is read from B. |
| GpuTreeReduce.TimestampsOnlyWithQueryPool | app/src/main/cpp/GpuTreeReduceTask.cpp:150-214 | The query reset and both timestamps appear in the log exactly when a query pool exists. |
| CpuReduce.CpuReduceTask.constructor | app/src/main/cpp/CpuReduceTask.cpp:7-15 | The thread count is the hardware concurrency, or 4 when that is 0. The barrier is sized to the thread count. Both vectors start empty. |
| CpuReduce.CpuReduceTask.Resized | app/src/main/cpp/CpuReduceTask.cpp:26-28 | Vector resize: the result has the new length, keeps the old prefix and zero-fills the rest. |
| CpuReduce.CpuReduceTask.Init | app/src/main/cpp/CpuReduceTask.cpp:24-31 | The data are n ones. The partials have one slot per thread, with earlier slots kept and new ones zero. |
| CpuReduce.CpuReduceTask.Cleanup | app/src/main/cpp/CpuReduceTask.cpp:33-37 | Both vectors are empty. |
| CpuReduce.CpuReduceTask.ChunkSum | app/src/main/cpp/CpuReduceTask.cpp:80-88 | Phase 1 of thread id is the sum of the data over its chunk [id·(n/T), end). |
| CpuReduce.CpuReduceTask.CombineRound | app/src/main/cpp/CpuReduceTask.cpp:93-96 | Running the ids < s of a round one after another yields the simultaneous update `Round`. |
| CpuReduce.CpuReduceTask.Dispatch | app/src/main/cpp/CpuReduceTask.cpp:39-98 | The final partials are `TreeCombine(PhaseOne(data, T))`. The result is slot 0, and success means the result equals n. For power-of-two T the result is the sum of the data, and all-ones data succeeds. Each thread waits at the barrier 1 + floor(log2 T) times. |
| CpuReduce.ChunkInRange | app/src/main/cpp/CpuReduceTask.cpp:80-82 | Every thread's chunk lies within [0, n). |
| CpuReduce.ChunksOrdered | app/src/main/cpp/CpuReduceTask.cpp:80-82 | Chunks of different threads do not overlap, and consecutive chunks are adjacent. |
| CpuReduce.OwnerHoldsIndex | app/src/main/cpp/CpuReduceTask.cpp:80-82 | Every index below n lies in the chunk of some thread, even when n < T. |
| CpuReduce.ChunksPartition | app/src/main/cpp/CpuReduceTask.cpp:80-82 | The chunks partition [0, n): they start at 0, end at n, are disjoint and adjacent, and cover every index. |
| CpuReduce.PhaseOneTotal | app/src/main/cpp/CpuReduceTask.cpp:84-88 | The partials after phase 1 add up to the sum of the data. |
| CpuReduce.RoundCountIsFloorLog2 | app/src/main/cpp/CpuReduceTask.cpp:93 | The loop `s = T/2; s > 0; s >>= 1` runs k = floor(log2 T) rounds: 2^k ≤ T < 2^(k+1), with 2^k = T exactly when T is a power of two. |
| CpuReduce.RoundPrefixSum | app/src/main/cpp/CpuReduceTask.cpp:93-96 | After a round, the first j slots add up to the first j old slots plus the j old slots starting at s. |
| CpuReduce.RoundsSumPrefix | app/src/main/cpp/CpuReduceTask.cpp:93-98 | For a power of two s, the rounds s, s/2, …, 1 leave the sum of the first 2s slots in slot 0. |
| CpuReduce.TreeCombineSum | app/src/main/cpp/CpuReduceTask.cpp:93-98 | With a power-of-two thread count, slot 0 ends up holding the sum of all partials. |
| CpuReduce.RoundsUniform | app/src/main/cpp/CpuReduceTask.cpp:93-98 | Starting from equal partials v, slot 0 ends up as v times 2 to the number of rounds. |
| CpuReduce.NonPowerOfTwoShortfall | app/src/main/cpp/CpuReduceTask.cpp:93-98 | For T not a power of two with equal partials c > 0, slot 0 ends at c·2^floor(log2 T), strictly below the total c·T. |
| CpuReduce.SixThreadsDropTwoPartials | app/src/main/cpp/CpuReduceTask.cpp:93-98 | With six threads, slot 0 ends as p0 + p1 + p3 + p4: partials 2 and 5 are never added. |
| CpuReduce.FixedCombineSum | app/src/main/cpp/CpuReduceTask.cpp:93-98 | The guarded combine leaves the total in slot 0 for every thread count T ≥ 1. It starts at half the next power of two and adds slot id + s only when that slot exists. |
| CpuReduce.FixedCombineAgrees | app/src/main/cpp/CpuReduceTask.cpp:93-98 | For power-of-two T the guarded combine equals the original one. |
| VulkanContext.FindMemoryTypeFrom | app/src/main/cpp/VulkanContext.cpp:56-62 | Linear search from an index: returns the first suitable index at or after it, or the error when none remains. |
| VulkanContext.FindMemoryType | app/src/main/cpp/VulkanContext.cpp:52-63 | Succeeds exactly when some memory type has its bit set in the filter and holds all requested properties. It then returns the smallest such index; otherwise it returns the not-found error. |
| VulkanContext.FirstWhere | app/src/main/cpp/VulkanContext.cpp:128-145 | Returns the first family index, from a given index on, that satisfies the predicate, or none when no family does. |
| VulkanContext.ComputeQueueFamilyPreference | app/src/main/cpp/VulkanContext.cpp:122-151 | A family is chosen exactly when some family supports compute, and it supports compute. It is the first compute-only family whenever one exists, otherwise the first compute family. |
| VulkanContext.Context.constructor | app/src/main/cpp/VulkanContext.cpp:14-16 | No instance, device, queue or pool exists, and the queue-family index holds its initial -1 (as uint32). |
| VulkanContext.Context.CreateInstance | app/src/main/cpp/VulkanContext.cpp:68-91 | Throws exactly when instance creation fails. Nothing else changes. |
| VulkanContext.Context.PickPhysicalDevice | app/src/main/cpp/VulkanContext.cpp:93-103 | Throws when there is no device. Otherwise it selects the first device. |
| VulkanContext.Context.FindComputeQueueFamily | app/src/main/cpp/VulkanContext.cpp:122-151 | The index becomes the family `ComputeQueueFamily` chooses. When no family supports compute the index is unchanged, and the method throws only if it still holds -1. |
| VulkanContext.Context.CreateLogicalDeviceAndQueue | app/src/main/cpp/VulkanContext.cpp:153-177 | Throws exactly when device creation fails. Otherwise the device and its queue use the chosen family. |
| VulkanContext.Context.CreateCommandPool | app/src/main/cpp/VulkanContext.cpp:179-191 | Throws exactly when pool creation fails. Otherwise the pool uses the chosen family. |
| VulkanContext.Context.Init | app/src/main/cpp/VulkanContext.cpp:24-36 | The caught error is that of the first failing step, in the order instance, device pick, queue family, device, pool. Later steps leave their state untouched, and a failed instance creation leaves the instance flag as it was. Once the device pick has run, the instance exists and the first device is selected. After the queue-family step the index is the family `ComputeQueueFamily` chooses for that device, or the previous index when none supports compute. When only the command pool fails, the logical device and its queue already exist on that family. On success the logical device, its queue and the command pool all use that family. |
| VulkanContext.ContextRegistry.constructor | app/src/main/cpp/VulkanContext.cpp:5 | The instance slot starts null. |
| VulkanContext.ContextRegistry.GetInstance | app/src/main/cpp/VulkanContext.cpp:7-12 | Creates a fresh context only when the slot is null. Every call returns the object held in the slot. |

## Findings

| source | as written | input that shows it | evidently intended | confidence | as-written member | corrected member |
|---|---|---|---|---|---|---|
| app/src/main/cpp/CpuReduceTask.cpp:93-98 | The rounds run s = T/2, T/4, …, 1 and add slot id + s to slot id. When T is not a power of two, some partials never reach slot 0. | T = 6 (a six-core device): slot 0 ends as p0 + p1 + p3 + p4. For all-ones data the result is below n and `dispatch` reports FAILED. | Slot 0 holds the total for any hardware thread count. | not executed; the shortfall is proved for every non-power-of-two T with equal partials and for every T = 6 | CpuReduce.SixThreadsDropTwoPartials | CpuReduce.FixedCombineSum |

The as-written member is stated in general by `CpuReduce.NonPowerOfTwoShortfall`. The corrected combine `CpuReduce.FixedCombine` runs from half the next power of two down to 1 and skips slots beyond T. `CpuReduce.FixedCombineAgrees` shows it agrees with the original for power-of-two T. `CpuReduceTask.Dispatch` keeps the original schedule, to stay faithful. Its correctness clause is therefore conditioned on T being a power of two.

## Left out

- Vulkan and Android calls are not modelled as calls. This covers instance, device, buffer, pipeline, query-pool and descriptor creation, command recording and submission, map/unmap, and the asset manager. In the context, the outcomes of instance, device and command-pool creation are boolean inputs. The device queries are input sequences, and recorded commands are log entries.
- What the shaders compute is not modelled. The value read back from element 0 of the final buffer, and the 0.01 tolerance check on it, are not modelled either. Only the host-side sequencing, counts and buffer choice are.
- GpuTreeReduce.GpuTreeReduceTask.Init: buffer, descriptor-set-layout, descriptor-pool and descriptor-set creation are assumed to succeed. Their throws are not modelled, including the `findMemoryType` throw during buffer allocation.
- GpuTreeReduce.GpuTreeReduceTask.Init: shader loading and pipeline-layout and pipeline creation, with their failure paths, are not modelled. Query-pool creation is modelled as always succeeding when the timestamp period is positive.
- GpuTreeReduce.GpuTreeReduceTask.Init requires n to be a positive multiple of 256 below 2^32. The benchmark only uses n = 256·2^k. For n < 256, B would have size 0. When n is not a multiple of 256, the floor in the local pass would drop the tail.
- GpuTreeReduce.CeilDiv: the float `ceil` of the source is exact integer ceiling division. This holds for the counts used, which stay below 2^24.
- CpuReduce.CpuReduceTask.Dispatch: threads, `pthread_barrier_wait` and the join are replaced by sequential rounds. Barrier waits are counted in a ghost out-parameter. The microsecond timing is not modelled.
- CpuReduce.CpuReduceTask.Dispatch proves the result equals the sum of the data only when T is a power of two. That is the source's actual behaviour (see Findings).
- CpuReduce: element values are integers, not floats. The data are all 1.0, so every partial sum is exact in single precision only while it stays below 2^24.
- CpuReduce.CpuReduceTask.constructor: the `(int)` cast of `hardware_concurrency()` is not modelled. The count is taken as a natural number.
- Timing is not modelled: `std::chrono`, the GPU timestamp-to-nanosecond conversion, and the timestamp period read in `pickPhysicalDevice`. The GPU task receives that period as a constructor parameter.
- The `cleanup` methods of the GPU task and the context are not modelled. They only destroy Vulkan handles. The CPU task's `cleanup` is modelled.
- `reset()` declared in GpuOptimizedReduceTask.h has no implementation to model.
- `BaseComputeTask`, `VectorAddTask`, `LocalReduceTask`, `native-lib.cpp` (the JNI benchmark driver), `MainActivity.kt` and the build files are not part of this model.
- The field set of the GPU task follows GpuOptimizedReduceTask.h:44-62, the header whose members (`m_n`, `m_queryPool`, `m_gpuTimestampPeriod`) GpuTreeReduceTask.cpp uses. GpuTreeReduceTask.h itself lacks them.
- VulkanContext.Context.Init requires every device to report at most 2^32 - 1 queue families and at most 32 memory types, which is what Vulkan's types allow.
