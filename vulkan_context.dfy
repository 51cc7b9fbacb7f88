/**
 * The device context: a lazily created process-wide object that creates the
 * Vulkan instance, picks a physical device and a compute queue family,
 * creates the logical device, its queue and a command pool, and answers
 * memory-type queries for buffer allocation.
 *
 * The Vulkan queries are replaced by their answers: a physical device is the
 * list of its queue-family capability masks and the list of its memory-type
 * property masks, and the outcome of every creating call (instance, logical
 * device, command pool) is a boolean supplied by the caller.
 */
module VulkanContext {

  datatype Option<T> = None | Some(value: T)

  /** The runtime errors the context throws, one per throw site. */
  datatype ContextError =
    | InstanceCreationFailed
    | NoPhysicalDevice
    | NoComputeQueueFamily
    | DeviceCreationFailed
    | CommandPoolCreationFailed
    | NoSuitableMemoryType

  datatype Result<T> = Ok(value: T) | Err(error: ContextError)

  /** Outcome of a step that either returns normally or throws. */
  datatype Status = Success | Failure(error: ContextError)

  /** VK_QUEUE_GRAPHICS_BIT and VK_QUEUE_COMPUTE_BIT. */
  const QUEUE_GRAPHICS: bv32 := 0x1
  const QUEUE_COMPUTE: bv32 := 0x2

  /** VK_MAX_MEMORY_TYPES: the size of the memory-type table of a device. */
  const MAX_MEMORY_TYPES: nat := 32

  /** The initial queue-family index: -1 stored in a uint32_t. */
  const NO_QUEUE_FAMILY: nat := 0xFFFF_FFFF

  /** What the context learns about a physical device from Vulkan. */
  datatype PhysicalDevice = PhysicalDevice(
    id: nat,
    queueFamilyFlags: seq<bv32>,
    memoryTypeFlags: seq<bv32>)

  /** The counts Vulkan reports fit their types: a uint32_t family count and a 32-entry memory-type table. */
  predicate WellFormed(d: PhysicalDevice)
  {
    |d.queueFamilyFlags| <= NO_QUEUE_FAMILY && |d.memoryTypeFlags| <= MAX_MEMORY_TYPES
  }

  /** Results of the Vulkan calls made by the initialisation steps. */
  datatype Driver = Driver(
    instanceOk: bool,
    devices: seq<PhysicalDevice>,
    deviceOk: bool,
    commandPoolOk: bool)

  // ---------------------------------------------------------------------
  // Memory-type selection
  // ---------------------------------------------------------------------

  /** Memory type i is allowed by the filter mask and has every requested property. */
  predicate MemoryTypeSuitable(memoryTypeFlags: seq<bv32>, typeFilter: bv32, properties: bv32, i: nat)
    requires i < |memoryTypeFlags| <= MAX_MEMORY_TYPES
  {
    typeFilter & ((1 as bv32) << i) != 0 && memoryTypeFlags[i] & properties == properties
  }

  /** The linear search of findMemoryType from index `from` on. */
  function FindMemoryTypeFrom(memoryTypeFlags: seq<bv32>, typeFilter: bv32, properties: bv32, from: nat): (r: Result<nat>)
    requires |memoryTypeFlags| <= MAX_MEMORY_TYPES
    ensures r.Ok? ==>
      from <= r.value < |memoryTypeFlags| &&
      MemoryTypeSuitable(memoryTypeFlags, typeFilter, properties, r.value) &&
      forall j :: from <= j < r.value ==> !MemoryTypeSuitable(memoryTypeFlags, typeFilter, properties, j)
    ensures r.Err? ==>
      r.error == NoSuitableMemoryType &&
      forall j :: from <= j < |memoryTypeFlags| ==> !MemoryTypeSuitable(memoryTypeFlags, typeFilter, properties, j)
    decreases |memoryTypeFlags| - from
  {
    if from >= |memoryTypeFlags| then Err(NoSuitableMemoryType)
    else if MemoryTypeSuitable(memoryTypeFlags, typeFilter, properties, from) then Ok(from)
    else FindMemoryTypeFrom(memoryTypeFlags, typeFilter, properties, from + 1)
  }

  /**
   * findMemoryType: the smallest index whose bit is set in the filter and
   * whose property flags include all requested ones; an error when none is.
   */
  function FindMemoryType(memoryTypeFlags: seq<bv32>, typeFilter: bv32, properties: bv32): (r: Result<nat>)
    requires |memoryTypeFlags| <= MAX_MEMORY_TYPES
    ensures r.Ok? <==> exists i :: 0 <= i < |memoryTypeFlags| && MemoryTypeSuitable(memoryTypeFlags, typeFilter, properties, i)
    ensures r.Ok? ==>
      r.value < |memoryTypeFlags| &&
      MemoryTypeSuitable(memoryTypeFlags, typeFilter, properties, r.value) &&
      forall j :: 0 <= j < r.value ==> !MemoryTypeSuitable(memoryTypeFlags, typeFilter, properties, j)
    ensures r.Err? ==> r.error == NoSuitableMemoryType
  {
    FindMemoryTypeFrom(memoryTypeFlags, typeFilter, properties, 0)
  }

  // ---------------------------------------------------------------------
  // Queue-family selection
  // ---------------------------------------------------------------------

  predicate SupportsCompute(flags: bv32) { flags & QUEUE_COMPUTE != 0 }
  predicate SupportsGraphics(flags: bv32) { flags & QUEUE_GRAPHICS != 0 }

  /** A family that supports compute but not graphics. */
  predicate DedicatedCompute(flags: bv32) { SupportsCompute(flags) && !SupportsGraphics(flags) }

  /** The first index at or after `from` whose flags satisfy `p`. */
  function FirstWhere(families: seq<bv32>, p: bv32 -> bool, from: nat): (r: Option<nat>)
    ensures r.Some? ==>
      from <= r.value < |families| && p(families[r.value]) &&
      forall j :: from <= j < r.value ==> !p(families[j])
    ensures r.None? ==> forall j :: from <= j < |families| ==> !p(families[j])
    decreases |families| - from
  {
    if from >= |families| then None
    else if p(families[from]) then Some(from)
    else FirstWhere(families, p, from + 1)
  }

  /**
   * The selection rule of findComputeQueueFamily: the first dedicated compute
   * family if there is one, else the first compute family, else none.
   */
  function ComputeQueueFamily(families: seq<bv32>): Option<nat>
  {
    var dedicated := FirstWhere(families, DedicatedCompute, 0);
    if dedicated.Some? then dedicated else FirstWhere(families, SupportsCompute, 0)
  }

  /** The selected family supports compute; it is dedicated whenever a dedicated one exists; none is selected only if no family supports compute. */
  lemma ComputeQueueFamilyPreference(families: seq<bv32>)
    ensures ComputeQueueFamily(families).Some? <==> exists i :: 0 <= i < |families| && SupportsCompute(families[i])
    ensures ComputeQueueFamily(families).Some? ==>
      ComputeQueueFamily(families).value < |families| &&
      SupportsCompute(families[ComputeQueueFamily(families).value])
    ensures (exists i :: 0 <= i < |families| && DedicatedCompute(families[i])) ==>
      var k := ComputeQueueFamily(families).value;
      ComputeQueueFamily(families).Some? && k < |families| && DedicatedCompute(families[k]) &&
      forall j :: 0 <= j < k ==> !DedicatedCompute(families[j])
    ensures (forall i :: 0 <= i < |families| ==> !DedicatedCompute(families[i])) && ComputeQueueFamily(families).Some? ==>
      var k := ComputeQueueFamily(families).value;
      k < |families| && forall j :: 0 <= j < k ==> !SupportsCompute(families[j])
  {
    var dedicated := FirstWhere(families, DedicatedCompute, 0);
    var any := FirstWhere(families, SupportsCompute, 0);
    if dedicated.Some? {
      assert ComputeQueueFamily(families) == dedicated;
    } else {
      assert ComputeQueueFamily(families) == any;
    }
  }

  /**
   * The order of the initialisation steps: the error of the first step that
   * throws, or None when all five succeed. `priorIndex` is the queue-family
   * index before the call, which decides whether the queue-family step throws
   * when no family supports compute.
   */
  function FirstFailure(driver: Driver, priorIndex: nat): Option<ContextError>
  {
    if !driver.instanceOk then Some(InstanceCreationFailed)
    else if |driver.devices| == 0 then Some(NoPhysicalDevice)
    else if ComputeQueueFamily(driver.devices[0].queueFamilyFlags).None? && priorIndex == NO_QUEUE_FAMILY
    then Some(NoComputeQueueFamily)
    else if !driver.deviceOk then Some(DeviceCreationFailed)
    else if !driver.commandPoolOk then Some(CommandPoolCreationFailed)
    else None
  }

  class Context {
    var instanceCreated: bool
    var physicalDevice: Option<PhysicalDevice>
    /** A uint32_t; NO_QUEUE_FAMILY until a family is found. */
    var computeQueueFamilyIndex: nat
    /** The queue family the logical device and its queue were created on. */
    var deviceQueueFamily: Option<nat>
    /** The queue family the command pool was created for. */
    var commandPoolQueueFamily: Option<nat>

    constructor ()
      ensures !instanceCreated && physicalDevice == None
      ensures computeQueueFamilyIndex == NO_QUEUE_FAMILY
      ensures deviceQueueFamily == None && commandPoolQueueFamily == None
    {
      instanceCreated := false;
      physicalDevice := None;
      computeQueueFamilyIndex := NO_QUEUE_FAMILY;
      deviceQueueFamily := None;
      commandPoolQueueFamily := None;
    }

    /** createInstance: throws when vkCreateInstance fails. */
    method CreateInstance(ok: bool) returns (status: Status)
      modifies this
      ensures status == (if ok then Success else Failure(InstanceCreationFailed))
      ensures instanceCreated == (ok || old(instanceCreated))
      ensures physicalDevice == old(physicalDevice) && computeQueueFamilyIndex == old(computeQueueFamilyIndex)
      ensures deviceQueueFamily == old(deviceQueueFamily) && commandPoolQueueFamily == old(commandPoolQueueFamily)
    {
      if !ok {
        return Failure(InstanceCreationFailed);
      }
      instanceCreated := true;
      status := Success;
    }

    /** pickPhysicalDevice: throws when there is no device, otherwise takes the first one. */
    method PickPhysicalDevice(devices: seq<PhysicalDevice>) returns (status: Status)
      modifies this
      ensures status == (if |devices| == 0 then Failure(NoPhysicalDevice) else Success)
      ensures physicalDevice == if |devices| == 0 then old(physicalDevice) else Some(devices[0])
      ensures instanceCreated == old(instanceCreated) && computeQueueFamilyIndex == old(computeQueueFamilyIndex)
      ensures deviceQueueFamily == old(deviceQueueFamily) && commandPoolQueueFamily == old(commandPoolQueueFamily)
    {
      var deviceCount := |devices|;
      if deviceCount == 0 {
        return Failure(NoPhysicalDevice);
      }
      physicalDevice := Some(devices[0]);
      status := Success;
    }

    /**
     * findComputeQueueFamily: two scans with early return, first for a
     * dedicated compute family, then for any compute family; throws only if
     * the index still holds its initial value afterwards.
     */
    method FindComputeQueueFamily() returns (status: Status)
      requires physicalDevice.Some?
      modifies this
      ensures var chosen := ComputeQueueFamily(old(physicalDevice).value.queueFamilyFlags);
        (chosen.Some? ==> status == Success && computeQueueFamilyIndex == chosen.value) &&
        (chosen.None? ==> computeQueueFamilyIndex == old(computeQueueFamilyIndex) &&
                          status == if old(computeQueueFamilyIndex) == NO_QUEUE_FAMILY then Failure(NoComputeQueueFamily) else Success)
      ensures instanceCreated == old(instanceCreated) && physicalDevice == old(physicalDevice)
      ensures deviceQueueFamily == old(deviceQueueFamily) && commandPoolQueueFamily == old(commandPoolQueueFamily)
    {
      var families := physicalDevice.value.queueFamilyFlags;
      var i := 0;
      while i < |families|
        invariant 0 <= i <= |families|
        invariant FirstWhere(families, DedicatedCompute, 0) == FirstWhere(families, DedicatedCompute, i)
      {
        if DedicatedCompute(families[i]) {
          computeQueueFamilyIndex := i;
          return Success;
        }
        i := i + 1;
      }
      i := 0;
      while i < |families|
        invariant 0 <= i <= |families|
        invariant FirstWhere(families, SupportsCompute, 0) == FirstWhere(families, SupportsCompute, i)
      {
        if SupportsCompute(families[i]) {
          computeQueueFamilyIndex := i;
          return Success;
        }
        i := i + 1;
      }
      if computeQueueFamilyIndex == NO_QUEUE_FAMILY {
        return Failure(NoComputeQueueFamily);
      }
      status := Success;
    }

    /** createLogicalDeviceAndQueue: one queue on the chosen family; throws when vkCreateDevice fails. */
    method CreateLogicalDeviceAndQueue(ok: bool) returns (status: Status)
      modifies this
      ensures status == (if ok then Success else Failure(DeviceCreationFailed))
      ensures deviceQueueFamily == if ok then Some(computeQueueFamilyIndex) else old(deviceQueueFamily)
      ensures instanceCreated == old(instanceCreated) && physicalDevice == old(physicalDevice)
      ensures computeQueueFamilyIndex == old(computeQueueFamilyIndex) && commandPoolQueueFamily == old(commandPoolQueueFamily)
    {
      if !ok {
        return Failure(DeviceCreationFailed);
      }
      deviceQueueFamily := Some(computeQueueFamilyIndex);
      status := Success;
    }

    /** createCommandPool: a pool for the chosen family; throws when vkCreateCommandPool fails. */
    method CreateCommandPool(ok: bool) returns (status: Status)
      modifies this
      ensures status == (if ok then Success else Failure(CommandPoolCreationFailed))
      ensures commandPoolQueueFamily == if ok then Some(computeQueueFamilyIndex) else old(commandPoolQueueFamily)
      ensures instanceCreated == old(instanceCreated) && physicalDevice == old(physicalDevice)
      ensures computeQueueFamilyIndex == old(computeQueueFamilyIndex) && deviceQueueFamily == old(deviceQueueFamily)
    {
      if !ok {
        return Failure(CommandPoolCreationFailed);
      }
      commandPoolQueueFamily := Some(computeQueueFamilyIndex);
      status := Success;
    }

    /**
     * init: the five steps in order inside one try block. The first step
     * that throws ends the sequence; its error is caught (and logged), which
     * is what `caught` reports, and nothing propagates to the caller.
     */
    method Init(driver: Driver) returns (caught: Option<ContextError>)
      requires forall d :: d in driver.devices ==> WellFormed(d)
      modifies this
      ensures caught == FirstFailure(driver, old(computeQueueFamilyIndex))
      ensures caught == Some(InstanceCreationFailed) ==>
        instanceCreated == old(instanceCreated) &&
        physicalDevice == old(physicalDevice) && computeQueueFamilyIndex == old(computeQueueFamilyIndex)
      ensures caught == Some(NoPhysicalDevice) ==>
        instanceCreated && physicalDevice == old(physicalDevice) && computeQueueFamilyIndex == old(computeQueueFamilyIndex)
      ensures caught.Some? ==>
        deviceQueueFamily == old(deviceQueueFamily) || caught == Some(CommandPoolCreationFailed)
      ensures caught == Some(CommandPoolCreationFailed) ==> deviceQueueFamily == Some(computeQueueFamilyIndex)
      ensures caught.Some? ==> commandPoolQueueFamily == old(commandPoolQueueFamily)
      ensures caught.Some? && caught.value != InstanceCreationFailed && caught.value != NoPhysicalDevice ==>
        instanceCreated && physicalDevice == Some(driver.devices[0])
      ensures caught == Some(NoComputeQueueFamily) ==> computeQueueFamilyIndex == old(computeQueueFamilyIndex)
      ensures caught.None? || caught == Some(DeviceCreationFailed) || caught == Some(CommandPoolCreationFailed) ==>
        computeQueueFamilyIndex ==
          (if ComputeQueueFamily(driver.devices[0].queueFamilyFlags).Some?
           then ComputeQueueFamily(driver.devices[0].queueFamilyFlags).value
           else old(computeQueueFamilyIndex))
      ensures caught.None? ==>
        instanceCreated && physicalDevice == Some(driver.devices[0]) &&
        computeQueueFamilyIndex != NO_QUEUE_FAMILY &&
        deviceQueueFamily == Some(computeQueueFamilyIndex) &&
        commandPoolQueueFamily == Some(computeQueueFamilyIndex)
    {
      var status := CreateInstance(driver.instanceOk);
      if status.Failure? { return Some(status.error); }
      status := PickPhysicalDevice(driver.devices);
      if status.Failure? { return Some(status.error); }
      ghost var families := driver.devices[0].queueFamilyFlags;
      assert WellFormed(driver.devices[0]);
      ComputeQueueFamilyPreference(families);
      status := FindComputeQueueFamily();
      if status.Failure? { return Some(status.error); }
      status := CreateLogicalDeviceAndQueue(driver.deviceOk);
      if status.Failure? { return Some(status.error); }
      status := CreateCommandPool(driver.commandPoolOk);
      if status.Failure? { return Some(status.error); }
      caught := None;
    }
  }

  /** The process-wide slot behind getInstance (a static pointer in the source). */
  class ContextRegistry {
    var instance: Context?

    constructor ()
      ensures instance == null
    {
      instance := null;
    }

    /** getInstance: creates the context on the first call only; every call returns the same object. */
    method GetInstance() returns (c: Context)
      modifies this
      ensures old(instance) != null ==> c == old(instance)
      ensures old(instance) == null ==>
        fresh(c) && !c.instanceCreated && c.physicalDevice == None &&
        c.computeQueueFamilyIndex == NO_QUEUE_FAMILY &&
        c.deviceQueueFamily == None && c.commandPoolQueueFamily == None
      ensures instance == c
    {
      if instance == null {
        instance := new Context();
      }
      c := instance;
    }
  }
}
