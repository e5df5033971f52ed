/**
 * `RenderDeviceManager` in its three revisions (engine/, render/ and
 * render/src/backend/): the choice of the graphics and present queue
 * families, the queue-create set, device creation and teardown, the
 * format probe, single-use command buffers, and the one shared
 * `VulkanAllocator` per device.
 */
module Devices {
  import opened Wrappers
  import opened Common
  import opened Vk
  import VkResults

  /**
   * One entry of `getQueueFamilyProperties`: whether it has the graphics
   * flag, GLFW's presentation-support answer for it, and the code
   * `glfwGetError` reports right after a negative answer (0: no error).
   */
  datatype QueueFamily = QueueFamily(graphics: bool, presentSupport: bool, glfwError: int)

  /** The two optional family indices `get_gp_queue_indices` returns. */
  datatype QueueIndices = QueueIndices(graphics: Option<nat>, present: Option<nat>)

  datatype Queue = Queue(index: nat, handle: Handle)

  const NO_QUEUE := Queue(0, NULL)

  predicate Both(f: QueueFamily) { f.graphics && f.presentSupport }

  /** A family whose presentation query failed with a GLFW error. */
  predicate QueryFails(f: QueueFamily) { !f.presentSupport && f.glfwError != 0 }

  /** The scan over the families stops at `f`, by a `break` or by a throw. */
  predicate EndsScan(f: QueueFamily) { Both(f) || QueryFails(f) }

  /** The index of the first family that ends the scan, or `|fs|` if none does. */
  function FirstEnd(fs: seq<QueueFamily>): (r: nat)
    ensures r <= |fs|
    ensures r < |fs| ==> EndsScan(fs[r])
    ensures forall j :: 0 <= j < r ==> !EndsScan(fs[j])
  {
    if |fs| == 0 then 0
    else if EndsScan(fs[0]) then 0
    else 1 + FirstEnd(fs[1..])
  }

  /** The last graphics-capable family, if any. */
  function LastGraphics(fs: seq<QueueFamily>): (r: Option<nat>)
    ensures r.Some? ==> r.value < |fs| && fs[r.value].graphics
    ensures forall j :: (if r.Some? then r.value + 1 else 0) <= j < |fs| ==> !fs[j].graphics
  {
    if |fs| == 0 then None
    else if fs[|fs| - 1].graphics then Some(|fs| - 1)
    else LastGraphics(fs[..|fs| - 1])
  }

  /** The last family that can present, if any. */
  function LastPresent(fs: seq<QueueFamily>): (r: Option<nat>)
    ensures r.Some? ==> r.value < |fs| && fs[r.value].presentSupport
    ensures forall j :: (if r.Some? then r.value + 1 else 0) <= j < |fs| ==> !fs[j].presentSupport
  {
    if |fs| == 0 then None
    else if fs[|fs| - 1].presentSupport then Some(|fs| - 1)
    else LastPresent(fs[..|fs| - 1])
  }

  /**
   * The outcome of the family scan, stated without the loop: the first
   * family with both capabilities serves both queues; a failed query
   * before it throws; with neither, each queue gets the last capable family.
   */
  function QueueIndicesOf(fs: seq<QueueFamily>): Result<QueueIndices>
  {
    var e := FirstEnd(fs);
    if e == |fs| then Ok(QueueIndices(LastGraphics(fs), LastPresent(fs)))
    else if QueryFails(fs[e]) then Err(GlfwException(fs[e].glfwError))
    else Ok(QueueIndices(Some(e), Some(e)))
  }

  /** `get_gp_queue_indices`, identical in the three revisions. */
  method GetGpQueueIndices(families: seq<QueueFamily>) returns (r: Result<QueueIndices>)
    ensures r == QueueIndicesOf(families)
  {
    var graphics: Option<nat> := None;
    var present: Option<nat> := None;
    var i := 0;
    while i < |families|
      invariant 0 <= i <= |families|
      invariant forall j :: 0 <= j < i ==> !EndsScan(families[j])
      invariant graphics == LastGraphics(families[..i]) && present == LastPresent(families[..i])
    {
      assert families[..i + 1][..i] == families[..i];
      if families[i].graphics {
        graphics := Some(i);
      }
      if families[i].presentSupport {
        present := Some(i);
      } else if families[i].glfwError != 0 {
        return Err(GlfwException(families[i].glfwError));
      }
      if graphics.Some? && present.Some? && graphics.value == present.value {
        return Ok(QueueIndices(graphics, present));
      }
      i := i + 1;
    }
    assert families[..i] == families;
    return Ok(QueueIndices(graphics, present));
  }

  /** The first family with both capabilities, reached without a failed query, serves both queues. */
  lemma FirstCapableFamilyServesBoth(fs: seq<QueueFamily>, i: nat)
    requires i < |fs| && Both(fs[i])
    requires forall j :: 0 <= j < i ==> !EndsScan(fs[j])
    ensures QueueIndicesOf(fs) == Ok(QueueIndices(Some(i), Some(i)))
  {
  }

  /**
   * Whatever the scan returns is right about the families it names: a
   * graphics index is graphics-capable, a present index can present, and
   * a family is shared only when it has both capabilities. Without such a
   * family a missing index means no family has that capability.
   */
  lemma QueueIndicesAreCapable(fs: seq<QueueFamily>)
    ensures QueueIndicesOf(fs).Ok? ==> (
      var q := QueueIndicesOf(fs).value;
      (q.graphics.Some? ==> q.graphics.value < |fs| && fs[q.graphics.value].graphics) &&
      (q.present.Some? ==> q.present.value < |fs| && fs[q.present.value].presentSupport) &&
      (q.graphics.None? ==> forall j :: 0 <= j < |fs| ==> !fs[j].graphics) &&
      (q.present.None? ==> forall j :: 0 <= j < |fs| ==> !fs[j].presentSupport))
    ensures QueueIndicesOf(fs).Err? ==> (
      exists i :: 0 <= i < |fs| && QueryFails(fs[i]) && QueueIndicesOf(fs).error == GlfwException(fs[i].glfwError))
  {
    var e := FirstEnd(fs);
    if e < |fs| && QueryFails(fs[e]) {
      assert QueueIndicesOf(fs).error == GlfwException(fs[e].glfwError);
    }
  }

  /** The indices of a `std::set<uint32_t>{graphics, present}`, in its ascending iteration order. */
  function QueueFamilySet(graphics: nat, present: nat): (r: seq<nat>)
    ensures |r| == (if graphics == present then 1 else 2)
    ensures forall i, j :: 0 <= i < j < |r| ==> r[i] < r[j]
    ensures forall x :: x in r <==> x == graphics || x == present
  {
    if graphics == present then [graphics]
    else if graphics < present then [graphics, present]
    else [present, graphics]
  }

  /** The `push_back` loop: one create info with one queue per family of the set. */
  method QueueCreateInfos(families: seq<nat>) returns (infos: seq<QueueCreateInfo>)
    ensures |infos| == |families|
    ensures forall i :: 0 <= i < |infos| ==> infos[i] == QueueCreateInfo(families[i], 1)
  {
    infos := [];
    for i := 0 to |families|
      invariant |infos| == i
      invariant forall j :: 0 <= j < i ==> infos[j] == QueueCreateInfo(families[j], 1)
    {
      infos := infos + [QueueCreateInfo(families[i], 1)];
    }
  }

  /**
   * How a failed `createDevice` surfaces: the render revision checks the
   * returned result and throws its own exception; the other two use the
   * throwing C++ binding.
   */
  function DeviceCreationError(rev: Revision, result: VkResults.VkResult): (e: Error)
    ensures rev == Render <==> e.VulkanException?
    ensures e.VulkanException? || e.VulkanHppError?
    ensures e.result == result
  {
    if rev == Render then VulkanException(result) else VulkanHppError(result)
  }

  class DeviceManager {
    const revision: Revision
    var physicalDevice: Handle
    var device: Handle
    var graphicsQueue: Queue
    var presentQueue: Queue
    /** The engine revision's command pool; `NULL` in the others. */
    var commandPool: Handle
    /** The weak `allocator` back-reference: the shared allocator last handed out, if any. */
    var allocator: Option<VulkanAllocator>

    constructor (rev: Revision, physical: Handle, dev: Handle, graphics: Queue, present: Queue, pool: Handle)
      ensures revision == rev && physicalDevice == physical && device == dev
      ensures graphicsQueue == graphics && presentQueue == present && commandPool == pool && allocator == None
    {
      revision, physicalDevice, device := rev, physical, dev;
      graphicsQueue, presentQueue, commandPool, allocator := graphics, present, pool, None;
    }

    /**
     * The destructor. The engine revision destroys the command pool and
     * then the device without checking either; the render revisions destroy
     * the device only when there is one. All of them then null the handles.
     */
    method Destroy(drv: Driver)
      modifies this`physicalDevice, this`device, this`graphicsQueue, this`presentQueue, drv
      ensures revision == Engine ==>
        drv.log == old(drv.log) + [DestroyCommandPool(commandPool), DestroyDevice(old(device))]
      ensures revision != Engine ==>
        drv.log == old(drv.log) + (if old(device) != NULL then [DestroyDevice(old(device))] else [])
      ensures drv.last == old(drv.last) && drv.fences == old(drv.fences)
      ensures device == NULL && physicalDevice == NULL && graphicsQueue == NO_QUEUE && presentQueue == NO_QUEUE
    {
      if revision == Engine {
        drv.Record(DestroyCommandPool(commandPool));
        drv.Record(DestroyDevice(device));
      } else if device != NULL {
        drv.Record(DestroyDevice(device));
      }
      graphicsQueue, presentQueue := NO_QUEUE, NO_QUEUE;
      device, physicalDevice := NULL, NULL;
    }

    /** `single_time_command`: a primary buffer from the command pool, begun for one submission. */
    method SingleTimeCommand(drv: Driver) returns (cmd: SingleTimeCommandBuffer)
      modifies drv
      ensures fresh(cmd) && cmd.manager == Some(this)
      ensures cmd.queue == graphicsQueue.handle && cmd.buffer == old(drv.last) + 1
      ensures drv.log == old(drv.log) + [AllocateCommandBuffer(commandPool, cmd.buffer), BeginCommandBuffer(cmd.buffer)]
      ensures drv.last == cmd.buffer && drv.fences == old(drv.fences)
    {
      var b := drv.Fresh();
      drv.Record(AllocateCommandBuffer(commandPool, b));
      cmd := new SingleTimeCommandBuffer(drv, this, graphicsQueue.handle, b);
    }
  }

  /** The queue families a successful scan chose, or `None` when it failed or missed one. */
  function ChosenFamilies(families: seq<QueueFamily>): Option<(nat, nat)>
  {
    var q := QueueIndicesOf(families);
    if q.Ok? && q.value.graphics.Some? && q.value.present.Some? then
      Some((q.value.graphics.value, q.value.present.value))
    else None
  }

  /** The constructor's first step: the scan, then a throw for a missing queue. */
  method ChooseQueueFamilies(families: seq<QueueFamily>) returns (r: Result<(nat, nat)>)
    ensures QueueIndicesOf(families).Err? ==> r == Err(QueueIndicesOf(families).error)
    ensures QueueIndicesOf(families).Ok? && ChosenFamilies(families).None? ==>
      r == Err(VulkanException(VkResults.ErrorUnknown))
    ensures ChosenFamilies(families).Some? ==> r == Ok(ChosenFamilies(families).value)
  {
    var scan := GetGpQueueIndices(families);
    if scan.Err? {
      return Err(scan.error);
    }
    var indices := scan.value;
    if indices.graphics.None? {
      return Err(VulkanException(VkResults.ErrorUnknown));
    }
    if indices.present.None? {
      return Err(VulkanException(VkResults.ErrorUnknown));
    }
    return Ok((indices.graphics.value, indices.present.value));
  }

  /**
   * What the constructor asks of the driver once the families are known:
   * the device, its two queues and, in the engine revision only, a command
   * pool on the graphics family. `dev` is the device's handle and the others
   * follow it.
   */
  function DeviceCalls(rev: Revision, physical: Handle, g: nat, p: nat, dev: Handle): seq<Call>
  {
    var common := [Call.CreateDevice(physical, DeviceQueues(g, p), dev), GetQueue(dev, g, dev + 1),
                   GetQueue(dev, p, dev + 2)];
    if rev == Engine then common + [CreateCommandPool(dev, g, dev + 3)] else common
  }

  /**
   * The constructor (`new_shared`) of revision `rev`. `families` are the
   * device's queue families with GLFW's answers, `createResult` what
   * `createDevice` returns. The device, its two queues and (engine only)
   * the command pool receive fresh handles.
   */
  method NewDeviceManager(drv: Driver, rev: Revision, physical: Handle, families: seq<QueueFamily>,
                          createResult: VkResults.VkResult) returns (r: Result<DeviceManager>)
    modifies drv
    ensures QueueIndicesOf(families).Err? ==> r == Err(QueueIndicesOf(families).error)
    ensures QueueIndicesOf(families).Ok? && ChosenFamilies(families).None? ==>
      r == Err(VulkanException(VkResults.ErrorUnknown))
    ensures ChosenFamilies(families).Some? && createResult != VkResults.Success ==>
      r == Err(DeviceCreationError(rev, createResult))
    ensures r.Err? ==> drv.log == old(drv.log) && drv.fences == old(drv.fences)
    ensures ChosenFamilies(families).Some? && createResult == VkResults.Success ==> (
      var chosen := ChosenFamilies(families).value;
      var dev := old(drv.last) + 1;
      r.Ok? && fresh(r.value) && r.value.revision == rev && r.value.physicalDevice == physical &&
      r.value.device == dev && r.value.allocator == None &&
      r.value.graphicsQueue == Queue(chosen.0, dev + 1) && r.value.presentQueue == Queue(chosen.1, dev + 2) &&
      r.value.commandPool == (if rev == Engine then dev + 3 else NULL) &&
      drv.log == old(drv.log) + DeviceCalls(rev, physical, chosen.0, chosen.1, dev))
  {
    var chosen := ChooseQueueFamilies(families);
    if chosen.Err? {
      return Err(chosen.error);
    }
    r := CreateLogicalDevice(drv, rev, physical, chosen.value.0, chosen.value.1, createResult);
  }

  /** The constructor from the queue-create set on, for the chosen graphics family `g` and present family `p`. */
  method CreateLogicalDevice(drv: Driver, rev: Revision, physical: Handle, g: nat, p: nat,
                             createResult: VkResults.VkResult) returns (r: Result<DeviceManager>)
    modifies drv
    ensures createResult != VkResults.Success ==>
      r == Err(DeviceCreationError(rev, createResult)) && drv.log == old(drv.log) && drv.fences == old(drv.fences)
    ensures createResult == VkResults.Success ==> (
      var dev := old(drv.last) + 1;
      r.Ok? && fresh(r.value) && r.value.revision == rev && r.value.physicalDevice == physical &&
      r.value.device == dev && r.value.allocator == None &&
      r.value.graphicsQueue == Queue(g, dev + 1) && r.value.presentQueue == Queue(p, dev + 2) &&
      r.value.commandPool == (if rev == Engine then dev + 3 else NULL) &&
      drv.log == old(drv.log) + DeviceCalls(rev, physical, g, p, dev))
  {
    var infos := DeviceQueueCreateInfos(g, p);
    if createResult != VkResults.Success {
      return Err(DeviceCreationError(rev, createResult));
    }
    var dev := drv.Fresh();
    drv.Record(Call.CreateDevice(physical, infos, dev));
    var gq := drv.Fresh();
    drv.Record(GetQueue(dev, g, gq));
    var pq := drv.Fresh();
    drv.Record(GetQueue(dev, p, pq));
    var pool := NULL;
    if rev == Engine {
      pool := drv.Fresh();
      drv.Record(CreateCommandPool(dev, g, pool));
    }
    var m := new DeviceManager(rev, physical, dev, Queue(g, gq), Queue(p, pq), pool);
    return Ok(m);
  }

  /** The queue-create infos for the set `{g, p}`. */
  method DeviceQueueCreateInfos(g: nat, p: nat) returns (infos: seq<QueueCreateInfo>)
    ensures infos == DeviceQueues(g, p)
  {
    infos := QueueCreateInfos(QueueFamilySet(g, p));
  }

  /** The `pQueueCreateInfos` of the device: one queue per distinct family. */
  function DeviceQueues(graphics: nat, present: nat): (r: seq<QueueCreateInfo>)
    ensures |r| == (if graphics == present then 1 else 2)
    ensures forall i :: 0 <= i < |r| ==> r[i].count == 1 && (r[i].family == graphics || r[i].family == present)
    ensures forall i, j :: 0 <= i < j < |r| ==> r[i].family < r[j].family
  {
    var s := QueueFamilySet(graphics, present);
    seq(|s|, i requires 0 <= i < |s| => QueueCreateInfo(s[i], 1))
  }

  /**
   * `SingleTimeCommandBuffer`: a begun command buffer that is submitted
   * once and freed exactly once, by `submit` or else by the destructor.
   */
  class SingleTimeCommandBuffer {
    /** `p_manager`; `None` once the buffer has been submitted and freed. */
    var manager: Option<DeviceManager>
    var queue: Handle
    var buffer: Handle

    constructor (drv: Driver, m: DeviceManager, q: Handle, b: Handle)
      modifies drv
      ensures manager == Some(m) && queue == q && buffer == b
      ensures drv.log == old(drv.log) + [BeginCommandBuffer(b)]
      ensures drv.last == old(drv.last) && drv.fences == old(drv.fences)
    {
      manager, queue, buffer := Some(m), q, b;
      drv.Record(BeginCommandBuffer(b));
    }

    /** `submit`: end, submit, wait for the queue, free, then forget the manager, queue and buffer. */
    method Submit(drv: Driver)
      requires manager.Some?
      modifies this, drv
      ensures drv.log == old(drv.log) + [EndCommandBuffer(old(buffer)), SubmitOnce(old(queue), old(buffer)),
                                         QueueWaitIdle(old(queue)),
                                         FreeCommandBuffer(old(manager.value.commandPool), old(buffer))]
      ensures drv.last == old(drv.last) && drv.fences == old(drv.fences)
      ensures manager == None && queue == NULL && buffer == NULL
    {
      drv.Record(EndCommandBuffer(buffer));
      drv.Record(SubmitOnce(queue, buffer));
      drv.Record(QueueWaitIdle(queue));
      drv.Record(FreeCommandBuffer(manager.value.commandPool, buffer));
      manager, queue, buffer := None, NULL, NULL;
    }

    /** The destructor: frees the buffer only if `submit` has not. */
    method Dispose(drv: Driver)
      modifies drv
      ensures manager.Some? ==> drv.log == old(drv.log) + [FreeCommandBuffer(manager.value.commandPool, buffer)]
      ensures manager.None? ==> drv.log == old(drv.log)
      ensures drv.last == old(drv.last) && drv.fences == old(drv.fences)
    {
      if manager.Some? {
        drv.Record(FreeCommandBuffer(manager.value.commandPool, buffer));
      }
    }
  }

  /** The calls among `calls` that free command buffer `b`. */
  function FreesOf(calls: seq<Call>, b: Handle): (r: nat)
    ensures r <= |calls|
  {
    if |calls| == 0 then 0
    else FreesOf(calls[..|calls| - 1], b) + (if calls[|calls| - 1].FreeCommandBuffer? && calls[|calls| - 1].commandBuffer == b then 1 else 0)
  }

  /** `FreesOf` adds up over concatenation. */
  lemma {:induction false} FreesOfAppend(a: seq<Call>, b: seq<Call>, h: Handle)
    ensures FreesOf(a + b, h) == FreesOf(a, h) + FreesOf(b, h)
  {
    if |b| > 0 {
      assert (a + b)[..|a + b| - 1] == a + b[..|b| - 1];
      FreesOfAppend(a, b[..|b| - 1], h);
    } else {
      assert a + b == a;
    }
  }

  lemma {:induction false} NoFrees(calls: seq<Call>, b: Handle)
    requires forall i :: 0 <= i < |calls| ==> !(calls[i].FreeCommandBuffer? && calls[i].commandBuffer == b)
    ensures FreesOf(calls, b) == 0
  {
    if |calls| > 0 {
      NoFrees(calls[..|calls| - 1], b);
    }
  }

  /**
   * The usual life of a single-use command: obtained, submitted, then
   * destroyed. The buffer is freed exactly once.
   */
  method SubmitThenDrop(drv: Driver, m: DeviceManager) returns (b: Handle)
    modifies drv
    ensures b == old(drv.last) + 1
    ensures drv.log == old(drv.log) + [AllocateCommandBuffer(m.commandPool, b), BeginCommandBuffer(b),
                                       EndCommandBuffer(b), SubmitOnce(m.graphicsQueue.handle, b),
                                       QueueWaitIdle(m.graphicsQueue.handle), FreeCommandBuffer(m.commandPool, b)]
    ensures FreesOf(drv.log[|old(drv.log)|..], b) == 1
  {
    var cmd := m.SingleTimeCommand(drv);
    b := cmd.buffer;
    cmd.Submit(drv);
    cmd.Dispose(drv);
    var added := drv.log[|old(drv.log)|..];
    assert added == [AllocateCommandBuffer(m.commandPool, b), BeginCommandBuffer(b), EndCommandBuffer(b),
                     SubmitOnce(m.graphicsQueue.handle, b), QueueWaitIdle(m.graphicsQueue.handle)] +
                    [FreeCommandBuffer(m.commandPool, b)];
    FreesOfAppend(added[..5], added[5..], b);
    NoFrees(added[..5], b);
    assert added[5..][..0] == [];
  }

  /**
   * `find_supported_format`'s inputs: a candidate format with the answer
   * of `getFormatProperties` for it.
   */
  datatype FormatProperties = FormatProperties(format: nat, linearTilingFeatures: bv32, optimalTilingFeatures: bv32)

  datatype ImageTiling = Optimal | Linear | DrmFormatModifier

  /** The features of `p` under `tiling` share a bit with those requested. */
  predicate Suits(p: FormatProperties, tiling: ImageTiling, features: bv32)
  {
    (tiling == Linear && p.linearTilingFeatures & features != 0) ||
    (tiling == Optimal && p.optimalTilingFeatures & features != 0)
  }

  /** `find_supported_format`: the first candidate that suits, else `eErrorFormatNotSupported`. */
  function FindSupportedFormat(candidates: seq<FormatProperties>, tiling: ImageTiling, features: bv32): (r: Result<nat>)
    ensures r.Ok? ==> exists i :: (
      0 <= i < |candidates| && candidates[i].format == r.value && Suits(candidates[i], tiling, features) &&
      forall j :: 0 <= j < i ==> !Suits(candidates[j], tiling, features))
    ensures r.Err? ==> (
      r.error == VulkanException(VkResults.ErrorFormatNotSupported) &&
      forall i :: 0 <= i < |candidates| ==> !Suits(candidates[i], tiling, features))
  {
    if |candidates| == 0 then Err(VulkanException(VkResults.ErrorFormatNotSupported))
    else if Suits(candidates[0], tiling, features) then Ok(candidates[0].format)
    else
      var r := FindSupportedFormat(candidates[1..], tiling, features);
      assert r.Ok? ==> exists i :: (
        1 <= i < |candidates| && candidates[i].format == r.value && Suits(candidates[i], tiling, features) &&
        forall j :: 0 <= j < i ==> !Suits(candidates[j], tiling, features)) by {
        if r.Ok? {
          var k :| 0 <= k < |candidates| - 1 && candidates[1..][k].format == r.value &&
            Suits(candidates[1..][k], tiling, features) &&
            forall j :: 0 <= j < k ==> !Suits(candidates[1..][j], tiling, features);
          assert forall j :: 1 <= j < k + 1 ==> candidates[j] == candidates[1..][j - 1];
        }
      }
      r
  }

  /**
   * The per-device VMA allocator. It holds its device manager strongly;
   * the device manager refers back to it only weakly (`allocator`), so the
   * two do not keep each other alive.
   */
  class VulkanAllocator {
    const deviceManager: DeviceManager
    const handle: Handle
    /** Whether a `shared_ptr` still owns it, that is whether `allocator.lock()` yields it. */
    var alive: bool

    constructor (m: DeviceManager, h: Handle)
      ensures deviceManager == m && handle == h && alive
    {
      deviceManager, handle, alive := m, h, true;
    }

    /** The destructor, run when the last owner lets go: `vmaDestroyAllocator`. */
    method Release(drv: Driver)
      requires alive
      modifies this, drv
      ensures !alive
      ensures drv.log == old(drv.log) + [DestroyAllocator(handle)]
      ensures drv.last == old(drv.last) && drv.fences == old(drv.fences)
    {
      drv.Record(DestroyAllocator(handle));
      alive := false;
    }
  }

  /** `allocator.lock()` succeeds. */
  predicate HasLiveAllocator(m: DeviceManager)
    reads m, if m.allocator.Some? then {m.allocator.value} else {}
  {
    m.allocator.Some? && m.allocator.value.alive
  }

  /**
   * `VulkanAllocator::new_shared`: the device's live allocator if it has
   * one; otherwise a new one, recorded in the device manager's weak field
   * once `vmaCreateAllocator` (answering `createResult`) has succeeded.
   */
  method NewShared(drv: Driver, m: DeviceManager, createResult: VkResults.VkResult) returns (r: Result<VulkanAllocator>)
    modifies drv, m`allocator
    ensures old(HasLiveAllocator(m)) ==>
      r == Ok(old(m.allocator.value)) && m.allocator == old(m.allocator) && unchanged(drv)
    ensures !old(HasLiveAllocator(m)) && createResult != VkResults.Success ==>
      r == Err(VulkanException(createResult)) && m.allocator == old(m.allocator) && unchanged(drv)
    ensures !old(HasLiveAllocator(m)) && createResult == VkResults.Success ==>
      r.Ok? && fresh(r.value) && r.value.alive && r.value.deviceManager == m &&
      r.value.handle == old(drv.last) + 1 && m.allocator == Some(r.value) &&
      drv.log == old(drv.log) + [CreateAllocator(m.device, r.value.handle)] && drv.fences == old(drv.fences)
  {
    if m.allocator.Some? && m.allocator.value.alive {
      return Ok(m.allocator.value);
    }
    if createResult != VkResults.Success {
      return Err(VulkanException(createResult));
    }
    var h := drv.Fresh();
    drv.Record(CreateAllocator(m.device, h));
    var a := new VulkanAllocator(m, h);
    m.allocator := Some(a);
    return Ok(a);
  }

  /**
   * Two calls in a row: once the first has produced an allocator the
   * second returns that same one, and only one VMA allocator is created.
   */
  method NewSharedTwice(drv: Driver, m: DeviceManager, first: VkResults.VkResult, second: VkResults.VkResult)
    returns (a: Result<VulkanAllocator>, b: Result<VulkanAllocator>)
    modifies drv, m`allocator
    ensures a.Ok? ==> b == a
    ensures a.Ok? && !old(HasLiveAllocator(m)) ==> drv.log == old(drv.log) + [CreateAllocator(m.device, a.value.handle)]
    ensures a.Ok? && old(HasLiveAllocator(m)) ==> drv.log == old(drv.log)
  {
    a := NewShared(drv, m, first);
    b := NewShared(drv, m, second);
  }
}
