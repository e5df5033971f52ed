/**
 * The engine's `VulkanBackend` frame ring: `MAX_IN_FLIGHT` frame sets, each
 * with a command buffer, a `GpuSync` and a block of `MAX_DESCRIPTORS`
 * descriptor sets, used in turn by `begin_draw` / `end_draw`. The swapchain
 * manager is seen here only through its handle and its validity; what a
 * recreation does inside it is the swapchain model's business, and the
 * backend logs it as one `SwapchainRecreation` step whose outcome
 * (still valid or not) is an input.
 */
module Backend {
  import opened Wrappers
  import opened Common
  import opened Vk
  import VkResults
  import opened Sync
  import Allocation

  /** `MAX_IN_FLIGHT` and `MAX_DESCRIPTORS` of the engine's constants header. */
  const MAX_IN_FLIGHT: nat := 2
  const MAX_DESCRIPTORS: nat := 128
  /** The size in bytes of a Vulkan handle such as `vk::DescriptorSet`. */
  const HANDLE_BYTES: nat := 8
  /** `sizeof(ViewProjectionUniform)`: two 4x4 matrices of 32-bit floats. */
  const VP_UNIFORM_SIZE: nat := 128

  /** A descriptor block as it is value-initialised: every handle null. */
  const NULL_DESCRIPTORS: seq<Handle> := seq(MAX_DESCRIPTORS, _ => NULL)

  /**
   * `memcpy(dst, src, bytes)` over arrays of handles: the first
   * `bytes / HANDLE_BYTES` handles come from `src`, the rest of `dst` stays.
   * Only whole handles are modelled.
   */
  function CopyBytes(dst: seq<Handle>, src: seq<Handle>, bytes: nat): (r: seq<Handle>)
    requires bytes % HANDLE_BYTES == 0 && bytes / HANDLE_BYTES <= |dst| && bytes / HANDLE_BYTES <= |src|
    ensures |r| == |dst|
    ensures forall k :: 0 <= k < bytes / HANDLE_BYTES ==> r[k] == src[k]
    ensures forall k :: bytes / HANDLE_BYTES <= k < |dst| ==> r[k] == dst[k]
  {
    src[..bytes / HANDLE_BYTES] + dst[bytes / HANDLE_BYTES..]
  }

  datatype FrameSet = FrameSet(commandBuffer: Handle, sync: GpuSync, descriptors: seq<Handle>)

  /**
   * What `begin_draw` hands to the caller: the slot's descriptor block, none
   * of it used yet, the slot and image indices, the binding of this frame's
   * view/projection uniform and the slot's command buffer.
   */
  datatype DrawingContext = DrawingContext(descriptors: seq<Handle>, usedDescriptors: nat, frameIndex: nat,
                                           imageIndex: nat, vpBuffer: Handle, vpOffset: nat, vpRange: nat,
                                           cmd: Handle)

  /** Frame set `i` as `initialize_frame_sets` leaves it, its sync objects made from handle `base` on. */
  ghost predicate FrameSetMade(slot: FrameSet, i: nat, cmdBuffers: seq<Handle>, descriptorSets: seq<Handle>,
                               bytes: nat, base: Handle)
    requires i < MAX_IN_FLIGHT && |cmdBuffers| >= MAX_IN_FLIGHT
    requires |descriptorSets| >= MAX_IN_FLIGHT * MAX_DESCRIPTORS
    requires bytes % HANDLE_BYTES == 0 && bytes / HANDLE_BYTES <= MAX_DESCRIPTORS
    reads slot.sync
  {
    slot.commandBuffer == cmdBuffers[i] &&
    slot.descriptors == CopyBytes(NULL_DESCRIPTORS, descriptorSets[i * MAX_DESCRIPTORS..], bytes) &&
    slot.sync.imageAvailable == base + 3 * i + 1 && slot.sync.renderFinished == base + 3 * i + 2 &&
    slot.sync.inFlight == base + 3 * i + 3
  }

  /** The creation calls of `n` frame sets' sync objects, handles from `base` on. */
  function SyncCreations(n: nat, base: Handle): seq<Call>
  {
    if n == 0 then []
    else SyncCreations(n - 1, base) +
         [CreateSemaphore(base + 3 * (n - 1) + 1), CreateSemaphore(base + 3 * (n - 1) + 2),
          CreateFence(true, base + 3 * (n - 1) + 3)]
  }

  /** `fences` with the in-flight fences of the first `n` frame sets added, signaled. */
  function SignaledFences(fences: map<Handle, bool>, n: nat, base: Handle): map<Handle, bool>
  {
    if n == 0 then fences else SignaledFences(fences, n - 1, base)[base + 3 * (n - 1) + 3 := true]
  }

  /**
   * The calls of `begin_draw` after a successful wait: the acquisition, a
   * recreation when it is out of date and that is caught (`caught`), and
   * only after a successful one the fence reset, the command buffer reset
   * and recording, and the uniform flush.
   */
  function AcquireCalls(swapchain: Handle, fence: Handle, imageAvailable: Handle, cmd: Handle,
                        acquireResult: VkResults.VkResult, imageIndex: nat, flush: seq<Call>, caught: bool): seq<Call>
  {
    if caught && acquireResult == VkResults.ErrorOutOfDateKHR then
      [AcquireNextImage(swapchain, imageAvailable), SwapchainRecreation(swapchain)]
    else if acquireResult != VkResults.Success then [AcquireNextImage(swapchain, imageAvailable)]
    else [AcquireNextImage(swapchain, imageAvailable), ResetFence(fence),
          ResetCommandBuffer(cmd), RecordCommandBuffer(cmd, imageIndex)] + flush
  }

  /**
   * The calls of `begin_draw`: with an invalid swapchain only a recreation;
   * otherwise the wait on the slot's fence and, if it succeeded, those of
   * `AcquireCalls`.
   */
  function BeginDrawCalls(valid: bool, swapchain: Handle, fence: Handle, imageAvailable: Handle, cmd: Handle,
                          waitResult: VkResults.VkResult, acquireResult: VkResults.VkResult, imageIndex: nat,
                          flush: seq<Call>, caught: bool): seq<Call>
  {
    if !valid then [SwapchainRecreation(swapchain)]
    else if waitResult != VkResults.Success then [WaitForFence(fence)]
    else [WaitForFence(fence)] + AcquireCalls(swapchain, fence, imageAvailable, cmd, acquireResult, imageIndex,
                                              flush, caught)
  }

  /** The slot's fence is reset by `begin_draw` exactly when the swapchain was valid, the wait and the acquisition succeeded. */
  lemma ResetOnlyAfterAcquire(valid: bool, swapchain: Handle, fence: Handle, imageAvailable: Handle, cmd: Handle,
                              waitResult: VkResults.VkResult, acquireResult: VkResults.VkResult, imageIndex: nat,
                              flush: seq<Call>, caught: bool)
    requires forall c :: c in flush ==> c.FlushAllocation?
    ensures ResetFence(fence) in BeginDrawCalls(valid, swapchain, fence, imageAvailable, cmd, waitResult,
                                                acquireResult, imageIndex, flush, caught)
            <==> valid && waitResult == VkResults.Success && acquireResult == VkResults.Success
  {
    var calls := BeginDrawCalls(valid, swapchain, fence, imageAvailable, cmd, waitResult, acquireResult,
                                imageIndex, flush, caught);
    if valid && waitResult == VkResults.Success && acquireResult == VkResults.Success {
      assert calls[2] == ResetFence(fence);
    } else {
      assert forall c :: c in calls ==> !c.ResetFence?;
    }
  }

  /**
   * `begin_draw` recreates the swapchain exactly when it was invalid, or when
   * an out-of-date acquisition after a successful wait is caught. As written
   * (`caught` false) a valid swapchain is never recreated here.
   */
  lemma RecreatedOnlyWhenCaught(valid: bool, swapchain: Handle, fence: Handle, imageAvailable: Handle, cmd: Handle,
                                waitResult: VkResults.VkResult, acquireResult: VkResults.VkResult, imageIndex: nat,
                                flush: seq<Call>, caught: bool)
    requires forall c :: c in flush ==> c.FlushAllocation?
    ensures SwapchainRecreation(swapchain) in BeginDrawCalls(valid, swapchain, fence, imageAvailable, cmd, waitResult,
                                                             acquireResult, imageIndex, flush, caught)
            <==> !valid || (caught && waitResult == VkResults.Success && acquireResult == VkResults.ErrorOutOfDateKHR)
  {
    var calls := BeginDrawCalls(valid, swapchain, fence, imageAvailable, cmd, waitResult, acquireResult,
                                imageIndex, flush, caught);
    if !valid {
      assert calls[0] == SwapchainRecreation(swapchain);
    } else if caught && waitResult == VkResults.Success && acquireResult == VkResults.ErrorOutOfDateKHR {
      assert calls[2] == SwapchainRecreation(swapchain);
    } else {
      assert forall c :: c in calls ==> !c.SwapchainRecreation?;
    }
  }

  /** End recording, submit behind the image-available semaphore, present behind render-finished. */
  function PresentCalls(swapchain: Handle, slot: FrameSet, imageIndex: nat): seq<Call>
    reads slot.sync
  {
    [EndCommandBuffer(slot.commandBuffer),
     Submit(slot.commandBuffer, slot.sync.imageAvailable, slot.sync.renderFinished, slot.sync.inFlight),
     Present(swapchain, slot.sync.renderFinished, imageIndex)]
  }

  /** The calls of `end_draw`: those of `PresentCalls`, and a recreation when asked for. */
  function EndDrawCalls(swapchain: Handle, slot: FrameSet, imageIndex: nat, recreate: bool): seq<Call>
    reads slot.sync
  {
    PresentCalls(swapchain, slot, imageIndex) + (if recreate then [SwapchainRecreation(swapchain)] else [])
  }

  /** Submit and present slot `slot`'s frame; the submission unsignals the slot's fence. */
  method SubmitAndPresent(drv: Driver, swapchain: Handle, slot: FrameSet, imageIndex: nat)
    modifies drv
    ensures drv.log == old(drv.log) + PresentCalls(swapchain, slot, imageIndex)
    ensures drv.fences == old(drv.fences)[slot.sync.inFlight := false] && drv.last == old(drv.last)
  {
    drv.Record(EndCommandBuffer(slot.commandBuffer));
    drv.SubmitWork(Submit(slot.commandBuffer, slot.sync.imageAvailable, slot.sync.renderFinished, slot.sync.inFlight),
                   slot.sync.inFlight);
    drv.Record(Present(swapchain, slot.sync.renderFinished, imageIndex));
  }

  /** A present result `end_draw` lets through: success, suboptimal, or the out-of-date error it catches. */
  predicate PresentHandled(r: VkResults.VkResult)
  {
    r == VkResults.Success || r == VkResults.SuboptimalKHR || r == VkResults.ErrorOutOfDateKHR
  }

  /**
   * Whether `end_draw` recreates the swapchain: present was suboptimal or
   * threw out-of-date, or a resize was pending, and present did not fail
   * otherwise.
   */
  predicate Recreates(presentResult: VkResults.VkResult, resized: bool)
  {
    PresentHandled(presentResult) && (presentResult != VkResults.Success || resized)
  }

  class VulkanBackend {
    var frameIndex: nat
    var framebufferResized: bool
    /** The handle of the swapchain manager's current swapchain, and whether the manager holds images. */
    var swapchain: Handle
    var swapchainValid: bool
    var frameSets: seq<FrameSet>
    /** `m_vp_uniform`: `ViewProjectionUniform[MAX_IN_FLIGHT]` in host-visible memory. */
    const vpUniform: Allocation.HostVisibleAllocation

    /** The frame ring as `begin_draw` / `end_draw` need it. */
    ghost predicate Valid()
      reads this, vpUniform
    {
      frameIndex < MAX_IN_FLIGHT && |frameSets| == MAX_IN_FLIGHT &&
      (forall i :: 0 <= i < MAX_IN_FLIGHT ==> |frameSets[i].descriptors| == MAX_DESCRIPTORS) &&
      vpUniform.size == MAX_IN_FLIGHT * VP_UNIFORM_SIZE
    }

    /** The ring before `initialize_frame_sets`: slot 0, no resize pending, no frame sets. */
    constructor (swapchain: Handle, swapchainValid: bool, vpUniform: Allocation.HostVisibleAllocation)
      ensures this.swapchain == swapchain && this.swapchainValid == swapchainValid && this.vpUniform == vpUniform
      ensures frameIndex == 0 && !framebufferResized && frameSets == []
    {
      this.swapchain, this.swapchainValid, this.vpUniform := swapchain, swapchainValid, vpUniform;
      frameIndex, framebufferResized, frameSets := 0, false, [];
    }

    /**
     * `recreate_swapchain`: one recreation of the current swapchain, whose
     * outcome `validAfter` the window's extent decides. A valid result has a
     * new swapchain handle.
     */
    method RecreateSwapchain(drv: Driver, validAfter: bool) returns (valid: bool)
      modifies this`swapchain, this`swapchainValid, drv
      ensures valid == validAfter && swapchainValid == validAfter
      ensures swapchain == if validAfter then old(drv.last) + 1 else old(swapchain)
      ensures drv.log == old(drv.log) + [SwapchainRecreation(old(swapchain))]
      ensures drv.last == swapchain || drv.last == old(drv.last)
      ensures drv.fences == old(drv.fences)
    {
      drv.Record(SwapchainRecreation(swapchain));
      if validAfter {
        swapchain := drv.Fresh();
      }
      swapchainValid := validAfter;
      valid := validAfter;
    }

    /**
     * The loop of `initialize_frame_sets`, copying `bytes` bytes of each
     * descriptor block: slot `i` gets command buffer `i`, fresh sync objects
     * and its part of `descriptorSets`.
     */
    method FillFrameSets(drv: Driver, cmdBuffers: seq<Handle>, descriptorSets: seq<Handle>, bytes: nat)
      requires frameSets == []
      requires |cmdBuffers| >= MAX_IN_FLIGHT && |descriptorSets| >= MAX_IN_FLIGHT * MAX_DESCRIPTORS
      requires bytes % HANDLE_BYTES == 0 && bytes / HANDLE_BYTES <= MAX_DESCRIPTORS
      modifies this`frameSets, drv
      ensures |frameSets| == MAX_IN_FLIGHT
      ensures forall i :: 0 <= i < MAX_IN_FLIGHT ==> fresh(frameSets[i].sync)
      ensures forall i :: 0 <= i < MAX_IN_FLIGHT ==>
        FrameSetMade(frameSets[i], i, cmdBuffers, descriptorSets, bytes, old(drv.last))
      ensures drv.log == old(drv.log) + SyncCreations(MAX_IN_FLIGHT, old(drv.last))
      ensures drv.fences == SignaledFences(old(drv.fences), MAX_IN_FLIGHT, old(drv.last))
      ensures drv.last == old(drv.last) + 3 * MAX_IN_FLIGHT
    {
      var s0 := new GpuSync();
      var s1 := new GpuSync();
      frameSets := [FrameSet(NULL, s0, NULL_DESCRIPTORS), FrameSet(NULL, s1, NULL_DESCRIPTORS)];
      for i := 0 to MAX_IN_FLIGHT
        invariant |frameSets| == MAX_IN_FLIGHT && frameSets[0].sync == s0 && frameSets[1].sync == s1
        invariant i > 0 ==> FrameSetMade(frameSets[0], 0, cmdBuffers, descriptorSets, bytes, old(drv.last))
        invariant i > 1 ==> FrameSetMade(frameSets[1], 1, cmdBuffers, descriptorSets, bytes, old(drv.last))
        invariant i < 1 ==> frameSets[0].descriptors == NULL_DESCRIPTORS
        invariant i < 2 ==> frameSets[1].descriptors == NULL_DESCRIPTORS
        invariant drv.log == old(drv.log) + SyncCreations(i, old(drv.last))
        invariant drv.fences == SignaledFences(old(drv.fences), i, old(drv.last))
        invariant drv.last == old(drv.last) + 3 * i
      {
        FillSlot(drv, i, cmdBuffers, descriptorSets, bytes);
      }
    }

    /** One turn of the `initialize_frame_sets` loop: slot `i` gets its command buffer, sync objects and descriptors. */
    method FillSlot(drv: Driver, i: nat, cmdBuffers: seq<Handle>, descriptorSets: seq<Handle>, bytes: nat)
      requires i < |frameSets| == MAX_IN_FLIGHT && frameSets[i].descriptors == NULL_DESCRIPTORS
      requires |cmdBuffers| >= MAX_IN_FLIGHT && |descriptorSets| >= MAX_IN_FLIGHT * MAX_DESCRIPTORS
      requires bytes % HANDLE_BYTES == 0 && bytes / HANDLE_BYTES <= MAX_DESCRIPTORS
      modifies this`frameSets, frameSets[i].sync, drv
      ensures frameSets == old(frameSets)[i := FrameSet(cmdBuffers[i], old(frameSets[i].sync),
                                                        CopyBytes(NULL_DESCRIPTORS, descriptorSets[i * MAX_DESCRIPTORS..], bytes))]
      ensures frameSets[i].sync.imageAvailable == old(drv.last) + 1 && frameSets[i].sync.renderFinished == old(drv.last) + 2
      ensures frameSets[i].sync.inFlight == old(drv.last) + 3 && drv.last == old(drv.last) + 3
      ensures drv.log == old(drv.log) + [CreateSemaphore(old(drv.last) + 1), CreateSemaphore(old(drv.last) + 2),
                                         CreateFence(true, old(drv.last) + 3)]
      ensures drv.fences == old(drv.fences)[old(drv.last) + 3 := true]
    {
      var slot := frameSets[i];
      slot.sync.Init(drv);
      frameSets := frameSets[i := FrameSet(cmdBuffers[i], slot.sync,
                                           CopyBytes(slot.descriptors, descriptorSets[i * MAX_DESCRIPTORS..], bytes))];
    }

    /**
     * `initialize_frame_sets` as written: `memcpy` is given
     * `MAX_DESCRIPTORS` as a byte count, so only the first
     * `MAX_DESCRIPTORS / HANDLE_BYTES` handles of each block are copied and
     * the rest stay null.
     */
    method InitializeFrameSetsAsWritten(drv: Driver, cmdBuffers: seq<Handle>, descriptorSets: seq<Handle>)
      requires frameSets == []
      requires |cmdBuffers| >= MAX_IN_FLIGHT && |descriptorSets| >= MAX_IN_FLIGHT * MAX_DESCRIPTORS
      modifies this`frameSets, drv
      ensures |frameSets| == MAX_IN_FLIGHT
      ensures forall i :: 0 <= i < MAX_IN_FLIGHT ==> |frameSets[i].descriptors| == MAX_DESCRIPTORS
      ensures forall i, k :: 0 <= i < MAX_IN_FLIGHT && 0 <= k < MAX_DESCRIPTORS / HANDLE_BYTES ==>
        frameSets[i].descriptors[k] == descriptorSets[i * MAX_DESCRIPTORS + k]
      ensures forall i, k :: 0 <= i < MAX_IN_FLIGHT && MAX_DESCRIPTORS / HANDLE_BYTES <= k < MAX_DESCRIPTORS ==>
        frameSets[i].descriptors[k] == NULL
    {
      FillFrameSets(drv, cmdBuffers, descriptorSets, MAX_DESCRIPTORS);
      forall i | 0 <= i < MAX_IN_FLIGHT
        ensures frameSets[i].descriptors == CopyBytes(NULL_DESCRIPTORS, descriptorSets[i * MAX_DESCRIPTORS..], MAX_DESCRIPTORS)
      {
        assert FrameSetMade(frameSets[i], i, cmdBuffers, descriptorSets, MAX_DESCRIPTORS, old(drv.last));
      }
    }

    /**
     * `initialize_frame_sets` with the byte count the copy needs,
     * `MAX_DESCRIPTORS * sizeof(vk::DescriptorSet)`: slot `i` holds exactly
     * block `i` of the descriptor sets, and each slot has its own
     * signaled in-flight fence.
     */
    method InitializeFrameSets(drv: Driver, cmdBuffers: seq<Handle>, descriptorSets: seq<Handle>)
      requires frameSets == []
      requires |cmdBuffers| >= MAX_IN_FLIGHT && |descriptorSets| >= MAX_IN_FLIGHT * MAX_DESCRIPTORS
      modifies this`frameSets, drv
      ensures |frameSets| == MAX_IN_FLIGHT
      ensures forall i :: 0 <= i < MAX_IN_FLIGHT ==>
        frameSets[i].commandBuffer == cmdBuffers[i] &&
        frameSets[i].descriptors == descriptorSets[i * MAX_DESCRIPTORS..(i + 1) * MAX_DESCRIPTORS]
      ensures frameSets[0].sync.inFlight != frameSets[1].sync.inFlight
      ensures forall i :: 0 <= i < MAX_IN_FLIGHT ==>
        frameSets[i].sync.inFlight in drv.fences && drv.fences[frameSets[i].sync.inFlight]
    {
      FillFrameSets(drv, cmdBuffers, descriptorSets, MAX_DESCRIPTORS * HANDLE_BYTES);
      forall i | 0 <= i < MAX_IN_FLIGHT
        ensures frameSets[i].descriptors == descriptorSets[i * MAX_DESCRIPTORS..(i + 1) * MAX_DESCRIPTORS]
      {
        assert FrameSetMade(frameSets[i], i, cmdBuffers, descriptorSets, MAX_DESCRIPTORS * HANDLE_BYTES, old(drv.last));
      }
    }

    /** The flush of the whole uniform array that `begin_draw` issues. */
    function UniformFlush(): seq<Call>
      reads vpUniform
    {
      if vpUniform.coherent then [] else [FlushAllocation(vpUniform.allocation, 0, vpUniform.size)]
    }

    /**
     * `begin_draw` as written. With an invalid swapchain it recreates and
     * returns none, touching no fence. A failed fence wait throws. So does
     * every failed acquisition: the bindings throw an out-of-date result
     * instead of handing it back, so the out-of-date test never holds and
     * the swapchain is not recreated. Otherwise the fence is reset and the
     * context for this slot is returned.
     */
    method BeginDrawAsWritten(drv: Driver, waitResult: VkResults.VkResult, acquireResult: VkResults.VkResult,
                              imageIndex: nat, validAfter: bool)
      returns (r: Result<Option<DrawingContext>>)
      requires Valid()
      modifies this`swapchain, this`swapchainValid, drv
      ensures Valid()
      ensures drv.log == old(drv.log) +
        BeginDrawCalls(old(swapchainValid), old(swapchain), frameSets[frameIndex].sync.inFlight,
                       frameSets[frameIndex].sync.imageAvailable, frameSets[frameIndex].commandBuffer,
                       waitResult, acquireResult, imageIndex, UniformFlush(), false)
      ensures var f := frameSets[frameIndex].sync.inFlight;
        if !old(swapchainValid) then drv.fences == old(drv.fences)
        else if waitResult != VkResults.Success then drv.fences == old(drv.fences)
        else if acquireResult == VkResults.Success then drv.fences == old(drv.fences)[f := false]
        else drv.fences == old(drv.fences)[f := true]
      ensures if !old(swapchainValid) then
          swapchainValid == validAfter && swapchain == (if validAfter then old(drv.last) + 1 else old(swapchain))
        else swapchainValid == old(swapchainValid) && swapchain == old(swapchain)
      ensures r.Err? <==>
        old(swapchainValid) && (waitResult != VkResults.Success || acquireResult != VkResults.Success)
      ensures r.Err? ==>
        r.error == if waitResult != VkResults.Success then Failure(waitResult, WAIT_RETURNS)
                   else Failure(acquireResult, ACQUIRE_RETURNS)
      ensures old(swapchainValid) && waitResult == VkResults.Success && acquireResult == VkResults.ErrorOutOfDateKHR ==>
        r == Err(VulkanHppError(VkResults.ErrorOutOfDateKHR))
      ensures r == Ok(None) <==> !old(swapchainValid)
      ensures r.Ok? && r.value.Some? ==>
        var ctx := r.value.value;
        ctx.frameIndex == frameIndex && ctx.usedDescriptors == 0 && ctx.imageIndex == imageIndex &&
        ctx.cmd == frameSets[frameIndex].commandBuffer && ctx.descriptors == frameSets[frameIndex].descriptors &&
        ctx.vpBuffer == vpUniform.buffer && ctx.vpRange == VP_UNIFORM_SIZE &&
        ctx.vpOffset == Allocation.Offset(frameIndex, VP_UNIFORM_SIZE) &&
        ctx.vpOffset + ctx.vpRange <= vpUniform.size
    {
      if !swapchainValid {
        var _ := RecreateSwapchain(drv, validAfter);
        return Ok(None);
      }
      var slot := frameSets[frameIndex];
      drv.Wait(slot.sync.inFlight, waitResult);
      if waitResult != VkResults.Success {
        return Err(Failure(waitResult, WAIT_RETURNS));
      }
      r := AcquireFrameAsWritten(drv, slot, acquireResult, imageIndex);
    }

    /**
     * `begin_draw` with the out-of-date acquisition caught, as `end_draw`
     * catches it from present: it then recreates and returns none with the
     * slot's fence left signaled. Every other failure throws as written.
     */
    method BeginDraw(drv: Driver, waitResult: VkResults.VkResult, acquireResult: VkResults.VkResult,
                     imageIndex: nat, validAfter: bool)
      returns (r: Result<Option<DrawingContext>>)
      requires Valid()
      modifies this`swapchain, this`swapchainValid, drv
      ensures Valid()
      ensures drv.log == old(drv.log) +
        BeginDrawCalls(old(swapchainValid), old(swapchain), frameSets[frameIndex].sync.inFlight,
                       frameSets[frameIndex].sync.imageAvailable, frameSets[frameIndex].commandBuffer,
                       waitResult, acquireResult, imageIndex, UniformFlush(), true)
      ensures var f := frameSets[frameIndex].sync.inFlight;
        if !old(swapchainValid) then drv.fences == old(drv.fences)
        else if waitResult != VkResults.Success then drv.fences == old(drv.fences)
        else if acquireResult == VkResults.Success then drv.fences == old(drv.fences)[f := false]
        else drv.fences == old(drv.fences)[f := true]
      ensures var recreated := !old(swapchainValid) ||
                               (waitResult == VkResults.Success && acquireResult == VkResults.ErrorOutOfDateKHR);
        if recreated then
          swapchainValid == validAfter && swapchain == (if validAfter then old(drv.last) + 1 else old(swapchain))
        else swapchainValid == old(swapchainValid) && swapchain == old(swapchain)
      ensures r.Err? <==>
        old(swapchainValid) &&
        (waitResult != VkResults.Success ||
         (acquireResult != VkResults.Success && acquireResult != VkResults.ErrorOutOfDateKHR))
      ensures r.Err? ==>
        r.error == if waitResult != VkResults.Success then Failure(waitResult, WAIT_RETURNS)
                   else Failure(acquireResult, ACQUIRE_RETURNS)
      ensures r == Ok(None) <==>
        !old(swapchainValid) || (waitResult == VkResults.Success && acquireResult == VkResults.ErrorOutOfDateKHR)
      ensures r.Ok? && r.value.Some? ==>
        var ctx := r.value.value;
        ctx.frameIndex == frameIndex && ctx.usedDescriptors == 0 && ctx.imageIndex == imageIndex &&
        ctx.cmd == frameSets[frameIndex].commandBuffer && ctx.descriptors == frameSets[frameIndex].descriptors &&
        ctx.vpBuffer == vpUniform.buffer && ctx.vpRange == VP_UNIFORM_SIZE &&
        ctx.vpOffset == Allocation.Offset(frameIndex, VP_UNIFORM_SIZE) &&
        ctx.vpOffset + ctx.vpRange <= vpUniform.size
    {
      if !swapchainValid {
        var _ := RecreateSwapchain(drv, validAfter);
        return Ok(None);
      }
      var slot := frameSets[frameIndex];
      drv.Wait(slot.sync.inFlight, waitResult);
      if waitResult != VkResults.Success {
        return Err(Failure(waitResult, WAIT_RETURNS));
      }
      r := AcquireFrame(drv, slot, acquireResult, imageIndex, validAfter);
    }

    /**
     * The part of `begin_draw` after a successful wait on slot `slot`, as
     * written: a result the bindings hand back other than success throws
     * `VulkanException`; any other, out-of-date included, is thrown by the
     * bindings. A successful acquisition resets the fence, records the
     * command buffer and gives the context.
     */
    method AcquireFrameAsWritten(drv: Driver, slot: FrameSet, acquireResult: VkResults.VkResult, imageIndex: nat)
      returns (r: Result<Option<DrawingContext>>)
      requires Valid() && slot == frameSets[frameIndex]
      modifies drv
      ensures drv.log == old(drv.log) +
        AcquireCalls(swapchain, slot.sync.inFlight, slot.sync.imageAvailable, slot.commandBuffer,
                     acquireResult, imageIndex, UniformFlush(), false)
      ensures drv.fences == if acquireResult == VkResults.Success then old(drv.fences)[slot.sync.inFlight := false]
                            else old(drv.fences)
      ensures acquireResult != VkResults.Success ==> r == Err(Failure(acquireResult, ACQUIRE_RETURNS))
      ensures acquireResult == VkResults.Success ==> r == Ok(Some(UniformContext(frameIndex, imageIndex, slot)))
    {
      drv.Record(AcquireNextImage(swapchain, slot.sync.imageAvailable));
      if acquireResult !in ACQUIRE_RETURNS {
        return Err(VulkanHppError(acquireResult));
      }
      // The `eErrorOutOfDateKHR` test cannot hold here: that result was thrown above.
      if acquireResult != VkResults.Success {
        return Err(VulkanException(acquireResult));
      }
      drv.Reset(slot.sync.inFlight);
      RecordFrame(drv, slot.commandBuffer, imageIndex);
      r := Ok(Some(UniformContext(frameIndex, imageIndex, slot)));
    }

    /**
     * The part of `begin_draw` after a successful wait, with the out-of-date
     * error caught: it recreates and gives none; another failure throws as
     * written, and a successful acquisition resets the fence, records the
     * command buffer and gives the context.
     */
    method AcquireFrame(drv: Driver, slot: FrameSet, acquireResult: VkResults.VkResult, imageIndex: nat,
                        validAfter: bool)
      returns (r: Result<Option<DrawingContext>>)
      requires Valid() && slot == frameSets[frameIndex]
      modifies this`swapchain, this`swapchainValid, drv
      ensures drv.log == old(drv.log) +
        AcquireCalls(old(swapchain), slot.sync.inFlight, slot.sync.imageAvailable, slot.commandBuffer,
                     acquireResult, imageIndex, UniformFlush(), true)
      ensures drv.fences == if acquireResult == VkResults.Success then old(drv.fences)[slot.sync.inFlight := false]
                            else old(drv.fences)
      ensures if acquireResult == VkResults.ErrorOutOfDateKHR then
          swapchainValid == validAfter && swapchain == (if validAfter then old(drv.last) + 1 else old(swapchain))
        else swapchainValid == old(swapchainValid) && swapchain == old(swapchain)
      ensures acquireResult == VkResults.ErrorOutOfDateKHR ==> r == Ok(None)
      ensures acquireResult != VkResults.ErrorOutOfDateKHR && acquireResult != VkResults.Success ==>
        r == Err(Failure(acquireResult, ACQUIRE_RETURNS))
      ensures acquireResult == VkResults.Success ==> r == Ok(Some(UniformContext(frameIndex, imageIndex, slot)))
    {
      drv.Record(AcquireNextImage(swapchain, slot.sync.imageAvailable));
      if acquireResult == VkResults.ErrorOutOfDateKHR {
        var _ := RecreateSwapchain(drv, validAfter);
        return Ok(None);
      }
      if acquireResult !in ACQUIRE_RETURNS {
        return Err(VulkanHppError(acquireResult));
      }
      if acquireResult != VkResults.Success {
        return Err(VulkanException(acquireResult));
      }
      drv.Reset(slot.sync.inFlight);
      RecordFrame(drv, slot.commandBuffer, imageIndex);
      r := Ok(Some(UniformContext(frameIndex, imageIndex, slot)));
    }

    /** Reset and record the slot's command buffer, then flush the uniform array. */
    method RecordFrame(drv: Driver, cmd: Handle, imageIndex: nat)
      modifies drv
      ensures drv.log == old(drv.log) + [ResetCommandBuffer(cmd), RecordCommandBuffer(cmd, imageIndex)] + UniformFlush()
      ensures drv.last == old(drv.last) && drv.fences == old(drv.fences)
    {
      drv.Record(ResetCommandBuffer(cmd));
      drv.Record(RecordCommandBuffer(cmd, imageIndex));
      vpUniform.Flush(drv);
    }

    /**
     * The context `begin_draw` returns for slot `frame`; the descriptor
     * buffer info addresses element `frame` of the uniform array, which
     * `operator[]` finds in bounds.
     */
    function UniformContext(frame: nat, imageIndex: nat, slot: FrameSet): (ctx: DrawingContext)
      requires frame < MAX_IN_FLIGHT && vpUniform.size == MAX_IN_FLIGHT * VP_UNIFORM_SIZE
      reads vpUniform
      ensures ctx.vpOffset + ctx.vpRange <= vpUniform.size
      ensures ctx.vpOffset == Allocation.Offset(frame, VP_UNIFORM_SIZE) && ctx.vpRange == VP_UNIFORM_SIZE
      ensures ctx.frameIndex == frame && ctx.usedDescriptors == 0 && ctx.cmd == slot.commandBuffer
    {
      Allocation.CountOfArraySize(VP_UNIFORM_SIZE, MAX_IN_FLIGHT);
      var element := vpUniform.Element(frame, VP_UNIFORM_SIZE);
      DrawingContext(slot.descriptors, 0, frame, imageIndex, vpUniform.buffer,
                     Allocation.Offset(frame, VP_UNIFORM_SIZE), VP_UNIFORM_SIZE, slot.commandBuffer)
    }

    /**
     * `end_draw`. Ends and submits the slot's command buffer, which
     * unsignals its fence until the GPU is done, and presents. A present
     * error other than out-of-date propagates. Otherwise the swapchain is
     * recreated exactly when present was suboptimal or out of date or a
     * resize was pending, the resize flag ends cleared, and the ring moves
     * to the next slot.
     */
    method EndDraw(drv: Driver, ctx: DrawingContext, presentResult: VkResults.VkResult, validAfter: bool)
      returns (r: Result<()>)
      requires Valid() && ctx.frameIndex < MAX_IN_FLIGHT
      modifies this`frameIndex, this`framebufferResized, this`swapchain, this`swapchainValid, drv
      ensures Valid()
      ensures drv.log == old(drv.log) + EndDrawCalls(old(swapchain), frameSets[ctx.frameIndex], ctx.imageIndex,
                                                     Recreates(presentResult, old(framebufferResized)))
      ensures Recreates(presentResult, old(framebufferResized)) ==>
        swapchainValid == validAfter && swapchain == (if validAfter then old(drv.last) + 1 else old(swapchain))
      ensures !Recreates(presentResult, old(framebufferResized)) ==>
        swapchainValid == old(swapchainValid) && swapchain == old(swapchain)
      ensures drv.fences == old(drv.fences)[frameSets[ctx.frameIndex].sync.inFlight := false]
      ensures !PresentHandled(presentResult) ==>
        r == Err(VulkanHppError(presentResult)) && frameIndex == old(frameIndex) &&
        framebufferResized == old(framebufferResized)
      ensures PresentHandled(presentResult) ==>
        r == Ok(()) && frameIndex == (old(frameIndex) + 1) % MAX_IN_FLIGHT && !framebufferResized
    {
      var slot := frameSets[ctx.frameIndex];
      SubmitAndPresent(drv, swapchain, slot, ctx.imageIndex);
      if !PresentHandled(presentResult) {
        return Err(VulkanHppError(presentResult));
      }
      var shouldRecreate := presentResult != VkResults.Success;
      if shouldRecreate || framebufferResized {
        framebufferResized := false;
        var _ := RecreateSwapchain(drv, validAfter);
      }
      frameIndex := (frameIndex + 1) % MAX_IN_FLIGHT;
      r := Ok(());
    }
  }

  /**
   * One frame end to end on a valid ring: when both calls succeed, the
   * slot's fence is left unsignaled for the GPU to signal, every other
   * fence is as before, and the next frame uses the next slot.
   */
  method DrawFrame(drv: Driver, b: VulkanBackend, waitResult: VkResults.VkResult, acquireResult: VkResults.VkResult,
                   imageIndex: nat, presentResult: VkResults.VkResult, validAfter: bool)
    returns (r: Result<bool>)
    requires b.Valid()
    modifies b`frameIndex, b`framebufferResized, b`swapchain, b`swapchainValid, drv
    ensures b.Valid()
    ensures r == Ok(true) ==>
      var f := b.frameSets[old(b.frameIndex)].sync.inFlight;
      f in drv.fences && !drv.fences[f] &&
      (forall h :: h != f ==> (h in drv.fences <==> h in old(drv.fences))) &&
      (forall h :: h != f && h in drv.fences ==> drv.fences[h] == old(drv.fences)[h]) &&
      b.frameIndex == (old(b.frameIndex) + 1) % MAX_IN_FLIGHT
    ensures r == Ok(false) ==> b.frameIndex == old(b.frameIndex)
  {
    var began := b.BeginDraw(drv, waitResult, acquireResult, imageIndex, validAfter);
    if began.Err? {
      return Err(began.error);
    }
    if began.value.None? {
      return Ok(false);
    }
    var ended := b.EndDraw(drv, began.value.value, presentResult, validAfter);
    if ended.Err? {
      return Err(ended.error);
    }
    return Ok(true);
  }
}
