/**
 * `RenderManager` (render revision): the older, single-frame renderer. It
 * owns a swapchain, its images and image views, one framebuffer per image,
 * a render pass and pipeline, `IN_FLIGHT` command buffers and one `GpuSync`.
 * Every driver call whose result it checks throws `VulkanException` with
 * that result when it is not `eSuccess`.
 */
module Render {
  import opened Bytes
  import opened Common
  import opened Selection
  import opened Vk
  import VkResults
  import Sync

  /** `RenderManager::IN_FLIGHT`: one frame is in flight at a time. */
  const IN_FLIGHT: nat := 1

  /** The index of the first result that is not a success, or the number of results when all are. */
  function FirstFailure(results: seq<VkResults.VkResult>): (j: nat)
    ensures j <= |results|
    ensures forall k :: 0 <= k < j ==> results[k] == VkResults.Success
    ensures j < |results| ==> results[j] != VkResults.Success
  {
    if results == [] then 0
    else if results[0] != VkResults.Success then 0
    else 1 + FirstFailure(results[1..])
  }

  /** A per-image object the manager creates, with the create-info fields it fills in. */
  datatype Creation =
    /** A 2D colour view of a swapchain image with identity swizzles and the configured layers. */
    | View(format: nat, layers: nat)
    /** A framebuffer with a single view attachment, sized to the swapchain extent. */
    | Framebuffer(renderPass: Handle, width: nat, height: nat, layers: nat)

  /** The create call that makes `made` from `source` (an image for a view, a view for a framebuffer). */
  function CreateCall(c: Creation, source: Handle, made: Handle): Call
  {
    match c
    case View(format, layers) => CreateImageView(source, format, layers, made)
    case Framebuffer(renderPass, width, height, layers) =>
      CreateFramebuffer(renderPass, source, width, height, layers, made)
  }

  /** One creation per source, in order, the `k`-th making handle `base + k + 1`. */
  function Creations(c: Creation, sources: seq<Handle>, base: Handle): seq<Call>
  {
    if sources == [] then []
    else Creations(c, sources[..|sources| - 1], base) + [CreateCall(c, sources[|sources| - 1], base + |sources|)]
  }

  /** Exactly one creation per source, in the sources' order, each with a new handle. */
  lemma {:induction false} CreationsShape(c: Creation, sources: seq<Handle>, base: Handle)
    ensures |Creations(c, sources, base)| == |sources|
    ensures forall k :: 0 <= k < |sources| ==> Creations(c, sources, base)[k] == CreateCall(c, sources[k], base + k + 1)
  {
    if sources != [] {
      var front := sources[..|sources| - 1];
      CreationsShape(c, front, base);
      var last := CreateCall(c, sources[|sources| - 1], base + |sources|);
      assert Creations(c, sources, base) == Creations(c, front, base) + [last];
      forall k | 0 <= k < |front| ensures sources[k] == front[k] { }
    }
  }

  /**
   * The handles `n` successive creations are given after `base`: `n` of
   * them, in increasing order and so pairwise distinct, all above `base`
   * and none beyond `base + n`.
   */
  function FreshHandles(base: Handle, n: nat): (hs: seq<Handle>)
    ensures |hs| == n
    ensures forall i, j :: 0 <= i < j < n ==> hs[i] < hs[j]
    ensures forall k :: 0 <= k < n ==> base < hs[k] <= base + n
  {
    seq(n, k => base + k + 1)
  }

  /** The per-image objects the manager destroys. */
  datatype Kind = Framebuffers | Views

  function DestroyCall(kind: Kind, h: Handle): Call
  {
    match kind
    case Framebuffers => DestroyFramebuffer(h)
    case Views => DestroyImageView(h)
  }

  /** One destroy call per handle, in order. */
  function Destructions(kind: Kind, hs: seq<Handle>): seq<Call>
  {
    if hs == [] then [] else Destructions(kind, hs[..|hs| - 1]) + [DestroyCall(kind, hs[|hs| - 1])]
  }

  /** Exactly one destroy call per handle, in the handles' order. */
  lemma {:induction false} DestructionsShape(kind: Kind, hs: seq<Handle>)
    ensures |Destructions(kind, hs)| == |hs|
    ensures forall k :: 0 <= k < |hs| ==> Destructions(kind, hs)[k] == DestroyCall(kind, hs[k])
  {
    if hs != [] {
      var front := hs[..|hs| - 1];
      DestructionsShape(kind, front);
      forall k | 0 <= k < |front| ensures hs[k] == front[k] { }
    }
  }

  /** Destroying framebuffers or views never destroys a pipeline. */
  lemma DestructionsKeepPipelines(kind: Kind, hs: seq<Handle>, p: Handle)
    ensures multiset(Destructions(kind, hs))[DestroyPipeline(p)] == 0
  {
    DestructionsShape(kind, hs);
    assert DestroyPipeline(p) !in Destructions(kind, hs);
  }

  /**
   * What `clean_pipeline` destroys once the device is idle: every
   * framebuffer, the pipeline when it is non-null, then every image view.
   */
  function CleanCalls(framebuffers: seq<Handle>, pipeline: Handle, views: seq<Handle>): seq<Call>
  {
    Destructions(Framebuffers, framebuffers) + (if pipeline != NULL then [DestroyPipeline(pipeline)] else []) +
    Destructions(Views, views)
  }

  /** A clean destroys its pipeline once when it is non-null, and no pipeline otherwise. */
  lemma CleanDestroysPipelineOnce(framebuffers: seq<Handle>, pipeline: Handle, views: seq<Handle>)
    ensures multiset(CleanCalls(framebuffers, pipeline, views))[DestroyPipeline(pipeline)] ==
            if pipeline != NULL then 1 else 0
  {
    DestructionsKeepPipelines(Framebuffers, framebuffers, pipeline);
    DestructionsKeepPipelines(Views, views, pipeline);
  }

  /**
   * Two cleans in a row as written: `recreate_pipeline` cleans, its
   * `create_pipeline` throws before a new pipeline is stored (a failed
   * swapchain, image, render pass or layout creation), and the destructor
   * cleans again, still seeing the pipeline the first clean destroyed. A
   * non-null pipeline is destroyed twice.
   */
  lemma CleanTwiceAsWrittenDestroysPipelineTwice(framebuffers: seq<Handle>, pipeline: Handle, views: seq<Handle>)
    requires pipeline != NULL
    ensures multiset([WaitIdle] + CleanCalls(framebuffers, pipeline, views) + [WaitIdle] + CleanCalls([], pipeline, []))
              [DestroyPipeline(pipeline)] == 2
  {
    CleanDestroysPipelineOnce(framebuffers, pipeline, views);
    CleanDestroysPipelineOnce([], pipeline, []);
  }

  /** Two cleans in a row when the first nulls the pipeline: it is destroyed once. */
  lemma CleanTwiceDestroysPipelineOnce(framebuffers: seq<Handle>, pipeline: Handle, views: seq<Handle>)
    requires pipeline != NULL
    ensures multiset([WaitIdle] + CleanCalls(framebuffers, pipeline, views) + [WaitIdle] + CleanCalls([], NULL, []))
              [DestroyPipeline(pipeline)] == 1
  {
    CleanDestroysPipelineOnce(framebuffers, pipeline, views);
    CleanDestroysPipelineOnce([], NULL, []);
  }

  /** `vector::resize(n)`: the first elements kept, the rest value-initialised (null). */
  function Resize(hs: seq<Handle>, n: nat): (r: seq<Handle>)
    ensures |r| == n
    ensures forall k :: 0 <= k < n ==> r[k] == if k < |hs| then hs[k] else NULL
  {
    if n <= |hs| then hs[..n] else hs + seq(n - |hs|, _ => NULL)
  }

  /** The handles one frame uses. */
  datatype FrameHandles = FrameHandles(swapchain: Handle, imageAvailable: Handle, renderFinished: Handle,
                                       inFlight: Handle, commandBuffer: Handle)

  /**
   * What the driver answers at each step of `render_frame`: the fence wait,
   * the fence reset, the image acquisition, recording the command buffer,
   * the submission and the presentation.
   */
  datatype FrameResults = FrameResults(wait: VkResults.VkResult, reset: VkResults.VkResult,
                                       acquire: VkResults.VkResult, record: VkResults.VkResult,
                                       submit: VkResults.VkResult, present: VkResults.VkResult)

  const FRAME_STEPS: nat := 6

  function Steps(rs: FrameResults): (s: seq<VkResults.VkResult>)
    ensures |s| == FRAME_STEPS
  {
    [rs.wait, rs.reset, rs.acquire, rs.record, rs.submit, rs.present]
  }

  /** The calls of step `k` of a frame. */
  function StepCalls(h: FrameHandles, imageIndex: nat, k: nat): seq<Call>
    requires k < FRAME_STEPS
  {
    if k == 0 then [WaitForFence(h.inFlight)]
    else if k == 1 then [ResetFence(h.inFlight)]
    else if k == 2 then [AcquireNextImage(h.swapchain, h.imageAvailable)]
    else if k == 3 then [ResetCommandBuffer(h.commandBuffer), RecordCommandBuffer(h.commandBuffer, imageIndex)]
    else if k == 4 then [Submit(h.commandBuffer, h.imageAvailable, h.renderFinished, h.inFlight)]
    else [Present(h.swapchain, h.renderFinished, imageIndex)]
  }

  /** The calls of the first `n` steps, in order. */
  function StepsCalls(h: FrameHandles, imageIndex: nat, n: nat): seq<Call>
    requires n <= FRAME_STEPS
  {
    if n == 0 then [] else StepsCalls(h, imageIndex, n - 1) + StepCalls(h, imageIndex, n - 1)
  }

  /** How many steps a frame attempts: all of them up to and including the first that fails. */
  function Attempted(rs: FrameResults): (n: nat)
    ensures 1 <= n <= FRAME_STEPS
  {
    var j := FirstFailure(Steps(rs));
    if j == FRAME_STEPS then FRAME_STEPS else j + 1
  }

  /** The calls `render_frame` makes. */
  function FrameCalls(h: FrameHandles, rs: FrameResults, imageIndex: nat): seq<Call>
  {
    StepsCalls(h, imageIndex, Attempted(rs))
  }

  /** What `render_frame` ends with: normally, or throwing the first failing step's result. */
  function FrameOutcome(rs: FrameResults): Result<()>
  {
    var j := FirstFailure(Steps(rs));
    if j == FRAME_STEPS then Ok(()) else Err(VulkanException(Steps(rs)[j]))
  }

  /** A frame ends normally exactly when every step succeeds; otherwise it throws a failing step's result. */
  lemma FrameOkIffAllSucceed(rs: FrameResults)
    ensures FrameOutcome(rs).Ok? <==>
      rs.wait == VkResults.Success && rs.reset == VkResults.Success && rs.acquire == VkResults.Success &&
      rs.record == VkResults.Success && rs.submit == VkResults.Success && rs.present == VkResults.Success
    ensures FrameOutcome(rs).Err? ==>
      FrameOutcome(rs).error.VulkanException? && FrameOutcome(rs).error.result != VkResults.Success &&
      FrameOutcome(rs).error.result in Steps(rs)
  {
    var s := Steps(rs);
    var j := FirstFailure(s);
    if j < FRAME_STEPS {
      assert s[j] != VkResults.Success;
    } else {
      assert s[0] == rs.wait && s[1] == rs.reset && s[2] == rs.acquire;
      assert s[3] == rs.record && s[4] == rs.submit && s[5] == rs.present;
    }
  }

  /** How many steps a frame attempts, read off the answers: up to the first that fails. */
  lemma AttemptedSteps(rs: FrameResults)
    ensures rs.wait != VkResults.Success ==> Attempted(rs) == 1
    ensures rs.wait == VkResults.Success && rs.reset != VkResults.Success ==> Attempted(rs) == 2
    ensures rs.wait == VkResults.Success && rs.reset == VkResults.Success && rs.acquire != VkResults.Success ==>
      Attempted(rs) == 3
    ensures rs.wait == VkResults.Success && rs.reset == VkResults.Success && rs.acquire == VkResults.Success ==>
      (rs.record != VkResults.Success ==> Attempted(rs) == 4) &&
      (rs.record == VkResults.Success && rs.submit != VkResults.Success ==> Attempted(rs) == 5) &&
      (rs.record == VkResults.Success && rs.submit == VkResults.Success ==> Attempted(rs) == 6)
  {
    var s := Steps(rs);
    assert s[0] == rs.wait && s[1] == rs.reset && s[2] == rs.acquire;
    assert s[3] == rs.record && s[4] == rs.submit && s[5] == rs.present;
  }

  /** What a frame ends with, read off the answers: the first failing step's result, or normally. */
  lemma OutcomeSteps(rs: FrameResults)
    ensures rs.wait != VkResults.Success ==> FrameOutcome(rs) == Err(VulkanException(rs.wait))
    ensures rs.wait == VkResults.Success && rs.reset != VkResults.Success ==>
      FrameOutcome(rs) == Err(VulkanException(rs.reset))
    ensures rs.wait == VkResults.Success && rs.reset == VkResults.Success && rs.acquire != VkResults.Success ==>
      FrameOutcome(rs) == Err(VulkanException(rs.acquire))
    ensures rs.wait == VkResults.Success && rs.reset == VkResults.Success && rs.acquire == VkResults.Success ==>
      (rs.record != VkResults.Success ==> FrameOutcome(rs) == Err(VulkanException(rs.record))) &&
      (rs.record == VkResults.Success && rs.submit != VkResults.Success ==>
         FrameOutcome(rs) == Err(VulkanException(rs.submit))) &&
      (rs.record == VkResults.Success && rs.submit == VkResults.Success ==>
         FrameOutcome(rs) == if rs.present == VkResults.Success then Ok(()) else Err(VulkanException(rs.present)))
  {
    var s := Steps(rs);
    assert s[0] == rs.wait && s[1] == rs.reset && s[2] == rs.acquire;
    assert s[3] == rs.record && s[4] == rs.submit && s[5] == rs.present;
  }

  /** The calls of the first `n` steps, spelled out. */
  lemma StepsCallsValues(h: FrameHandles, imageIndex: nat)
    ensures
      var w, r, a := WaitForFence(h.inFlight), ResetFence(h.inFlight), AcquireNextImage(h.swapchain, h.imageAvailable);
      var rc, rec := ResetCommandBuffer(h.commandBuffer), RecordCommandBuffer(h.commandBuffer, imageIndex);
      var sub := Submit(h.commandBuffer, h.imageAvailable, h.renderFinished, h.inFlight);
      StepsCalls(h, imageIndex, 1) == [w] && StepsCalls(h, imageIndex, 2) == [w, r] &&
      StepsCalls(h, imageIndex, 3) == [w, r, a] && StepsCalls(h, imageIndex, 4) == [w, r, a, rc, rec] &&
      StepsCalls(h, imageIndex, 5) == [w, r, a, rc, rec, sub] &&
      StepsCalls(h, imageIndex, 6) == [w, r, a, rc, rec, sub, Present(h.swapchain, h.renderFinished, imageIndex)]
  {
  }

  /**
   * `render_frame` resets the fence before it acquires an image: whenever
   * the acquisition is attempted, it is the third call, right after the
   * reset, and it is made once. No path recreates the swapchain.
   */
  lemma ResetPrecedesAcquire(h: FrameHandles, rs: FrameResults, imageIndex: nat)
    ensures forall i :: 0 <= i < |FrameCalls(h, rs, imageIndex)| && FrameCalls(h, rs, imageIndex)[i].AcquireNextImage? ==>
      i == 2 && FrameCalls(h, rs, imageIndex)[1] == ResetFence(h.inFlight)
    ensures forall c :: c in FrameCalls(h, rs, imageIndex) ==> !c.SwapchainRecreation?
  {
    AttemptedSteps(rs);
    StepsCallsValues(h, imageIndex);
  }

  /**
   * A failed acquisition or recording after the reset leaves the fence
   * reset with no submission made that would signal it, so the wait at the
   * start of the next frame cannot return.
   */
  lemma FailureAfterResetStrandsFence(h: FrameHandles, rs: FrameResults, imageIndex: nat)
    requires rs.wait == VkResults.Success && rs.reset == VkResults.Success
    requires rs.acquire != VkResults.Success || rs.record != VkResults.Success
    ensures ResetFence(h.inFlight) in FrameCalls(h, rs, imageIndex)
    ensures forall c :: c in FrameCalls(h, rs, imageIndex) ==> !c.Submit?
    ensures FrameOutcome(rs).Err?
  {
    AttemptedSteps(rs);
    StepsCallsValues(h, imageIndex);
    FrameOkIffAllSucceed(rs);
  }

  class RenderManager {
    var surface: Handle
    /** The graphics and present queue family indices of the shared device manager. */
    var graphicsFamily: u32
    var presentFamily: u32
    var swapchain: Handle
    var images: seq<Handle>
    var imageViews: seq<Handle>
    var renderPass: Handle
    var pipelineLayout: Handle
    var pipeline: Handle
    var framebuffers: seq<Handle>
    var commandPool: Handle
    var commandBuffers: seq<Handle>
    var configuration: SwapchainConfiguration
    const sync: Sync.GpuSync

    /** Every handle null, every list empty, a value-initialised configuration. */
    constructor(surface: Handle, graphicsFamily: u32, presentFamily: u32, sync: Sync.GpuSync)
      ensures this.surface == surface && this.graphicsFamily == graphicsFamily && this.presentFamily == presentFamily
      ensures this.sync == sync && configuration == DEFAULT_CONFIGURATION
      ensures swapchain == NULL && renderPass == NULL && pipelineLayout == NULL && pipeline == NULL
      ensures commandPool == NULL
      ensures images == [] && imageViews == [] && framebuffers == [] && commandBuffers == []
    {
      this.surface, this.graphicsFamily, this.presentFamily, this.sync := surface, graphicsFamily, presentFamily, sync;
      swapchain, renderPass, pipelineLayout, pipeline, commandPool := NULL, NULL, NULL, NULL, NULL;
      images, imageViews, framebuffers, commandBuffers := [], [], [], [];
      configuration := DEFAULT_CONFIGURATION;
    }

    /** The handles a frame uses: the swapchain, the sync objects and command buffer 0. */
    function Handles(): (h: FrameHandles)
      requires |commandBuffers| >= 1
      reads this, sync
      ensures h.swapchain == swapchain && h.commandBuffer == commandBuffers[0]
      ensures h.imageAvailable == sync.imageAvailable && h.renderFinished == sync.renderFinished
      ensures h.inFlight == sync.inFlight
    {
      FrameHandles(swapchain, sync.imageAvailable, sync.renderFinished, sync.inFlight, commandBuffers[0])
    }

    /**
     * `create_swapchain`: the configuration chosen from the support query is
     * stored first; then a swapchain is created that names the current one as
     * the one it replaces, with exclusive sharing when both queues share a
     * family. A failed creation throws and keeps the current handle.
     */
    method CreateSwapchain(drv: Driver, support: SupportDetails, framebuffer: Extent, result: VkResults.VkResult)
      returns (r: Result<()>)
      requires |support.formats| > 0
      modifies this`configuration, this`swapchain, drv
      ensures configuration.extent == SelectExtent(support.capabilities, framebuffer)
      ensures configuration.imageCount == ImageCount(support.capabilities) && configuration.imageLayers == 1
      ensures PRESENT_MODE_MAILBOX in support.modes ==> configuration.presentMode == PRESENT_MODE_MAILBOX
      ensures PRESENT_MODE_MAILBOX !in support.modes ==> configuration.presentMode == PRESENT_MODE_FIFO
      ensures HasPreferred(support.formats) ==>
        configuration.format == FORMAT_B8G8R8A8_SRGB && configuration.colorSpace == COLOR_SPACE_SRGB_NONLINEAR
      ensures !HasPreferred(support.formats) ==>
        configuration.format == support.formats[0].format && configuration.colorSpace == support.formats[0].colorSpace
      ensures r.Ok? <==> result == VkResults.Success
      ensures r.Err? ==> r == Err(VulkanException(result)) && swapchain == old(swapchain) && drv.last == old(drv.last)
      ensures r.Ok? ==> swapchain == old(drv.last) + 1 && drv.last == swapchain
      ensures drv.log == old(drv.log) +
        [Call.CreateSwapchain(SwapchainInfo(surface, configuration, SharingFor(graphicsFamily, presentFamily),
                                            old(swapchain)), if r.Ok? then swapchain else NULL)]
      ensures drv.fences == old(drv.fences)
    {
      configuration := Configure(support, framebuffer);
      var info := SwapchainInfo(surface, configuration, SharingFor(graphicsFamily, presentFamily), swapchain);
      if result != VkResults.Success {
        drv.Record(Call.CreateSwapchain(info, NULL));
        return Err(VulkanException(result));
      }
      var h := drv.Fresh();
      drv.Record(Call.CreateSwapchain(info, h));
      swapchain := h;
      return Ok(());
    }

    /**
     * `get_images`: the swapchain's images as the driver reports them, then
     * one view per image, answering `viewResults`. A failed query throws
     * before anything is stored; a failed view throws after the images are
     * stored, leaving the views list as it was.
     */
    method GetImages(drv: Driver, imagesResult: VkResults.VkResult, handles: seq<Handle>,
                     viewResults: seq<VkResults.VkResult>)
      returns (r: Result<()>)
      requires |viewResults| == |handles|
      modifies this`images, this`imageViews, drv
      ensures imagesResult != VkResults.Success ==>
        r == Err(VulkanException(imagesResult)) && images == old(images) && imageViews == old(imageViews) &&
        drv.log == old(drv.log) && drv.last == old(drv.last)
      ensures imagesResult == VkResults.Success ==> images == handles
      ensures imagesResult == VkResults.Success ==>
        var j := FirstFailure(viewResults);
        var made := FreshHandles(old(drv.last), j);
        var views := View(configuration.format, configuration.imageLayers);
        drv.last == old(drv.last) + j &&
        (j == |handles| ==> r == Ok(()) && imageViews == made &&
                            drv.log == old(drv.log) + Creations(views, handles, old(drv.last))) &&
        (j < |handles| ==> r == Err(VulkanException(viewResults[j])) && imageViews == old(imageViews) &&
                           drv.log == old(drv.log) + Creations(views, handles[..j], old(drv.last)) +
                                      [CreateCall(views, handles[j], NULL)])
      ensures drv.fences == old(drv.fences)
    {
      if imagesResult != VkResults.Success {
        return Err(VulkanException(imagesResult));
      }
      images := handles;
      var c := View(configuration.format, configuration.imageLayers);
      ghost var base := drv.last;
      var made: seq<Handle> := [];
      var i := 0;
      while i < |handles|
        invariant 0 <= i <= |handles| && i <= FirstFailure(viewResults)
        invariant made == FreshHandles(base, i) && drv.last == base + i
        invariant drv.log == old(drv.log) + Creations(c, handles[..i], base)
        invariant drv.fences == old(drv.fences)
        invariant images == handles && imageViews == old(imageViews)
      {
        if viewResults[i] != VkResults.Success {
          drv.Record(CreateCall(c, handles[i], NULL));
          return Err(VulkanException(viewResults[i]));
        }
        var view := drv.Fresh();
        assert handles[..i + 1][..i] == handles[..i];
        drv.Record(CreateCall(c, handles[i], view));
        made := made + [view];
        i := i + 1;
      }
      assert handles[..i] == handles;
      imageViews := made;
      return Ok(());
    }

    /**
     * `create_framebuffers`: the framebuffer list resized to the number of
     * images, then one framebuffer per image over that image's view, sized to
     * the configured extent and layers, answering `results`. A failure throws,
     * leaving the framebuffers made before it in place.
     */
    method CreateFramebuffers(drv: Driver, results: seq<VkResults.VkResult>) returns (r: Result<()>)
      requires |imageViews| == |images| && |results| == |images|
      modifies this`framebuffers, drv
      ensures
        var n := |images|;
        var j := FirstFailure(results);
        var c := Framebuffer(renderPass, configuration.extent.width, configuration.extent.height,
                             configuration.imageLayers);
        drv.last == old(drv.last) + j && |framebuffers| == n &&
        (forall k :: 0 <= k < j ==> framebuffers[k] == old(drv.last) + k + 1) &&
        (forall k :: j <= k < n ==> framebuffers[k] == Resize(old(framebuffers), n)[k]) &&
        (j == n ==> r == Ok(()) && drv.log == old(drv.log) + Creations(c, imageViews, old(drv.last))) &&
        (j < n ==> r == Err(VulkanException(results[j])) &&
                   drv.log == old(drv.log) + Creations(c, imageViews[..j], old(drv.last)) +
                              [CreateCall(c, imageViews[j], NULL)])
      ensures drv.fences == old(drv.fences)
    {
      var c := Framebuffer(renderPass, configuration.extent.width, configuration.extent.height,
                           configuration.imageLayers);
      ghost var base := drv.last;
      var resized := Resize(framebuffers, |images|);
      framebuffers := resized;
      var i := 0;
      while i < |framebuffers|
        invariant 0 <= i <= |images| == |framebuffers| && i <= FirstFailure(results)
        invariant forall k :: 0 <= k < i ==> framebuffers[k] == base + k + 1
        invariant forall k :: i <= k < |images| ==> framebuffers[k] == resized[k]
        invariant drv.last == base + i && drv.fences == old(drv.fences)
        invariant drv.log == old(drv.log) + Creations(c, imageViews[..i], base)
      {
        if results[i] != VkResults.Success {
          drv.Record(CreateCall(c, imageViews[i], NULL));
          return Err(VulkanException(results[i]));
        }
        var fb := drv.Fresh();
        assert imageViews[..i + 1][..i] == imageViews[..i];
        drv.Record(CreateCall(c, imageViews[i], fb));
        framebuffers := framebuffers[i := fb];
        i := i + 1;
      }
      assert imageViews[..i] == imageViews;
      return Ok(());
    }

    /** `allocate_command_buffers`: `IN_FLIGHT` primary command buffers from the pool, or a throw. */
    method AllocateCommandBuffers(drv: Driver, result: VkResults.VkResult) returns (r: Result<()>)
      modifies this`commandBuffers, drv
      ensures r.Ok? <==> result == VkResults.Success
      ensures r.Err? ==> r == Err(VulkanException(result)) && commandBuffers == old(commandBuffers) &&
                         drv.log == old(drv.log) && drv.last == old(drv.last)
      ensures r.Ok? ==> |commandBuffers| == IN_FLIGHT && commandBuffers[0] == old(drv.last) + 1 &&
                        drv.last == old(drv.last) + 1 &&
                        drv.log == old(drv.log) + [AllocateCommandBuffer(commandPool, commandBuffers[0])]
      ensures drv.fences == old(drv.fences)
    {
      if result != VkResults.Success {
        return Err(VulkanException(result));
      }
      var cb := drv.Fresh();
      drv.Record(AllocateCommandBuffer(commandPool, cb));
      commandBuffers := [cb];
      return Ok(());
    }

    /**
     * `render_frame`: wait for the fence, reset it, acquire an image, reset
     * and record command buffer 0, submit, present; the first step that does
     * not succeed throws its result. There is no recreation path.
     */
    method RenderFrame(drv: Driver, rs: FrameResults, imageIndex: nat) returns (r: Result<()>)
      requires |commandBuffers| >= 1
      modifies drv
      ensures r == FrameOutcome(rs)
      ensures drv.log == old(drv.log) + FrameCalls(Handles(), rs, imageIndex) && drv.last == old(drv.last)
      ensures rs.wait != VkResults.Success ==> drv.fences == old(drv.fences)
      ensures rs.wait == VkResults.Success && rs.reset != VkResults.Success ==>
        drv.fences == old(drv.fences)[sync.inFlight := true]
      ensures rs.wait == VkResults.Success && rs.reset == VkResults.Success ==>
        drv.fences == old(drv.fences)[sync.inFlight := false]
    {
      r := FrameSteps(drv, Handles(), rs, imageIndex);
    }

    /**
     * `clean_pipeline` as written: once the device is idle, every framebuffer,
     * the pipeline if non-null and every image view are destroyed, and the
     * framebuffer, view and image lists are emptied; the pipeline handle is
     * left as it was. A failed idle wait throws before anything is destroyed.
     */
    method CleanPipelineAsWritten(drv: Driver, waitResult: VkResults.VkResult) returns (r: Result<()>)
      modifies this`framebuffers, this`imageViews, this`images, drv
      ensures r.Ok? <==> waitResult == VkResults.Success
      ensures r.Err? ==>
        r == Err(VulkanException(waitResult)) && drv.log == old(drv.log) + [WaitIdle] &&
        framebuffers == old(framebuffers) && imageViews == old(imageViews) && images == old(images)
      ensures r.Ok? ==>
        drv.log == old(drv.log) + [WaitIdle] + CleanCalls(old(framebuffers), pipeline, old(imageViews)) &&
        framebuffers == [] && imageViews == [] && images == []
      ensures drv.last == old(drv.last) && drv.fences == old(drv.fences)
    {
      drv.Record(WaitIdle);
      if waitResult != VkResults.Success {
        return Err(VulkanException(waitResult));
      }
      DestroyEach(drv, Framebuffers, framebuffers);
      framebuffers := [];
      if pipeline != NULL {
        drv.Record(DestroyPipeline(pipeline));
      }
      DestroyEach(drv, Views, imageViews);
      imageViews := [];
      images := [];
      return Ok(());
    }

    /** `clean_pipeline` with the destroyed pipeline's handle nulled, as `GpuSync::destroy` does for its handles. */
    method CleanPipeline(drv: Driver, waitResult: VkResults.VkResult) returns (r: Result<()>)
      modifies this`framebuffers, this`imageViews, this`images, this`pipeline, drv
      ensures r.Ok? <==> waitResult == VkResults.Success
      ensures r.Err? ==>
        r == Err(VulkanException(waitResult)) && drv.log == old(drv.log) + [WaitIdle] &&
        framebuffers == old(framebuffers) && imageViews == old(imageViews) && images == old(images) &&
        pipeline == old(pipeline)
      ensures r.Ok? ==>
        drv.log == old(drv.log) + [WaitIdle] + CleanCalls(old(framebuffers), old(pipeline), old(imageViews)) &&
        framebuffers == [] && imageViews == [] && images == [] && pipeline == NULL
      ensures drv.last == old(drv.last) && drv.fences == old(drv.fences)
    {
      r := CleanPipelineAsWritten(drv, waitResult);
      if r.Ok? {
        pipeline := NULL;
      }
    }
  }

  /** The steps of `render_frame` on the handles `h`. */
  method FrameSteps(drv: Driver, h: FrameHandles, rs: FrameResults, imageIndex: nat) returns (r: Result<()>)
    modifies drv
    ensures r == FrameOutcome(rs)
    ensures drv.log == old(drv.log) + FrameCalls(h, rs, imageIndex) && drv.last == old(drv.last)
    ensures rs.wait != VkResults.Success ==> drv.fences == old(drv.fences)
    ensures rs.wait == VkResults.Success && rs.reset != VkResults.Success ==>
      drv.fences == old(drv.fences)[h.inFlight := true]
    ensures rs.wait == VkResults.Success && rs.reset == VkResults.Success ==>
      drv.fences == old(drv.fences)[h.inFlight := false]
  {
    var acquired := AcquireSteps(drv, h, rs, imageIndex);
    if !acquired {
      return FrameOutcome(rs);
    }
    r := SubmitSteps(drv, h, rs, imageIndex, old(drv.log));
  }

  /** The first three steps of a frame: wait for the fence, reset it, acquire an image. */
  method AcquireSteps(drv: Driver, h: FrameHandles, rs: FrameResults, imageIndex: nat) returns (acquired: bool)
    modifies drv
    ensures acquired <==>
      rs.wait == VkResults.Success && rs.reset == VkResults.Success && rs.acquire == VkResults.Success
    ensures !acquired ==> drv.log == old(drv.log) + FrameCalls(h, rs, imageIndex)
    ensures acquired ==> drv.log == old(drv.log) + StepsCalls(h, imageIndex, 3)
    ensures drv.last == old(drv.last)
    ensures rs.wait != VkResults.Success ==> drv.fences == old(drv.fences)
    ensures rs.wait == VkResults.Success && rs.reset != VkResults.Success ==>
      drv.fences == old(drv.fences)[h.inFlight := true]
    ensures rs.wait == VkResults.Success && rs.reset == VkResults.Success ==>
      drv.fences == old(drv.fences)[h.inFlight := false]
  {
    AttemptedSteps(rs);
    StepsCallsValues(h, imageIndex);
    drv.Wait(h.inFlight, rs.wait);
    if rs.wait != VkResults.Success {
      return false;
    }
    if rs.reset != VkResults.Success {
      drv.Record(ResetFence(h.inFlight));
      return false;
    }
    drv.Reset(h.inFlight);
    drv.Record(AcquireNextImage(h.swapchain, h.imageAvailable));
    return rs.acquire == VkResults.Success;
  }

  /** The last three steps of a frame, once an image is acquired: record, submit, present. */
  method SubmitSteps(drv: Driver, h: FrameHandles, rs: FrameResults, imageIndex: nat, ghost prior: seq<Call>)
    returns (r: Result<()>)
    requires rs.wait == VkResults.Success && rs.reset == VkResults.Success && rs.acquire == VkResults.Success
    requires drv.log == prior + StepsCalls(h, imageIndex, 3)
    requires h.inFlight in drv.fences && !drv.fences[h.inFlight]
    modifies drv
    ensures r == FrameOutcome(rs)
    ensures drv.log == prior + FrameCalls(h, rs, imageIndex)
    ensures drv.last == old(drv.last) && drv.fences == old(drv.fences)
  {
    AttemptedSteps(rs);
    StepsCallsValues(h, imageIndex);
    OutcomeSteps(rs);
    drv.Record(ResetCommandBuffer(h.commandBuffer));
    drv.Record(RecordCommandBuffer(h.commandBuffer, imageIndex));
    if rs.record != VkResults.Success {
      return Err(VulkanException(rs.record));
    }
    var submit := Submit(h.commandBuffer, h.imageAvailable, h.renderFinished, h.inFlight);
    if rs.submit != VkResults.Success {
      drv.Record(submit);
      return Err(VulkanException(rs.submit));
    }
    drv.SubmitWork(submit, h.inFlight);
    assert drv.fences == old(drv.fences);
    drv.Record(Present(h.swapchain, h.renderFinished, imageIndex));
    if rs.present != VkResults.Success {
      return Err(VulkanException(rs.present));
    }
    return Ok(());
  }

  /** One destroy call per handle, in order. */
  method DestroyEach(drv: Driver, kind: Kind, hs: seq<Handle>)
    modifies drv
    ensures drv.log == old(drv.log) + Destructions(kind, hs)
    ensures drv.last == old(drv.last) && drv.fences == old(drv.fences)
  {
    for i := 0 to |hs|
      invariant drv.log == old(drv.log) + Destructions(kind, hs[..i])
      invariant drv.last == old(drv.last) && drv.fences == old(drv.fences)
    {
      assert hs[..i + 1][..i] == hs[..i];
      drv.Record(DestroyCall(kind, hs[i]));
    }
    assert hs[..|hs|] == hs;
  }
}
