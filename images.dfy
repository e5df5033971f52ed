/**
 * `ImageAllocation` (engine revision): a VMA image with its view, owned
 * through the shared `VulkanAllocator`, and the pipeline barrier it records
 * to move the image between layouts. Layouts, access masks and pipeline
 * stages are their Vulkan enumerant values.
 */
module Images {
  import opened Wrappers
  import opened Bytes
  import opened Common
  import opened Selection
  import opened Vk
  import VkResults
  import opened Devices

  const LAYOUT_UNDEFINED: nat := 0
  const LAYOUT_SHADER_READ_ONLY_OPTIMAL: nat := 5
  const LAYOUT_TRANSFER_DST_OPTIMAL: nat := 7

  const ACCESS_NONE: nat := 0
  const ACCESS_SHADER_READ: nat := 0x20
  const ACCESS_TRANSFER_WRITE: nat := 0x1000

  const STAGE_NONE: nat := 0
  const STAGE_TOP_OF_PIPE: nat := 0x1
  const STAGE_FRAGMENT_SHADER: nat := 0x80
  const STAGE_TRANSFER: nat := 0x1000

  /** The transition that prepares an image to receive a copy. */
  predicate IsUploadStart(oldLayout: nat, newLayout: nat)
  {
    oldLayout == LAYOUT_UNDEFINED && newLayout == LAYOUT_TRANSFER_DST_OPTIMAL
  }

  /** The transition that makes a copied image readable by fragment shaders. */
  predicate IsUploadFinish(oldLayout: nat, newLayout: nat)
  {
    oldLayout == LAYOUT_TRANSFER_DST_OPTIMAL && newLayout == LAYOUT_SHADER_READ_ONLY_OPTIMAL
  }

  /**
   * The barrier `transition_layout` records: two known transitions with
   * their access masks and stages; every other pair of layouts gets empty
   * masks and empty stages.
   */
  function TransitionBarrier(oldLayout: nat, newLayout: nat): (b: Barrier)
    ensures b.oldLayout == oldLayout && b.newLayout == newLayout
    ensures IsUploadStart(oldLayout, newLayout) ==>
      b.srcAccess == ACCESS_NONE && b.dstAccess == ACCESS_TRANSFER_WRITE &&
      b.srcStage == STAGE_TOP_OF_PIPE && b.dstStage == STAGE_TRANSFER
    ensures IsUploadFinish(oldLayout, newLayout) ==>
      b.srcAccess == ACCESS_TRANSFER_WRITE && b.dstAccess == ACCESS_SHADER_READ &&
      b.srcStage == STAGE_TRANSFER && b.dstStage == STAGE_FRAGMENT_SHADER
    ensures !IsUploadStart(oldLayout, newLayout) && !IsUploadFinish(oldLayout, newLayout) ==>
      b.srcAccess == ACCESS_NONE && b.dstAccess == ACCESS_NONE && b.srcStage == STAGE_NONE && b.dstStage == STAGE_NONE
  {
    if IsUploadStart(oldLayout, newLayout) then
      Barrier(oldLayout, newLayout, ACCESS_NONE, ACCESS_TRANSFER_WRITE, STAGE_TOP_OF_PIPE, STAGE_TRANSFER)
    else if IsUploadFinish(oldLayout, newLayout) then
      Barrier(oldLayout, newLayout, ACCESS_TRANSFER_WRITE, ACCESS_SHADER_READ, STAGE_TRANSFER, STAGE_FRAGMENT_SHADER)
    else
      Barrier(oldLayout, newLayout, ACCESS_NONE, ACCESS_NONE, STAGE_NONE, STAGE_NONE)
  }

  /**
   * The two known barriers chain: the second waits on exactly the access and
   * stage the first makes available, and only the known pairs synchronise
   * anything.
   */
  lemma UploadBarriersChain(oldLayout: nat, newLayout: nat)
    ensures TransitionBarrier(LAYOUT_UNDEFINED, LAYOUT_TRANSFER_DST_OPTIMAL).dstAccess ==
            TransitionBarrier(LAYOUT_TRANSFER_DST_OPTIMAL, LAYOUT_SHADER_READ_ONLY_OPTIMAL).srcAccess
    ensures TransitionBarrier(LAYOUT_UNDEFINED, LAYOUT_TRANSFER_DST_OPTIMAL).dstStage ==
            TransitionBarrier(LAYOUT_TRANSFER_DST_OPTIMAL, LAYOUT_SHADER_READ_ONLY_OPTIMAL).srcStage
    ensures TransitionBarrier(oldLayout, newLayout).dstStage != STAGE_NONE <==>
            IsUploadStart(oldLayout, newLayout) || IsUploadFinish(oldLayout, newLayout)
  {
  }

  /** How many dimensions an image or view type has. */
  function ImageDimensions(t: ImageType): nat
  {
    match t
    case Image1D => 1
    case Image2D => 2
    case Image3D => 3
  }

  function ViewDimensions(v: ImageViewType): nat
  {
    match v
    case View1D => 1
    case View2D => 2
    case View3D => 3
  }

  /** The view type the constructor picks: the one with as many dimensions as the image. */
  function ViewTypeOf(t: ImageType): (v: ImageViewType)
    ensures ViewDimensions(v) == ImageDimensions(t)
  {
    match t
    case Image1D => View1D
    case Image2D => View2D
    case Image3D => View3D
  }

  /** `ImageAllocationInfo`: the description the constructor is given. */
  datatype ImageAllocationInfo = ImageAllocationInfo(imageType: ImageType, width: u32, height: u32, depth: u32,
                                                     format: nat, initialLayout: nat, mipLevels: nat,
                                                     arrayLayers: nat, viewRange: SubresourceRange)

  /** The image create info built from `info`. */
  function CreateInfoOf(info: ImageAllocationInfo): ImageCreateInfo
  {
    ImageCreateInfo(info.imageType, info.format, info.width, info.height, info.depth, info.mipLevels,
                    info.arrayLayers, info.initialLayout)
  }

  const NO_RANGE := SubresourceRange(0, 0, 0, 0, 0)

  /** The calls of one single-time command recording `barrier` on `image`, the command buffer being `b`. */
  function TransitionCalls(pool: Handle, queue: Handle, b: Handle, image: Handle, barrier: Barrier): seq<Call>
  {
    [AllocateCommandBuffer(pool, b), BeginCommandBuffer(b), PipelineBarrier(b, image, barrier),
     EndCommandBuffer(b), SubmitOnce(queue, b), QueueWaitIdle(queue), FreeCommandBuffer(pool, b)]
  }

  /** A single-time command from `m` that records `barrier` on `image`, submitted and then destroyed. */
  method RecordTransition(drv: Driver, m: DeviceManager, image: Handle, barrier: Barrier)
    modifies drv
    ensures drv.log == old(drv.log) + TransitionCalls(m.commandPool, m.graphicsQueue.handle, old(drv.last) + 1,
                                                      image, barrier)
    ensures drv.last == old(drv.last) + 1 && drv.fences == old(drv.fences)
  {
    var cmd := m.SingleTimeCommand(drv);
    drv.Record(PipelineBarrier(cmd.buffer, image, barrier));
    cmd.Submit(drv);
    cmd.Dispose(drv);
  }

  class ImageAllocation {
    /** The shared `VulkanAllocator`, through which the device manager is reached. */
    var allocator: Option<VulkanAllocator>
    var allocation: Handle
    var image: Handle
    var view: Handle
    var extent: Extent
    var format: nat
    var layout: nat
    var range: SubresourceRange

    /** The default constructor: the handles it does not name, such as the view, default-construct to null. */
    constructor ()
      ensures allocator == None && allocation == NULL && image == NULL && view == NULL
      ensures extent == Extent(0, 0) && format == 0 && layout == LAYOUT_UNDEFINED && range == NO_RANGE
    {
      allocator, allocation, image, view := None, NULL, NULL, NULL;
      extent, format, layout, range := Extent(0, 0), 0, LAYOUT_UNDEFINED, NO_RANGE;
    }

    /** The constructor's initialiser list: the description copied in, no image or view yet. */
    constructor FromInfo(a: VulkanAllocator, info: ImageAllocationInfo)
      ensures allocator == Some(a) && allocation == NULL && image == NULL && view == NULL
      ensures extent == Extent(info.width, info.height) && format == info.format &&
              layout == info.initialLayout && range == info.viewRange
    {
      allocator, allocation, image, view := Some(a), NULL, NULL, NULL;
      extent, format, layout, range := Extent(info.width, info.height), info.format, info.initialLayout, info.viewRange;
    }

    /**
     * The move constructor: takes over the allocation, image, view and extent
     * and clears them in `other`, which keeps its allocator.
     */
    constructor Moved(other: ImageAllocation)
      modifies other
      ensures allocator == old(other.allocator) && allocation == old(other.allocation) && image == old(other.image) &&
              view == old(other.view) && extent == old(other.extent)
      ensures format == 0 && layout == LAYOUT_UNDEFINED && range == NO_RANGE
      ensures other.allocator == old(other.allocator) && other.allocation == NULL && other.image == NULL &&
              other.view == NULL && other.extent == Extent(0, 0)
      ensures other.format == old(other.format) && other.layout == old(other.layout) && other.range == old(other.range)
    {
      allocator, allocation, image, view, extent := other.allocator, other.allocation, other.image, other.view,
                                                    other.extent;
      format, layout, range := 0, LAYOUT_UNDEFINED, NO_RANGE;
      new;
      other.allocation, other.image, other.view, other.extent := NULL, NULL, NULL, Extent(0, 0);
    }

    /** Move assignment: copies the allocator and swaps allocation, image, view and extent with `other`. */
    method MoveAssign(other: ImageAllocation)
      requires other != this
      modifies this, other
      ensures allocator == old(other.allocator) && other.allocator == old(other.allocator)
      ensures allocation == old(other.allocation) && other.allocation == old(allocation)
      ensures image == old(other.image) && other.image == old(image)
      ensures view == old(other.view) && other.view == old(view)
      ensures extent == old(other.extent) && other.extent == old(extent)
      ensures format == old(format) && layout == old(layout) && range == old(range)
      ensures other.format == old(other.format) && other.layout == old(other.layout) && other.range == old(other.range)
    {
      allocator := other.allocator;
      allocation, other.allocation := other.allocation, allocation;
      image, other.image := other.image, image;
      view, other.view := other.view, view;
      extent, other.extent := other.extent, extent;
    }

    /** The destructor: the view if there is one, then the image if it has an allocation; then all handles null. */
    method Drop(drv: Driver)
      modifies this, drv
      ensures drv.log == old(drv.log) + (if old(view) != NULL then [DestroyImageView(old(view))] else []) +
                                        (if old(allocation) != NULL then [DestroyImage(old(image), old(allocation))]
                                         else [])
      ensures drv.last == old(drv.last) && drv.fences == old(drv.fences)
      ensures allocator == None && allocation == NULL && image == NULL && view == NULL
      ensures extent == old(extent) && format == old(format) && layout == old(layout) && range == old(range)
    {
      if view != NULL {
        drv.Record(DestroyImageView(view));
      }
      if allocation != NULL {
        drv.Record(DestroyImage(image, allocation));
      }
      allocator, allocation, image, view := None, NULL, NULL, NULL;
    }

    /** `transition_layout` as written: it records the barrier but never stores `newLayout`. */
    method TransitionLayoutAsWritten(drv: Driver, newLayout: nat)
      requires allocator.Some?
      modifies drv
      ensures drv.log == old(drv.log) +
        TransitionCalls(allocator.value.deviceManager.commandPool, allocator.value.deviceManager.graphicsQueue.handle,
                        old(drv.last) + 1, image, TransitionBarrier(layout, newLayout))
      ensures drv.last == old(drv.last) + 1 && drv.fences == old(drv.fences)
    {
      RecordTransition(drv, allocator.value.deviceManager, image, TransitionBarrier(layout, newLayout));
    }

    /** `transition_layout` with the new layout stored, so the next transition starts from it. */
    method TransitionLayout(drv: Driver, newLayout: nat)
      requires allocator.Some?
      modifies drv, this`layout
      ensures drv.log == old(drv.log) +
        TransitionCalls(allocator.value.deviceManager.commandPool, allocator.value.deviceManager.graphicsQueue.handle,
                        old(drv.last) + 1, image, TransitionBarrier(old(layout), newLayout))
      ensures drv.last == old(drv.last) + 1 && drv.fences == old(drv.fences)
      ensures layout == newLayout
    {
      RecordTransition(drv, allocator.value.deviceManager, image, TransitionBarrier(layout, newLayout));
      layout := newLayout;
    }
  }

  /** The calls of the constructor when the last handle given out was `base`. */
  function ImageCalls(a: VulkanAllocator, info: ImageAllocationInfo, result: VkResults.VkResult, base: Handle): seq<Call>
  {
    if result != VkResults.Success then [CreateImage(a.handle, CreateInfoOf(info), NULL, NULL)]
    else [CreateImage(a.handle, CreateInfoOf(info), base + 1, base + 2),
          CreateTypedImageView(base + 1, ViewTypeOf(info.imageType), info.format, info.viewRange, base + 3)]
  }

  /**
   * The constructor: `vmaCreateImage` answering `result`, then a view of the
   * matching type, format and subresource range. A failed create throws
   * `VulkanException` before any view is made.
   */
  method NewImageAllocation(drv: Driver, a: VulkanAllocator, info: ImageAllocationInfo, result: VkResults.VkResult)
    returns (r: Result<ImageAllocation>)
    modifies drv
    ensures r.Ok? <==> result == VkResults.Success
    ensures r.Err? ==> r.error == VulkanException(result)
    ensures r.Ok? ==>
      fresh(r.value) && r.value.allocator == Some(a) && r.value.extent == Extent(info.width, info.height) &&
      r.value.format == info.format && r.value.layout == info.initialLayout && r.value.range == info.viewRange &&
      r.value.image == old(drv.last) + 1 && r.value.allocation == old(drv.last) + 2 &&
      r.value.view == old(drv.last) + 3
    ensures drv.log == old(drv.log) + ImageCalls(a, info, result, old(drv.last))
    ensures drv.fences == old(drv.fences)
  {
    var img := new ImageAllocation.FromInfo(a, info);
    if result != VkResults.Success {
      drv.Record(CreateImage(a.handle, CreateInfoOf(info), NULL, NULL));
      return Err(VulkanException(result));
    }
    img.image := drv.Fresh();
    img.allocation := drv.Fresh();
    drv.Record(CreateImage(a.handle, CreateInfoOf(info), img.image, img.allocation));
    img.view := drv.Fresh();
    drv.Record(CreateTypedImageView(img.image, ViewTypeOf(info.imageType), info.format, info.viewRange, img.view));
    return Ok(img);
  }

  /** Moving out of an image and destroying both objects destroys its view and image once each. */
  method MoveThenDropBoth(drv: Driver, src: ImageAllocation) returns (dst: ImageAllocation)
    requires src.view != NULL && src.allocation != NULL
    modifies drv, src
    ensures fresh(dst)
    ensures drv.log == old(drv.log) + [DestroyImageView(old(src.view)), DestroyImage(old(src.image), old(src.allocation))]
  {
    dst := new ImageAllocation.Moved(src);
    src.Drop(drv);
    dst.Drop(drv);
  }

  /** A default image owns nothing, so destroying it calls nothing. */
  method DropDefault(drv: Driver)
    modifies drv
    ensures drv.log == old(drv.log)
  {
    var img := new ImageAllocation();
    img.Drop(drv);
  }

  /**
   * As written, an upload (Undefined to TransferDstOptimal, then to
   * ShaderReadOnlyOptimal) records its second barrier from Undefined, which
   * synchronises nothing.
   */
  method UploadThenSampleAsWritten(drv: Driver, img: ImageAllocation)
    requires img.allocator.Some? && img.layout == LAYOUT_UNDEFINED
    modifies drv
    ensures var m := img.allocator.value.deviceManager;
            drv.log == old(drv.log) +
              TransitionCalls(m.commandPool, m.graphicsQueue.handle, old(drv.last) + 1, img.image,
                              TransitionBarrier(LAYOUT_UNDEFINED, LAYOUT_TRANSFER_DST_OPTIMAL)) +
              TransitionCalls(m.commandPool, m.graphicsQueue.handle, old(drv.last) + 2, img.image,
                              TransitionBarrier(LAYOUT_UNDEFINED, LAYOUT_SHADER_READ_ONLY_OPTIMAL))
    ensures TransitionBarrier(LAYOUT_UNDEFINED, LAYOUT_SHADER_READ_ONLY_OPTIMAL).srcStage == STAGE_NONE &&
            TransitionBarrier(LAYOUT_UNDEFINED, LAYOUT_SHADER_READ_ONLY_OPTIMAL).dstStage == STAGE_NONE
  {
    img.TransitionLayoutAsWritten(drv, LAYOUT_TRANSFER_DST_OPTIMAL);
    img.TransitionLayoutAsWritten(drv, LAYOUT_SHADER_READ_ONLY_OPTIMAL);
  }

  /**
   * With the layout stored, the same upload records the two chained
   * barriers and leaves the image in ShaderReadOnlyOptimal.
   */
  method UploadThenSample(drv: Driver, img: ImageAllocation)
    requires img.allocator.Some? && img.layout == LAYOUT_UNDEFINED
    modifies drv, img`layout
    ensures var m := img.allocator.value.deviceManager;
            drv.log == old(drv.log) +
              TransitionCalls(m.commandPool, m.graphicsQueue.handle, old(drv.last) + 1, img.image,
                              TransitionBarrier(LAYOUT_UNDEFINED, LAYOUT_TRANSFER_DST_OPTIMAL)) +
              TransitionCalls(m.commandPool, m.graphicsQueue.handle, old(drv.last) + 2, img.image,
                              TransitionBarrier(LAYOUT_TRANSFER_DST_OPTIMAL, LAYOUT_SHADER_READ_ONLY_OPTIMAL))
    ensures img.layout == LAYOUT_SHADER_READ_ONLY_OPTIMAL
  {
    img.TransitionLayout(drv, LAYOUT_TRANSFER_DST_OPTIMAL);
    img.TransitionLayout(drv, LAYOUT_SHADER_READ_ONLY_OPTIMAL);
  }
}
