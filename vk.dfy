/**
 * The Vulkan driver as the engine sees it: every call the core makes is
 * appended to a log, every object it creates gets a fresh non-null handle,
 * and each fence has a signaled flag. What the driver answers (a result code,
 * the swapchain's images) is passed to the core's methods as an input.
 */
module Vk {
  import opened Common
  import opened Selection
  import VkResults

  /** The create info of `createSwapchainKHR`, with the handle of the swapchain it replaces. */
  datatype SwapchainInfo = SwapchainInfo(surface: Handle, config: SwapchainConfiguration, sharing: Sharing,
                                         oldSwapchain: Handle)

  datatype Call =
    | WaitIdle
    /** The backend's `recreate_swapchain()` on the swapchain it held, whose calls the swapchain manager makes. */
    | SwapchainRecreation(swapchain: Handle)
    | CreateSwapchain(info: SwapchainInfo, swapchain: Handle)
    | DestroySwapchain(device: Handle, swapchain: Handle)
    | CreateRenderPass(format: nat, renderPass: Handle)
    | DestroyRenderPass(renderPass: Handle)
    | CreateImageView(image: Handle, format: nat, layers: nat, view: Handle)
    | DestroyImageView(view: Handle)
    | CreateFramebuffer(renderPass: Handle, view: Handle, width: nat, height: nat, layers: nat, framebuffer: Handle)
    | DestroyFramebuffer(framebuffer: Handle)
    | CreateSemaphore(semaphore: Handle)
    | DestroySemaphore(semaphore: Handle)
    | CreateFence(signaled: bool, fence: Handle)
    | DestroyFence(fence: Handle)
    | WaitForFence(fence: Handle)
    | ResetFence(fence: Handle)
    | AcquireNextImage(swapchain: Handle, semaphore: Handle)
    | ResetCommandBuffer(commandBuffer: Handle)
    | RecordCommandBuffer(commandBuffer: Handle, imageIndex: nat)
    | EndCommandBuffer(commandBuffer: Handle)
    | Submit(commandBuffer: Handle, waitSemaphore: Handle, signalSemaphore: Handle, fence: Handle)
    | Present(swapchain: Handle, waitSemaphore: Handle, imageIndex: nat)
    | CopyBuffer(commandBuffer: Handle, src: Handle, dst: Handle, srcOffset: nat, dstOffset: nat, size: nat)
    | SubmitTransfer(commandBuffer: Handle, fence: Handle)
    | FlushAllocation(allocation: Handle, offset: nat, size: nat)
    | FreeCommandBuffer(pool: Handle, commandBuffer: Handle)
    | CreateBuffer(allocator: Handle, bufferInfo: BufferInfo, request: AllocationRequest, buffer: Handle,
                   allocation: Handle)
    | DestroyBuffer(allocator: Handle, buffer: Handle, allocation: Handle)
    | CreateImage(allocator: Handle, imageInfo: ImageCreateInfo, image: Handle, allocation: Handle)
    | CreateTypedImageView(image: Handle, viewType: ImageViewType, format: nat, range: SubresourceRange, view: Handle)
    | DestroyImage(image: Handle, allocation: Handle)
    | DestroyPipeline(pipeline: Handle)
    | DestroyCommandPool(pool: Handle)
    | DestroyDevice(device: Handle)
    | CreateAllocator(device: Handle, allocator: Handle)
    | DestroyAllocator(allocator: Handle)
    | PipelineBarrier(commandBuffer: Handle, image: Handle, barrier: Barrier)
    | CreateDevice(physicalDevice: Handle, queues: seq<QueueCreateInfo>, device: Handle)
    | GetQueue(device: Handle, family: nat, queue: Handle)
    | CreateCommandPool(device: Handle, family: nat, pool: Handle)
    | AllocateCommandBuffer(pool: Handle, commandBuffer: Handle)
    | BeginCommandBuffer(commandBuffer: Handle)
    | SubmitOnce(queue: Handle, commandBuffer: Handle)
    | QueueWaitIdle(queue: Handle)
    | CreateInstance(extensionNames: seq<string>, layerNames: seq<string>, instance: Handle)
    | CreateDebugMessenger(instance: Handle, messenger: Handle)
    | DestroyDebugMessenger(instance: Handle, messenger: Handle)
    | DestroyInstance(instance: Handle)

  /**
   * What `vmaCreateBuffer` is handed as the buffer create info: a proper
   * `BufferCreateInfo` of a size and usage, or the bytes stored at a buffer
   * handle's address reinterpreted as one.
   */
  datatype BufferInfo = BufferInfo(size: nat, usage: nat) | BufferFieldBytes(handle: Handle)

  /** How the mapped memory will be written from the host, if at all. */
  datatype HostAccess = NoHostAccess | SequentialWrite | RandomAccess

  /** The `VmaAllocationCreateInfo` of a buffer: host access, persistent mapping, and a preference for coherent memory. */
  datatype AllocationRequest = AllocationRequest(hostAccess: HostAccess, mapped: bool, preferCoherent: bool)

  datatype ImageType = Image1D | Image2D | Image3D
  datatype ImageViewType = View1D | View2D | View3D

  /** The part of an `ImageSubresourceRange` that is handed on: aspect, mip levels and array layers. */
  datatype SubresourceRange = SubresourceRange(aspectMask: nat, baseMipLevel: nat, levelCount: nat,
                                               baseArrayLayer: nat, layerCount: nat)

  /** The fields of an `ImageCreateInfo` the engine fills from its own description of the image. */
  datatype ImageCreateInfo = ImageCreateInfo(imageType: ImageType, format: nat, width: nat, height: nat, depth: nat,
                                             mipLevels: nat, arrayLayers: nat, initialLayout: nat)

  /** One `DeviceQueueCreateInfo`: a queue family and how many queues to make from it. */
  datatype QueueCreateInfo = QueueCreateInfo(family: nat, count: nat)

  /** The access masks and stage masks of an image layout transition. */
  datatype Barrier = Barrier(oldLayout: nat, newLayout: nat, srcAccess: nat, dstAccess: nat,
                             srcStage: nat, dstStage: nat)

  /**
   * The engine calls Vulkan through the C++ bindings built with exceptions
   * (`end_draw` catches `vk::OutOfDateKHRError`): a call hands back only the
   * results it declares as success codes and throws `vk::SystemError` for
   * any other. These are the results `waitForFences` and
   * `acquireNextImageKHR` hand back.
   */
  const WAIT_RETURNS: set<VkResults.VkResult> := {VkResults.Success, VkResults.Timeout}
  const ACQUIRE_RETURNS: set<VkResults.VkResult> :=
    {VkResults.Success, VkResults.Timeout, VkResults.NotReady, VkResults.SuboptimalKHR}

  /**
   * The exception a call ends in when it answers `r` other than success:
   * a result the call hands back reaches the engine's own check, which
   * throws `VulkanException`; any other is thrown by the bindings.
   */
  function Failure(r: VkResults.VkResult, returned: set<VkResults.VkResult>): (e: Error)
    ensures r in returned ==> e == VulkanException(r)
    ensures r !in returned ==> e == VulkanHppError(r)
  {
    if r in returned then VulkanException(r) else VulkanHppError(r)
  }

  class Driver {
    /** Every call made so far, oldest first. */
    var log: seq<Call>
    /** The last handle given out; every new object gets a larger one. */
    var last: Handle
    /** Whether each fence created so far is signaled. */
    var fences: map<Handle, bool>

    constructor()
      ensures log == [] && last == NULL && fences == map[]
    {
      log, last, fences := [], NULL, map[];
    }

    /** A handle no object has had before. */
    method Fresh() returns (h: Handle)
      modifies this
      ensures h == old(last) + 1 && last == h
      ensures log == old(log) && fences == old(fences)
    {
      last := last + 1;
      h := last;
    }

    method Record(c: Call)
      modifies this
      ensures log == old(log) + [c]
      ensures last == old(last) && fences == old(fences)
    {
      log := log + [c];
    }

    /** `createFence`, with or without the signaled flag. */
    method NewFence(signaled: bool) returns (f: Handle)
      modifies this
      ensures f == old(last) + 1 && last == f
      ensures log == old(log) + [CreateFence(signaled, f)]
      ensures fences == old(fences)[f := signaled]
    {
      f := Fresh();
      log := log + [CreateFence(signaled, f)];
      fences := fences[f := signaled];
    }

    /** `resetFences`: the fence is unsignaled. */
    method Reset(f: Handle)
      modifies this
      ensures log == old(log) + [ResetFence(f)]
      ensures last == old(last) && fences == old(fences)[f := false]
    {
      log := log + [ResetFence(f)];
      fences := fences[f := false];
    }

    /**
     * `waitForFences` with an infinite timeout. A successful wait means the
     * work the fence guards has finished, so the fence is signaled.
     */
    method Wait(f: Handle, result: VkResults.VkResult)
      modifies this
      ensures log == old(log) + [WaitForFence(f)] && last == old(last)
      ensures result == VkResults.Success ==> fences == old(fences)[f := true]
      ensures result != VkResults.Success ==> fences == old(fences)
    {
      log := log + [WaitForFence(f)];
      if result == VkResults.Success {
        fences := fences[f := true];
      }
    }

    /** A queue submission that signals `f` when it completes: until then `f` is unsignaled. */
    method SubmitWork(c: Call, f: Handle)
      requires c.Submit? || c.SubmitTransfer?
      modifies this
      ensures log == old(log) + [c] && last == old(last)
      ensures fences == old(fences)[f := false]
    {
      log := log + [c];
      fences := fences[f := false];
    }

    /** `destroyFence`. */
    method DropFence(f: Handle)
      modifies this
      ensures log == old(log) + [DestroyFence(f)] && last == old(last)
      ensures fences == old(fences) - {f}
    {
      log := log + [DestroyFence(f)];
      fences := fences - {f};
    }
  }
}
