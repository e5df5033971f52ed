/**
 * `GpuSync`: the two semaphores and the fence that pace one frame in flight.
 * Both the engine backend and the older render manager declare it; the
 * render revision checks every creation result, the engine's leaves that to
 * the C++ bindings.
 */
module Sync {
  import opened Common
  import opened Vk
  import VkResults

  /** The destroy calls for the handles of a `GpuSync`, each skipped when null. */
  function SyncTeardown(imageAvailable: Handle, renderFinished: Handle, inFlight: Handle): seq<Call>
  {
    (if imageAvailable != NULL then [DestroySemaphore(imageAvailable)] else []) +
    (if renderFinished != NULL then [DestroySemaphore(renderFinished)] else []) +
    (if inFlight != NULL then [DestroyFence(inFlight)] else [])
  }

  /** Tearing down a `GpuSync` with every handle null calls nothing. */
  lemma NullTeardownIsEmpty()
    ensures SyncTeardown(NULL, NULL, NULL) == []
  {
  }

  class GpuSync {
    var imageAvailable: Handle
    var renderFinished: Handle
    var inFlight: Handle

    /** Every handle starts null. */
    constructor ()
      ensures imageAvailable == NULL && renderFinished == NULL && inFlight == NULL
    {
      imageAvailable, renderFinished, inFlight := NULL, NULL, NULL;
    }

    /**
     * `init` (engine revision): two semaphores, then a fence created already
     * signaled, so that the first wait on it passes.
     */
    method Init(drv: Driver)
      modifies this, drv
      ensures imageAvailable == old(drv.last) + 1 && renderFinished == old(drv.last) + 2 &&
              inFlight == old(drv.last) + 3 && drv.last == inFlight
      ensures drv.log == old(drv.log) + [CreateSemaphore(imageAvailable), CreateSemaphore(renderFinished),
                                         CreateFence(true, inFlight)]
      ensures drv.fences == old(drv.fences)[inFlight := true]
    {
      imageAvailable := drv.Fresh();
      drv.Record(CreateSemaphore(imageAvailable));
      renderFinished := drv.Fresh();
      drv.Record(CreateSemaphore(renderFinished));
      inFlight := drv.NewFence(true);
    }

    /**
     * `init` (render revision): the same three creations, answering `r1`,
     * `r2` and `r3`; the first failure throws `VulkanException` with its
     * result, leaving the handles made before it in place. A failed creation
     * is logged with a null handle.
     */
    method InitChecked(drv: Driver, r1: VkResults.VkResult, r2: VkResults.VkResult, r3: VkResults.VkResult)
      returns (r: Result<()>)
      modifies this, drv
      ensures r1 != VkResults.Success ==>
        r == Err(VulkanException(r1)) && drv.log == old(drv.log) + [CreateSemaphore(NULL)] &&
        imageAvailable == old(imageAvailable) && renderFinished == old(renderFinished) && inFlight == old(inFlight)
      ensures r1 == VkResults.Success && r2 != VkResults.Success ==>
        r == Err(VulkanException(r2)) && imageAvailable == old(drv.last) + 1 &&
        drv.log == old(drv.log) + [CreateSemaphore(imageAvailable), CreateSemaphore(NULL)] &&
        renderFinished == old(renderFinished) && inFlight == old(inFlight)
      ensures r1 == VkResults.Success && r2 == VkResults.Success && r3 != VkResults.Success ==>
        r == Err(VulkanException(r3)) && imageAvailable == old(drv.last) + 1 && renderFinished == old(drv.last) + 2 &&
        drv.log == old(drv.log) + [CreateSemaphore(imageAvailable), CreateSemaphore(renderFinished),
                                   CreateFence(true, NULL)] &&
        inFlight == old(inFlight)
      ensures r1 == VkResults.Success && r2 == VkResults.Success && r3 == VkResults.Success ==>
        r == Ok(()) && imageAvailable == old(drv.last) + 1 && renderFinished == old(drv.last) + 2 &&
        inFlight == old(drv.last) + 3 &&
        drv.log == old(drv.log) + [CreateSemaphore(imageAvailable), CreateSemaphore(renderFinished),
                                   CreateFence(true, inFlight)]
      ensures drv.fences == if r.Ok? then old(drv.fences)[inFlight := true] else old(drv.fences)
    {
      if r1 != VkResults.Success {
        drv.Record(CreateSemaphore(NULL));
        return Err(VulkanException(r1));
      }
      imageAvailable := drv.Fresh();
      drv.Record(CreateSemaphore(imageAvailable));
      if r2 != VkResults.Success {
        drv.Record(CreateSemaphore(NULL));
        return Err(VulkanException(r2));
      }
      renderFinished := drv.Fresh();
      drv.Record(CreateSemaphore(renderFinished));
      if r3 != VkResults.Success {
        drv.Record(CreateFence(true, NULL));
        return Err(VulkanException(r3));
      }
      inFlight := drv.NewFence(true);
      return Ok(());
    }

    /** `destroy`: each non-null handle is destroyed, then all three are null. */
    method Destroy(drv: Driver)
      modifies this, drv
      ensures imageAvailable == NULL && renderFinished == NULL && inFlight == NULL
      ensures drv.log == old(drv.log) + SyncTeardown(old(imageAvailable), old(renderFinished), old(inFlight))
      ensures drv.last == old(drv.last)
      ensures drv.fences == if old(inFlight) != NULL then old(drv.fences) - {old(inFlight)} else old(drv.fences)
    {
      if imageAvailable != NULL {
        drv.Record(DestroySemaphore(imageAvailable));
      }
      if renderFinished != NULL {
        drv.Record(DestroySemaphore(renderFinished));
      }
      if inFlight != NULL {
        drv.DropFence(inFlight);
      }
      imageAvailable, renderFinished, inFlight := NULL, NULL, NULL;
    }
  }

  /** Destroying a `GpuSync` twice destroys each handle once: the second call finds only nulls. */
  method DestroyTwice(drv: Driver, s: GpuSync)
    modifies drv, s
    ensures drv.log == old(drv.log) + SyncTeardown(old(s.imageAvailable), old(s.renderFinished), old(s.inFlight))
  {
    s.Destroy(drv);
    s.Destroy(drv);
    NullTeardownIsEmpty();
  }
}
