/**
 * `SwapchainManager` (engine revision): the swapchain handle, its render
 * pass, and one image view and framebuffer per swapchain image. The manager
 * is valid exactly when it holds images.
 */
module Swapchain {
  import opened Wrappers
  import opened Bytes
  import opened Common
  import opened Selection
  import opened Vk

  /** What the manager reads through its shared device manager pointer. */
  datatype DeviceView = DeviceView(manager: Handle, device: Handle, graphicsFamily: u32, presentFamily: u32)

  /** One swapchain image with the view and framebuffer made for it. */
  datatype SwapchainImage = SwapchainImage(handle: Handle, view: Handle, framebuffer: Handle)

  /** The calls that tear down `images`: for each image, its framebuffer and then its view. */
  function TeardownCalls(images: seq<SwapchainImage>): seq<Call>
  {
    if images == [] then []
    else
      var img := images[|images| - 1];
      TeardownCalls(images[..|images| - 1]) + [DestroyFramebuffer(img.framebuffer), DestroyImageView(img.view)]
  }

  /**
   * The calls that build `images`: for each image, a 2D view of it in the
   * configured format and layer count, then a framebuffer on that view sized to
   * the configured extent.
   */
  function SetupCalls(images: seq<SwapchainImage>, config: SwapchainConfiguration, renderPass: Handle): seq<Call>
  {
    if images == [] then []
    else
      var img := images[|images| - 1];
      SetupCalls(images[..|images| - 1], config, renderPass) +
      [CreateImageView(img.handle, config.format, config.imageLayers, img.view),
       CreateFramebuffer(renderPass, img.view, config.extent.width, config.extent.height, config.imageLayers,
                         img.framebuffer)]
  }

  /** Image `k`'s teardown is calls `2k` and `2k + 1`: exactly one framebuffer and one view per image, in that order. */
  lemma {:induction false} TeardownShape(images: seq<SwapchainImage>)
    ensures |TeardownCalls(images)| == 2 * |images|
    ensures forall k :: 0 <= k < |images| ==>
      TeardownCalls(images)[2 * k] == DestroyFramebuffer(images[k].framebuffer) &&
      TeardownCalls(images)[2 * k + 1] == DestroyImageView(images[k].view)
  {
    if images != [] {
      var front := images[..|images| - 1];
      TeardownShape(front);
      forall k | 0 <= k < |front| ensures images[k] == front[k] { }
    }
  }

  /** Image `k`'s setup is calls `2k` and `2k + 1`: its view, then a framebuffer over that view. */
  lemma {:induction false} SetupShape(images: seq<SwapchainImage>, config: SwapchainConfiguration, renderPass: Handle)
    ensures |SetupCalls(images, config, renderPass)| == 2 * |images|
    ensures forall k :: 0 <= k < |images| ==>
      SetupCalls(images, config, renderPass)[2 * k] ==
        CreateImageView(images[k].handle, config.format, config.imageLayers, images[k].view) &&
      SetupCalls(images, config, renderPass)[2 * k + 1] ==
        CreateFramebuffer(renderPass, images[k].view, config.extent.width, config.extent.height,
                          config.imageLayers, images[k].framebuffer)
  {
    if images != [] {
      var front := images[..|images| - 1];
      SetupShape(front, config, renderPass);
      forall k | 0 <= k < |front| ensures images[k] == front[k] { }
    }
  }

  /** Neither building nor tearing down the images destroys a swapchain. */
  lemma {:induction false} NoSwapchainDestroyed(images: seq<SwapchainImage>, config: SwapchainConfiguration,
                                                renderPass: Handle)
    ensures forall c :: c in TeardownCalls(images) ==> !c.DestroySwapchain?
    ensures forall c :: c in SetupCalls(images, config, renderPass) ==> !c.DestroySwapchain?
  {
    if images != [] {
      NoSwapchainDestroyed(images[..|images| - 1], config, renderPass);
    }
  }

  /** The images a loop over the driver's `handles` builds when the last handle given out was `base`. */
  predicate BuiltFrom(images: seq<SwapchainImage>, handles: seq<Handle>, base: Handle)
  {
    |images| == |handles| &&
    forall i :: 0 <= i < |images| ==>
      images[i].handle == handles[i] && images[i].view == base + 2 * i + 1 && images[i].framebuffer == base + 2 * i + 2
  }

  /** Freshly built images hold pairwise distinct views and framebuffers, all newer than `base`. */
  lemma BuiltImagesAreFresh(images: seq<SwapchainImage>, handles: seq<Handle>, base: Handle)
    requires BuiltFrom(images, handles, base)
    ensures forall i, j :: 0 <= i < j < |images| ==>
      images[i].view != images[j].view && images[i].framebuffer != images[j].framebuffer
    ensures forall i, j :: 0 <= i < |images| && 0 <= j < |images| ==> images[i].view != images[j].framebuffer
    ensures forall i :: 0 <= i < |images| ==> images[i].view > base && images[i].framebuffer > base
  {
  }

  class SwapchainManager {
    var deviceManager: Option<DeviceView>
    var device: Handle
    var surface: Handle
    var renderPass: Handle
    var swapchain: Handle
    var images: seq<SwapchainImage>
    var configuration: SwapchainConfiguration

    /** Without a swapchain there are no images. */
    ghost predicate Valid()
      reads this
    {
      swapchain == NULL ==> images == []
    }

    /** `operator bool`: the swapchain is usable exactly when it has images. */
    function IsSet(): (b: bool)
      reads this
      ensures b <==> images != []
    {
      |images| > 0
    }

    /** The default constructor: every handle null, no images, a value-initialised configuration. */
    constructor()
      ensures Valid() && !IsSet()
      ensures deviceManager == None && device == NULL && surface == NULL
      ensures renderPass == NULL && swapchain == NULL && images == [] && configuration == DEFAULT_CONFIGURATION
    {
      deviceManager, device, surface := None, NULL, NULL;
      renderPass, swapchain, images := NULL, NULL, [];
      configuration := DEFAULT_CONFIGURATION;
    }

    /**
     * The three-argument constructor as written: it passes the member
     * `configuration`, still value-initialised, to `init` instead of its own
     * `config` argument, which it never reads.
     */
    constructor WithConfigurationAsWritten(drv: Driver, dm: DeviceView, surf: Handle,
                                           config: SwapchainConfiguration, handles: seq<Handle>)
      modifies drv
      ensures Valid() && deviceManager == Some(dm) && surface == surf
      ensures configuration == DEFAULT_CONFIGURATION
      ensures BuiltFrom(images, handles, old(drv.last) + 2)
    {
      deviceManager, device, surface := None, NULL, NULL;
      renderPass, swapchain, images := NULL, NULL, [];
      configuration := DEFAULT_CONFIGURATION;
      new;
      Init(drv, dm, surf, configuration, handles);
    }

    /** The three-argument constructor as intended: `init` with its own `config`. */
    constructor WithConfiguration(drv: Driver, dm: DeviceView, surf: Handle,
                                  config: SwapchainConfiguration, handles: seq<Handle>)
      modifies drv
      ensures Valid() && deviceManager == Some(dm) && surface == surf
      ensures configuration == config
      ensures BuiltFrom(images, handles, old(drv.last) + 2)
    {
      deviceManager, device, surface := None, NULL, NULL;
      renderPass, swapchain, images := NULL, NULL, [];
      configuration := DEFAULT_CONFIGURATION;
      new;
      Init(drv, dm, surf, config, handles);
    }

    /** `create_swapchain`: a new swapchain that names the current one as the one it replaces. */
    method CreateSwapchain(drv: Driver)
      requires deviceManager.Some?
      modifies this`swapchain, drv
      ensures swapchain == old(drv.last) + 1 && drv.last == swapchain && drv.fences == old(drv.fences)
      ensures drv.log == old(drv.log) +
        [Call.CreateSwapchain(SwapchainInfo(surface, configuration,
                                       SharingFor(deviceManager.value.graphicsFamily, deviceManager.value.presentFamily),
                                       old(swapchain)), swapchain)]
    {
      var dm := deviceManager.value;
      var info := SwapchainInfo(surface, configuration, SharingFor(dm.graphicsFamily, dm.presentFamily), swapchain);
      var h := drv.Fresh();
      drv.Record(Call.CreateSwapchain(info, h));
      swapchain := h;
    }

    /**
     * `get_swapchain_images`: one entry per image the driver reports for the
     * swapchain, each with a new view and a new framebuffer.
     */
    method GetSwapchainImages(drv: Driver, handles: seq<Handle>)
      modifies this`images, drv
      ensures BuiltFrom(images, handles, old(drv.last))
      ensures drv.log == old(drv.log) + SetupCalls(images, configuration, renderPass)
      ensures drv.last == old(drv.last) + 2 * |handles| && drv.fences == old(drv.fences)
    {
      ghost var base := drv.last;
      images := [];
      var i := 0;
      while i < |handles|
        invariant 0 <= i <= |handles| && |images| == i
        invariant forall j :: 0 <= j < i ==> images[j] == SwapchainImage(handles[j], base + 2 * j + 1, base + 2 * j + 2)
        invariant drv.log == old(drv.log) + SetupCalls(images, configuration, renderPass)
        invariant drv.last == base + 2 * i && drv.fences == old(drv.fences)
      {
        var view := drv.Fresh();
        var viewCall := CreateImageView(handles[i], configuration.format, configuration.imageLayers, view);
        drv.Record(viewCall);
        var framebuffer := drv.Fresh();
        var framebufferCall := CreateFramebuffer(renderPass, view, configuration.extent.width,
                                                 configuration.extent.height, configuration.imageLayers, framebuffer);
        drv.Record(framebufferCall);
        var img := SwapchainImage(handles[i], view, framebuffer);
        assert SetupCalls(images + [img], configuration, renderPass) ==
          SetupCalls(images, configuration, renderPass) + [viewCall, framebufferCall] by {
          assert (images + [img])[..|images|] == images;
        }
        images := images + [img];
        i := i + 1;
      }
    }

    /** `destroy_swapchain`: each image's framebuffer and view, then no images. The swapchain itself stays. */
    method DestroySwapchain(drv: Driver)
      modifies this`images, drv
      ensures images == []
      ensures drv.log == old(drv.log) + TeardownCalls(old(images))
      ensures drv.last == old(drv.last) && drv.fences == old(drv.fences)
    {
      var i := 0;
      while i < |images|
        invariant 0 <= i <= |images|
        invariant images == old(images)
        invariant drv.log == old(drv.log) + TeardownCalls(images[..i])
        invariant drv.last == old(drv.last) && drv.fences == old(drv.fences)
      {
        assert images[..i + 1][..i] == images[..i];
        drv.Record(DestroyFramebuffer(images[i].framebuffer));
        drv.Record(DestroyImageView(images[i].view));
        i := i + 1;
      }
      assert images[..i] == images;
      images := [];
    }

    /**
     * `init`: the swapchain first, then the render pass in the configured
     * format, then the images, whose framebuffers use that render pass.
     */
    method Init(drv: Driver, dm: DeviceView, surf: Handle, config: SwapchainConfiguration, handles: seq<Handle>)
      modifies this, drv
      ensures deviceManager == Some(dm) && device == dm.device && surface == surf && configuration == config
      ensures swapchain == old(drv.last) + 1 && renderPass == old(drv.last) + 2
      ensures BuiltFrom(images, handles, old(drv.last) + 2)
      ensures drv.log == old(drv.log) +
        [Call.CreateSwapchain(SwapchainInfo(surf, config, SharingFor(dm.graphicsFamily, dm.presentFamily), old(swapchain)),
                         swapchain),
         CreateRenderPass(config.format, renderPass)] +
        SetupCalls(images, config, renderPass)
      ensures drv.fences == old(drv.fences)
      ensures Valid()
    {
      deviceManager, device, surface := Some(dm), dm.device, surf;
      configuration := config;
      CreateSwapchain(drv);
      var rp := drv.Fresh();
      drv.Record(CreateRenderPass(configuration.format, rp));
      renderPass := rp;
      GetSwapchainImages(drv, handles);
    }

    /**
     * `destroy` as written: the images, the render pass if there is one, and
     * then the swapchain with no check, through whatever device handle the
     * manager holds; every handle is nulled.
     */
    method DestroyAsWritten(drv: Driver)
      modifies this, drv
      ensures drv.log == old(drv.log) + TeardownCalls(old(images)) +
        (if old(renderPass) != NULL then [DestroyRenderPass(old(renderPass))] else []) +
        [Call.DestroySwapchain(old(device), old(swapchain))]
      ensures drv.last == old(drv.last) && drv.fences == old(drv.fences)
      ensures swapchain == NULL && renderPass == NULL && device == NULL && surface == NULL
      ensures deviceManager == None && images == [] && configuration == old(configuration)
      ensures Valid()
    {
      DestroySwapchain(drv);
      if renderPass != NULL {
        drv.Record(DestroyRenderPass(renderPass));
      }
      drv.Record(Call.DestroySwapchain(device, swapchain));
      swapchain, renderPass, device, surface := NULL, NULL, NULL, NULL;
      deviceManager := None;
    }

    /**
     * `destroy` with the swapchain destruction guarded like the render pass's,
     * so the second call made by the destructor issues no call.
     */
    method Destroy(drv: Driver)
      modifies this, drv
      ensures drv.log == old(drv.log) + TeardownCalls(old(images)) +
        (if old(renderPass) != NULL then [DestroyRenderPass(old(renderPass))] else []) +
        (if old(swapchain) != NULL then [Call.DestroySwapchain(old(device), old(swapchain))] else [])
      ensures drv.last == old(drv.last) && drv.fences == old(drv.fences)
      ensures swapchain == NULL && renderPass == NULL && device == NULL && surface == NULL
      ensures deviceManager == None && images == [] && configuration == old(configuration)
      ensures Valid()
    {
      DestroySwapchain(drv);
      if renderPass != NULL {
        drv.Record(DestroyRenderPass(renderPass));
      }
      if swapchain != NULL {
        drv.Record(Call.DestroySwapchain(device, swapchain));
      }
      swapchain, renderPass, device, surface := NULL, NULL, NULL, NULL;
      deviceManager := None;
    }

    /**
     * `recreate_swapchain`, returning `true` on the path the header documents.
     * It waits for the device, drops the images if there is a swapchain, and
     * stops there when the new extent is empty. Otherwise it stores the new
     * configuration, creates a swapchain that replaces the old one (which is
     * never destroyed here) and rebuilds the images. The render pass is kept.
     */
    method RecreateSwapchain(drv: Driver, config: SwapchainConfiguration, handles: seq<Handle>) returns (valid: bool)
      requires Valid() && deviceManager.Some?
      modifies this`images, this`swapchain, this`configuration, drv
      ensures Valid()
      ensures valid <==> (config.extent.width != 0 && config.extent.height != 0)
      ensures !valid ==>
        images == [] && !IsSet() && swapchain == old(swapchain) && configuration == old(configuration)
      ensures !valid ==>
        drv.log == old(drv.log) + [WaitIdle] + (if old(swapchain) != NULL then TeardownCalls(old(images)) else [])
      ensures valid ==> (configuration == config && swapchain == old(drv.last) + 1)
      ensures valid ==> (BuiltFrom(images, handles, old(drv.last) + 1) && (IsSet() <==> handles != []))
      ensures valid ==>
        drv.log == old(drv.log) + [WaitIdle] +
          (if old(swapchain) != NULL then TeardownCalls(old(images)) else []) +
          [Call.CreateSwapchain(SwapchainInfo(surface, config,
                                              SharingFor(deviceManager.value.graphicsFamily,
                                                         deviceManager.value.presentFamily),
                                              old(swapchain)), swapchain)] +
          SetupCalls(images, config, renderPass)
      ensures drv.fences == old(drv.fences)
    {
      drv.Record(WaitIdle);
      if swapchain != NULL {
        DestroySwapchain(drv);
      }
      if config.extent.width == 0 || config.extent.height == 0 {
        return false;
      }
      configuration := config;
      CreateSwapchain(drv);
      GetSwapchainImages(drv, handles);
      return true;
    }
  }

  /**
   * The backend's destructor destroys the manager explicitly and the manager's
   * own destructor destroys it again: as written, the second call asks a null
   * device to destroy a null swapchain.
   */
  method DestroyTwiceAsWritten(drv: Driver, m: SwapchainManager)
    modifies drv, m
    ensures |drv.log| > 0 && drv.log[|drv.log| - 1] == Call.DestroySwapchain(NULL, NULL)
  {
    m.DestroyAsWritten(drv);
    m.DestroyAsWritten(drv);
  }

  /** With the guard, destroying a second time adds nothing to the log. */
  method DestroyTwice(drv: Driver, m: SwapchainManager)
    modifies drv, m
    ensures |drv.log| >= |old(drv.log)|
    ensures forall c :: c in drv.log[|old(drv.log)|..] ==> (c.DestroySwapchain? ==> c.swapchain != NULL)
  {
    NoSwapchainDestroyed(m.images, m.configuration, m.renderPass);
    m.Destroy(drv);
    ghost var mid := drv.log;
    m.Destroy(drv);
    assert drv.log == mid;
  }

  /**
   * What `recreate_swapchain` returns as written: `false` for an empty extent,
   * and on the other path no value at all, because the function ends without
   * a `return` statement.
   */
  function RecreateResultAsWritten(config: SwapchainConfiguration): (r: Option<bool>)
    ensures r == Some(false) <==> config.extent.width == 0 || config.extent.height == 0
  {
    if config.extent.width == 0 || config.extent.height == 0 then Some(false) else None
  }

  /**
   * A witness of the `recreate` finding, for the non-empty extents only: on
   * the successful path it returns nothing.
   */
  lemma RecreateAsWrittenReturnsNothing(width: u32, height: u32)
    requires width != 0 && height != 0
    ensures RecreateResultAsWritten(SwapchainConfiguration(0, 0, 0, Extent(width, height), 0, 0)) == None
  {
  }
}
