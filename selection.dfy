/**
 * The swapchain and device selection policies shared by the engine backend
 * and the older render manager: surface format, present mode, extent, image
 * count, sharing mode, device scoring and the surface support check.
 * Vulkan enumerants are their registry values.
 */
module Selection {
  import opened Wrappers
  import opened Bytes
  import opened Common
  import opened VkResults

  const FORMAT_B8G8R8A8_SRGB: nat := 50
  const COLOR_SPACE_SRGB_NONLINEAR: nat := 0

  type PresentMode = nat
  const PRESENT_MODE_IMMEDIATE: PresentMode := 0
  const PRESENT_MODE_MAILBOX: PresentMode := 1
  const PRESENT_MODE_FIFO: PresentMode := 2

  datatype Extent = Extent(width: u32, height: u32)

  /** `vk::SurfaceFormatKHR`. */
  datatype SurfaceFormat = SurfaceFormat(format: nat, colorSpace: nat)

  /** The fields of `vk::SurfaceCapabilitiesKHR` the policies read. */
  datatype Capabilities = Capabilities(minImageCount: u32, maxImageCount: u32, currentExtent: Extent,
                                       minImageExtent: Extent, maxImageExtent: Extent)

  /** `SwapchainSupportDetails`: what the driver reports for a device and surface. */
  datatype SupportDetails = SupportDetails(capabilities: Capabilities, formats: seq<SurfaceFormat>,
                                           modes: seq<PresentMode>)

  /** `SwapchainConfiguration`. */
  datatype SwapchainConfiguration = SwapchainConfiguration(format: nat, colorSpace: nat, presentMode: PresentMode,
                                                           extent: Extent, imageCount: u32, imageLayers: u32)

  /** The value-initialised configuration (`= {}` on every field). */
  const DEFAULT_CONFIGURATION := SwapchainConfiguration(0, 0, 0, Extent(0, 0), 0, 0)

  const PREFERRED_FORMAT := SurfaceFormat(FORMAT_B8G8R8A8_SRGB, COLOR_SPACE_SRGB_NONLINEAR)

  predicate HasPreferred(formats: seq<SurfaceFormat>)
  {
    exists i :: 0 <= i < |formats| && formats[i] == PREFERRED_FORMAT
  }

  /**
   * `select_format`: the sRGB BGRA8 format in the non-linear sRGB colour space if
   * the surface offers it, otherwise the first format offered. The source reads
   * `formats[0]` unconditionally, so an empty list is the caller's error.
   */
  method SelectFormat(formats: seq<SurfaceFormat>) returns (f: SurfaceFormat)
    requires |formats| > 0
    ensures HasPreferred(formats) ==> f == PREFERRED_FORMAT
    ensures !HasPreferred(formats) ==> f == formats[0]
  {
    var i := 0;
    while i < |formats|
      invariant 0 <= i <= |formats|
      invariant forall j :: 0 <= j < i ==> formats[j] != PREFERRED_FORMAT
    {
      if formats[i].format == FORMAT_B8G8R8A8_SRGB && formats[i].colorSpace == COLOR_SPACE_SRGB_NONLINEAR {
        return formats[i];
      }
      i := i + 1;
    }
    return formats[0];
  }

  /** `select_present_mode`: mailbox when offered, otherwise FIFO, which every surface supports. */
  method SelectPresentMode(modes: seq<PresentMode>) returns (m: PresentMode)
    ensures PRESENT_MODE_MAILBOX in modes ==> m == PRESENT_MODE_MAILBOX
    ensures PRESENT_MODE_MAILBOX !in modes ==> m == PRESENT_MODE_FIFO
  {
    var i := 0;
    while i < |modes|
      invariant 0 <= i <= |modes|
      invariant PRESENT_MODE_MAILBOX !in modes[..i]
    {
      if modes[i] == PRESENT_MODE_MAILBOX {
        return modes[i];
      }
      i := i + 1;
    }
    assert modes[..i] == modes;
    return PRESENT_MODE_FIFO;
  }

  /** `std::clamp(v, lo, hi)` as the standard library computes it: `v < lo ? lo : hi < v ? hi : v`. */
  function Clamp(v: u32, lo: u32, hi: u32): (r: u32)
    ensures lo <= hi ==> lo <= r <= hi
    ensures lo <= v <= hi ==> r == v
    ensures v < lo ==> r == lo
    ensures lo <= hi < v ==> r == hi
  {
    if v < lo then lo else if hi < v then hi else v
  }

  /**
   * `select_extent`: the surface's current extent, unless its width is the
   * special value `0xFFFFFFFF`, in which case the window's framebuffer size
   * clamped into the surface's limits. `framebuffer` is what
   * `glfwGetFramebufferSize` reports.
   */
  function SelectExtent(capabilities: Capabilities, framebuffer: Extent): (e: Extent)
    ensures capabilities.currentExtent.width != UINT32_MAX ==> e == capabilities.currentExtent
    ensures capabilities.currentExtent.width == UINT32_MAX ==>
      e.width == Clamp(framebuffer.width, capabilities.minImageExtent.width, capabilities.maxImageExtent.width) &&
      e.height == Clamp(framebuffer.height, capabilities.minImageExtent.height, capabilities.maxImageExtent.height)
  {
    if capabilities.currentExtent.width != UINT32_MAX then capabilities.currentExtent
    else
      Extent(Clamp(framebuffer.width, capabilities.minImageExtent.width, capabilities.maxImageExtent.width),
             Clamp(framebuffer.height, capabilities.minImageExtent.height, capabilities.maxImageExtent.height))
  }

  /** A chosen extent lies within the surface limits whenever the surface leaves the choice to the swapchain. */
  lemma ChosenExtentWithinLimits(capabilities: Capabilities, framebuffer: Extent)
    requires capabilities.currentExtent.width == UINT32_MAX
    requires capabilities.minImageExtent.width <= capabilities.maxImageExtent.width
    requires capabilities.minImageExtent.height <= capabilities.maxImageExtent.height
    ensures var e := SelectExtent(capabilities, framebuffer);
      capabilities.minImageExtent.width <= e.width <= capabilities.maxImageExtent.width &&
      capabilities.minImageExtent.height <= e.height <= capabilities.maxImageExtent.height
    ensures var e := SelectExtent(capabilities, framebuffer);
      (capabilities.minImageExtent.width <= framebuffer.width <= capabilities.maxImageExtent.width ==>
         e.width == framebuffer.width) &&
      (capabilities.minImageExtent.height <= framebuffer.height <= capabilities.maxImageExtent.height ==>
         e.height == framebuffer.height)
  {
  }

  /**
   * The image count rule: one more than the minimum, capped by the maximum
   * when the maximum is not 0 (0 means "no limit"). The addition is on
   * `uint32_t` and wraps.
   */
  function ImageCount(capabilities: Capabilities): (n: u32)
    ensures capabilities.maxImageCount == 0 && capabilities.minImageCount < UINT32_MAX ==>
      n == capabilities.minImageCount + 1
    ensures capabilities.maxImageCount != 0 ==> n <= capabilities.maxImageCount
    ensures capabilities.minImageCount < capabilities.maxImageCount ==> n == capabilities.minImageCount + 1
    ensures capabilities.minImageCount < UINT32_MAX ==>
      (n > capabilities.minImageCount || n == capabilities.maxImageCount)
  {
    var wanted: u32 := (capabilities.minImageCount + 1) % 0x1_0000_0000;
    if capabilities.maxImageCount != 0 && capabilities.maxImageCount < wanted then capabilities.maxImageCount
    else wanted
  }

  /**
   * A single-input witness of the image-count wrap-around: a surface
   * reporting the largest minimum and no maximum gets a count of 0.
   */
  lemma ImageCountWraps()
    ensures ImageCount(Capabilities(0xFFFF_FFFF, 0, Extent(0, 0), Extent(0, 0), Extent(0, 0))) == 0
  {
  }

  /**
   * The configuration both revisions build from a support query: chosen format,
   * present mode and extent, the image count rule, and always one layer.
   */
  method Configure(support: SupportDetails, framebuffer: Extent) returns (config: SwapchainConfiguration)
    requires |support.formats| > 0
    ensures HasPreferred(support.formats) ==>
      (config.format == FORMAT_B8G8R8A8_SRGB && config.colorSpace == COLOR_SPACE_SRGB_NONLINEAR)
    ensures !HasPreferred(support.formats) ==>
      (config.format == support.formats[0].format && config.colorSpace == support.formats[0].colorSpace)
    ensures PRESENT_MODE_MAILBOX in support.modes ==> config.presentMode == PRESENT_MODE_MAILBOX
    ensures PRESENT_MODE_MAILBOX !in support.modes ==> config.presentMode == PRESENT_MODE_FIFO
    ensures config.extent == SelectExtent(support.capabilities, framebuffer)
    ensures config.imageCount == ImageCount(support.capabilities)
    ensures config.imageLayers == 1
  {
    var format := SelectFormat(support.formats);
    var mode := SelectPresentMode(support.modes);
    config := SwapchainConfiguration(format.format, format.colorSpace, mode,
                                     SelectExtent(support.capabilities, framebuffer),
                                     ImageCount(support.capabilities), 1);
  }

  datatype SharingMode = Exclusive | Concurrent

  /** How the swapchain images are shared between the graphics and present queue families. */
  datatype Sharing = Sharing(mode: SharingMode, familyIndices: seq<u32>)

  /**
   * Exclusive with no family list when both queues come from the same family,
   * concurrent between the two families otherwise.
   */
  function SharingFor(graphicsFamily: u32, presentFamily: u32): (s: Sharing)
    ensures s.mode == Exclusive <==> graphicsFamily == presentFamily
    ensures s.mode == Exclusive ==> s.familyIndices == []
    ensures s.mode == Concurrent ==> s.familyIndices == [graphicsFamily, presentFamily]
  {
    if graphicsFamily == presentFamily then Sharing(Exclusive, [])
    else Sharing(Concurrent, [graphicsFamily, presentFamily])
  }

  /** A candidate physical device: its handle, the properties the score reads, and its surface support. */
  datatype Candidate = Candidate(device: Handle, maxImageDimension2D: u32, discrete: bool,
                                 formatCount: nat, modeCount: nat)

  /** Discrete devices get a bonus of 100000 on top of their largest 2D image size. */
  function Score(c: Candidate): (s: nat)
    ensures s >= c.maxImageDimension2D
    ensures c.discrete ==> s >= 100000
  {
    c.maxImageDimension2D + (if c.discrete then 100000 else 0)
  }

  /** A device is passed over only when it reports neither a surface format nor a present mode. */
  predicate Considered(c: Candidate)
  {
    !(c.formatCount == 0 && c.modeCount == 0)
  }

  /** Device `i` is what the selection loop picks: the first considered device with the highest positive score. */
  predicate IsChoice(devices: seq<Candidate>, i: int)
  {
    0 <= i < |devices| && Considered(devices[i]) && Score(devices[i]) > 0 &&
    (forall j :: 0 <= j < i && Considered(devices[j]) ==> Score(devices[j]) < Score(devices[i])) &&
    (forall j :: i < j < |devices| && Considered(devices[j]) ==> Score(devices[j]) <= Score(devices[i]))
  }

  /** No considered device scores above 0. */
  predicate NoChoice(devices: seq<Candidate>)
  {
    forall j :: 0 <= j < |devices| && Considered(devices[j]) ==> Score(devices[j]) == 0
  }

  /** At most one device is the choice. */
  lemma ChoiceUnique(devices: seq<Candidate>, i: int, k: int)
    requires IsChoice(devices, i) && IsChoice(devices, k)
    ensures i == k
  {
  }

  /** Either some device is the choice or none scores: the two outcomes exclude each other. */
  lemma ChoiceOrNone(devices: seq<Candidate>, i: int)
    requires IsChoice(devices, i)
    ensures !NoChoice(devices)
  {
  }

  /**
   * `select_physical_device`: throws on an empty list; otherwise the handle of
   * the chosen device, or the null handle when no considered device scores
   * above 0.
   */
  method SelectPhysicalDevice(devices: seq<Candidate>) returns (r: Result<Handle>)
    ensures devices == [] ==> r == Err(Exception("No devices are available"))
    ensures devices != [] ==> r.Ok?
    ensures r.Ok? && r.value != NULL ==> exists i :: IsChoice(devices, i) && devices[i].device == r.value
    ensures r.Ok? ==> (NoChoice(devices) ==> r.value == NULL)
    ensures r.Ok? ==> forall i :: IsChoice(devices, i) ==> r.value == devices[i].device
  {
    if |devices| == 0 {
      return Err(Exception("No devices are available"));
    }
    var selected: Handle := NULL;
    var selectedScore: nat := 0;
    ghost var chosen: int := -1;
    var i := 0;
    while i < |devices|
      invariant 0 <= i <= |devices|
      invariant chosen == -1 ==>
        (selected == NULL && selectedScore == 0 &&
         forall j :: 0 <= j < i && Considered(devices[j]) ==> Score(devices[j]) == 0)
      invariant chosen != -1 ==>
        (0 <= chosen < i && Considered(devices[chosen]) &&
         selected == devices[chosen].device && selectedScore == Score(devices[chosen]) > 0 &&
         (forall j :: 0 <= j < chosen && Considered(devices[j]) ==> Score(devices[j]) < selectedScore) &&
         (forall j :: chosen < j < i && Considered(devices[j]) ==> Score(devices[j]) <= selectedScore))
    {
      var d := devices[i];
      if d.formatCount == 0 && d.modeCount == 0 {
        i := i + 1;
        continue;
      }
      var score := d.maxImageDimension2D + (if d.discrete then 100000 else 0);
      if score > selectedScore {
        selected, selectedScore := d.device, score;
        chosen := i;
      }
      i := i + 1;
    }
    if chosen != -1 {
      assert IsChoice(devices, chosen);
      forall k | IsChoice(devices, k) ensures selected == devices[k].device {
        ChoiceUnique(devices, chosen, k);
      }
    }
    return Ok(selected);
  }

  /** The backend constructor: selection, then a second error when nothing was chosen. */
  method ChooseRenderingDevice(devices: seq<Candidate>) returns (r: Result<Handle>)
    ensures devices == [] ==> r == Err(Exception("No devices are available"))
    ensures devices != [] && NoChoice(devices) ==> r == Err(Exception("No supported devices available"))
    ensures r.Ok? ==> r.value != NULL && exists i :: IsChoice(devices, i) && devices[i].device == r.value
  {
    r := SelectPhysicalDevice(devices);
    if r.Ok? && r.value == NULL {
      r := Err(Exception("No supported devices available"));
    }
  }

  /**
   * `SwapchainSupportDetails::supported`: each count query that returns a
   * non-zero result throws; otherwise both counts must be positive.
   */
  function Supported(formatsResult: int, formatCount: nat, modesResult: int, modeCount: nat): (r: Result<bool>)
    ensures formatsResult != 0 ==> r == Err(VulkanException(FromCode(formatsResult)))
    ensures formatsResult == 0 && modesResult != 0 ==> r == Err(VulkanException(FromCode(modesResult)))
    ensures formatsResult == 0 && modesResult == 0 ==> r == Ok(formatCount > 0 && modeCount > 0)
  {
    if formatsResult != 0 then Err(VulkanException(FromCode(formatsResult)))
    else if modesResult != 0 then Err(VulkanException(FromCode(modesResult)))
    else Ok(formatCount > 0 && modeCount > 0)
  }

  /**
   * The support check is stricter than the selection loop: a supported device
   * is always considered, but a device offering formats and no present modes
   * is considered without being supported.
   */
  lemma SupportedIsConsidered(c: Candidate)
    ensures Supported(0, c.formatCount, 0, c.modeCount) == Ok(true) ==> Considered(c)
    ensures var half := c.(formatCount := 1, modeCount := 0);
      Considered(half) && Supported(0, half.formatCount, 0, half.modeCount) == Ok(false)
  {
  }
}
