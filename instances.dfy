/**
 * `VulkanInstanceManager` in its three revisions: instance creation, the
 * supported-device filters, the instance extension and layer checks, the
 * debug-messenger callback, the getters and the destructor.
 */
module Instances {
  import opened Wrappers
  import opened Common
  import opened Vk
  import VkResults

  /** The number of `VkBool32` members of `VkPhysicalDeviceFeatures`. */
  const FEATURE_COUNT: nat := 55

  /** A `VkPhysicalDeviceFeatures`, one `VkBool32` per member in declaration order. */
  type Features = f: seq<nat> | |f| == FEATURE_COUNT witness seq(FEATURE_COUNT, _ => 0)

  /** The default `VkPhysicalDeviceFeatures{}`: nothing requested. */
  const NO_FEATURES: Features := seq(FEATURE_COUNT, _ => 0)

  /** A physical device with what the driver reports for it. */
  datatype DeviceInfo = DeviceInfo(handle: Handle, extensions: seq<string>, features: Features)

  /** `RenderDeviceManager::get_required_device_extensions`. */
  const REQUIRED_DEVICE_EXTENSIONS: seq<string> := ["VK_KHR_swapchain"]
  const VALIDATION_LAYER: string := "VK_LAYER_KHRONOS_validation"
  const DEBUG_UTILS_EXTENSION: string := "VK_EXT_debug_utils"

  function Handles(devices: seq<DeviceInfo>): (r: seq<Handle>)
    ensures |r| == |devices| && forall i :: 0 <= i < |r| ==> r[i] == devices[i].handle
  {
    if |devices| == 0 then [] else Handles(devices[..|devices| - 1]) + [devices[|devices| - 1].handle]
  }

  /** Every requested name is among the available ones. */
  predicate HasAll(available: seq<string>, required: seq<string>)
  {
    forall k :: 0 <= k < |required| ==> required[k] in available
  }

  /** The `IS_FEATURE_SUPPORTED` conjunction: each requested feature is off, or available. */
  predicate FeaturesSupported(requested: Features, available: Features)
  {
    forall i :: 0 <= i < FEATURE_COUNT ==> requested[i] == 0 || available[i] == 1
  }

  /** The devices a filter keeps, in their original order. */
  function Kept(devices: seq<DeviceInfo>, extensions: seq<string>, features: Features): seq<Handle>
  {
    if |devices| == 0 then []
    else
      var d := devices[|devices| - 1];
      Kept(devices[..|devices| - 1], extensions, features) +
      (if HasAll(d.extensions, extensions) && FeaturesSupported(features, d.features) then [d.handle] else [])
  }

  /** `a` is `b` with some elements left out. */
  ghost predicate Subsequence<T>(a: seq<T>, b: seq<T>)
    decreases |b|
  {
    if |a| == 0 then true
    else if |b| == 0 then false
    else if a[|a| - 1] == b[|b| - 1] then Subsequence(a[..|a| - 1], b[..|b| - 1])
    else Subsequence(a, b[..|b| - 1])
  }

  /** A device is kept exactly when it has every extension and every feature asked for. */
  lemma {:induction false} KeptIff(devices: seq<DeviceInfo>, extensions: seq<string>, features: Features, h: Handle)
    ensures h in Kept(devices, extensions, features) <==>
      exists i :: 0 <= i < |devices| && devices[i].handle == h &&
        HasAll(devices[i].extensions, extensions) && FeaturesSupported(features, devices[i].features)
  {
    if |devices| > 0 {
      var init := devices[..|devices| - 1];
      KeptIff(init, extensions, features, h);
      assert forall i :: 0 <= i < |init| ==> init[i] == devices[i];
    }
  }

  /** The filter keeps the order of the devices. */
  lemma {:induction false} KeptIsSubsequence(devices: seq<DeviceInfo>, extensions: seq<string>, features: Features)
    ensures Subsequence(Kept(devices, extensions, features), Handles(devices))
  {
    if |devices| > 0 {
      var init := devices[..|devices| - 1];
      var d := devices[|devices| - 1];
      KeptIsSubsequence(init, extensions, features);
      var k := Kept(devices, extensions, features);
      assert Handles(devices)[..|devices| - 1] == Handles(init);
      if HasAll(d.extensions, extensions) && FeaturesSupported(features, d.features) {
        assert k[..|k| - 1] == Kept(init, extensions, features);
      } else {
        assert k == Kept(init, extensions, features);
        SubsequenceDropLast(k, Handles(devices));
      }
    }
  }

  lemma {:induction false} SubsequenceDropLast<T>(a: seq<T>, b: seq<T>)
    requires |b| > 0 && Subsequence(a, b[..|b| - 1])
    ensures Subsequence(a, b)
    decreases |b|, 0
  {
    if |a| > 0 && a[|a| - 1] == b[|b| - 1] {
      SubsequenceInit(a, b[..|b| - 1]);
    }
  }

  lemma {:induction false} SubsequenceInit<T>(a: seq<T>, b: seq<T>)
    requires |a| > 0 && Subsequence(a, b)
    ensures Subsequence(a[..|a| - 1], b)
    decreases |b|, 1
  {
    if a[|a| - 1] != b[|b| - 1] {
      SubsequenceInit(a, b[..|b| - 1]);
    }
    SubsequenceDropLast(a[..|a| - 1], b);
  }

  /** No requested extension and the default (all-zero) feature set keep every device. */
  lemma {:induction false} NoRequirementsKeepAll(devices: seq<DeviceInfo>, features: Features)
    requires forall i :: 0 <= i < FEATURE_COUNT ==> features[i] == 0
    ensures Kept(devices, [], features) == Handles(devices)
  {
    if |devices| > 0 {
      NoRequirementsKeepAll(devices[..|devices| - 1], features);
    }
  }

  /** The inner `strcmp` loop: whether `name` is among `available`. */
  method Find(available: seq<string>, name: string) returns (found: bool)
    ensures found <==> name in available
  {
    found := false;
    for i := 0 to |available|
      invariant !found && name !in available[..i]
    {
      if available[i] == name {
        found := true;
        assert available[..i + 1][i] == name;
        return;
      }
      assert available[..i + 1] == available[..i] + [available[i]];
    }
    assert available[..|available|] == available;
  }

  /** The engine's extension check: stops at the first missing extension. */
  method ExtensionsSupported(available: seq<string>, required: seq<string>) returns (supported: bool)
    ensures supported <==> HasAll(available, required)
  {
    supported := true;
    for e := 0 to |required|
      invariant supported && forall k :: 0 <= k < e ==> required[k] in available
    {
      var found := Find(available, required[e]);
      if !found {
        supported := false;
        return;
      }
    }
  }

  /** The render revisions' extension check: `supported &= found` over every extension. */
  method ExtensionsSupportedNoBreak(available: seq<string>, required: seq<string>) returns (supported: bool)
    ensures supported <==> HasAll(available, required)
  {
    supported := true;
    for e := 0 to |required|
      invariant supported <==> forall k :: 0 <= k < e ==> required[k] in available
    {
      var found := Find(available, required[e]);
      supported := supported && found;
    }
  }

  /** The render revisions' constructor loop over `enumeratePhysicalDevices`. */
  method FilterByExtensions(devices: seq<DeviceInfo>, required: seq<string>) returns (supported: seq<Handle>)
    ensures supported == Kept(devices, required, NO_FEATURES)
  {
    supported := [];
    for d := 0 to |devices|
      invariant supported == Kept(devices[..d], required, NO_FEATURES)
    {
      assert devices[..d + 1][..d] == devices[..d];
      var ok := ExtensionsSupportedNoBreak(devices[d].extensions, required);
      if ok {
        supported := supported + [devices[d].handle];
      }
    }
    assert devices[..|devices|] == devices;
  }

  /** The names of `names` that `available` lacks, in order. */
  function Missing(names: seq<string>, available: seq<string>): (r: seq<string>)
    ensures forall x :: x in r <==> x in names && x !in available
  {
    if |names| == 0 then []
    else
      var last := names[|names| - 1];
      Missing(names[..|names| - 1], available) + (if last in available then [] else [last])
  }

  /**
   * `get_unavailable_instance_extensions` / `_layers` as written: a match
   * sets `found` to false, so every name is reported unavailable.
   */
  method UnavailableAsWritten(names: seq<string>, available: seq<string>) returns (unavailable: seq<string>)
    ensures unavailable == names
  {
    unavailable := [];
    for n := 0 to |names|
      invariant unavailable == names[..n]
    {
      var found := false;
      for a := 0 to |available|
        invariant !found
      {
        if available[a] == names[n] {
          found := false;
          break;
        }
      }
      if !found {
        unavailable := unavailable + [names[n]];
      }
      assert names[..n + 1] == names[..n] + [names[n]];
    }
    assert names[..|names|] == names;
  }

  /** The same check with a match setting `found`, as the name promises. */
  method Unavailable(names: seq<string>, available: seq<string>) returns (unavailable: seq<string>)
    ensures unavailable == Missing(names, available)
  {
    unavailable := [];
    for n := 0 to |names|
      invariant unavailable == Missing(names[..n], available)
    {
      assert names[..n + 1][..n] == names[..n];
      var found := Find(available, names[n]);
      if !found {
        unavailable := unavailable + [names[n]];
      }
    }
    assert names[..|names|] == names;
  }

  /** Whenever a requested name is available, the written check reports one name too many. */
  lemma AvailableNameStillReported(names: seq<string>, available: seq<string>, i: nat)
    requires i < |names| && names[i] in available
    ensures Missing(names, available) != names
  {
    assert names[i] in names;
  }

  /** The `VkDebugUtilsMessageTypeFlagBitsEXT` bits. */
  const TYPE_GENERAL: bv32 := 0x1
  const TYPE_VALIDATION: bv32 := 0x2
  const TYPE_PERFORMANCE: bv32 := 0x4
  const TYPE_DEVICE_ADDRESS_BINDING: bv32 := 0x8

  /** The `VkDebugUtilsMessageSeverityFlagBitsEXT` values. */
  const SEVERITY_VERBOSE: bv32 := 0x1
  const SEVERITY_INFO: bv32 := 0x10
  const SEVERITY_WARNING: bv32 := 0x100
  const SEVERITY_ERROR: bv32 := 0x1000

  const VK_FALSE: nat := 0

  /** The spdlog level a message is logged at. */
  datatype Level = TraceLevel | InfoLevel | WarnLevel | ErrorLevel

  /** A line the callback logs: its level, the severity and type labels of its prefix. */
  datatype LogLine = LogLine(level: Level, severity: string, messageType: string)

  datatype CallbackOutcome = CallbackOutcome(line: Option<LogLine>, result: nat)

  /** The `message_type` label: each matching bit in turn overwrites it. */
  function MessageType(t: bv32): string
  {
    var general := if t & TYPE_GENERAL != 0 then "General" else "";
    var binding := if t & TYPE_DEVICE_ADDRESS_BINDING != 0 then "Device Address Binding" else general;
    var performance := if t & TYPE_PERFORMANCE != 0 then "Performance" else binding;
    if t & TYPE_VALIDATION != 0 then "Validation" else performance
  }

  /** The label goes to the highest-priority bit: Validation, Performance, Device Address Binding, General. */
  lemma MessageTypePrecedence(t: bv32)
    ensures t & TYPE_VALIDATION != 0 ==> MessageType(t) == "Validation"
    ensures t & TYPE_VALIDATION == 0 && t & TYPE_PERFORMANCE != 0 ==> MessageType(t) == "Performance"
    ensures t & (TYPE_VALIDATION | TYPE_PERFORMANCE) == 0 && t & TYPE_DEVICE_ADDRESS_BINDING != 0 ==>
      MessageType(t) == "Device Address Binding"
    ensures t & (TYPE_VALIDATION | TYPE_PERFORMANCE | TYPE_DEVICE_ADDRESS_BINDING) == 0 && t & TYPE_GENERAL != 0 ==>
      MessageType(t) == "General"
    ensures t & 0xF == 0 ==> MessageType(t) == ""
  {
  }

  /** `debug_utils_callback`: logs at the level the severity selects, and never aborts the call. */
  function DebugCallback(severity: bv32, t: bv32): (r: CallbackOutcome)
    ensures r.result == VK_FALSE
    ensures r.line.Some? <==> severity in {SEVERITY_VERBOSE, SEVERITY_INFO, SEVERITY_WARNING, SEVERITY_ERROR}
    ensures r.line.Some? ==> r.line.value.messageType == MessageType(t)
    ensures severity == SEVERITY_VERBOSE ==> r.line.value.level == InfoLevel && r.line.value.severity == "Verbose"
    ensures severity == SEVERITY_INFO ==> r.line.value.level == TraceLevel && r.line.value.severity == "Info"
    ensures severity == SEVERITY_WARNING ==> r.line.value.level == WarnLevel && r.line.value.severity == "Warning"
    ensures severity == SEVERITY_ERROR ==> r.line.value.level == ErrorLevel && r.line.value.severity == "Error"
  {
    var typeLabel := MessageType(t);
    var line :=
      if severity == SEVERITY_VERBOSE then Some(LogLine(InfoLevel, "Verbose", typeLabel))
      else if severity == SEVERITY_INFO then Some(LogLine(TraceLevel, "Info", typeLabel))
      else if severity == SEVERITY_WARNING then Some(LogLine(WarnLevel, "Warning", typeLabel))
      else if severity == SEVERITY_ERROR then Some(LogLine(ErrorLevel, "Error", typeLabel))
      else None;
    CallbackOutcome(line, VK_FALSE)
  }

  class InstanceManager {
    const revision: Revision
    var instance: Handle
    var messenger: Handle
    /** `available_devices`, with what the driver reports for each device. */
    var availableDevices: seq<DeviceInfo>
    /** The render revisions' `supported_rendering_devices`; the engine computes it on request. */
    var supportedRenderingDevices: seq<Handle>

    constructor (rev: Revision, inst: Handle, msg: Handle)
      ensures revision == rev && instance == inst && messenger == msg
      ensures availableDevices == [] && supportedRenderingDevices == []
    {
      revision, instance, messenger := rev, inst, msg;
      availableDevices, supportedRenderingDevices := [], [];
    }

    /** `get_available_physical_devices`. */
    function GetAvailablePhysicalDevices(): (r: Result<seq<Handle>>)
      reads this
      ensures r.Err? <==> instance == NULL
      ensures r.Err? ==> r.error == Exception("Not initialized")
      ensures r.Ok? ==> r.value == Handles(availableDevices)
    {
      if instance == NULL then Err(Exception("Not initialized")) else Ok(Handles(availableDevices))
    }

    /** The render revisions' `get_supported_rendering_devices`. */
    function GetSupportedRenderingDevices(): (r: Result<seq<Handle>>)
      reads this
      ensures r.Err? <==> instance == NULL
      ensures r.Err? ==> r.error == Exception("Not initialized")
      ensures r.Ok? ==> r.value == supportedRenderingDevices
    {
      if instance == NULL then Err(Exception("Not initialized")) else Ok(supportedRenderingDevices)
    }

    /** The engine's `get_supported_rendering_devices(extensions, features)`. */
    method SupportedRenderingDevices(extensions: seq<string>, features: Features) returns (supported: seq<Handle>)
      ensures supported == Kept(availableDevices, extensions, features)
    {
      supported := [];
      for d := 0 to |availableDevices|
        invariant supported == Kept(availableDevices[..d], extensions, features)
      {
        assert availableDevices[..d + 1][..d] == availableDevices[..d];
        var device := availableDevices[d];
        var extensionsSupported := ExtensionsSupported(device.extensions, extensions);
        var featuresSupported := FeaturesSupported(features, device.features);
        if extensionsSupported && featuresSupported {
          supported := supported + [device.handle];
        }
      }
      assert availableDevices[..|availableDevices|] == availableDevices;
    }

    /** The end of the render revisions' constructor: both lists move into the members. */
    method StoreDevices(available: seq<DeviceInfo>, supported: seq<Handle>)
      modifies this`availableDevices, this`supportedRenderingDevices
      ensures availableDevices == available && supportedRenderingDevices == supported
    {
      availableDevices := available;
      supportedRenderingDevices := supported;
    }

    /**
     * The same lines in render/src/backend as written: the local
     * `available_devices` shadows the member, so the first move assigns the
     * local to itself and the member keeps its empty value.
     */
    method StoreDevicesAsWritten(available: seq<DeviceInfo>, supported: seq<Handle>)
      modifies this`availableDevices, this`supportedRenderingDevices
      ensures availableDevices == old(availableDevices) && supportedRenderingDevices == supported
    {
      var local := available;
      local := local;
      supportedRenderingDevices := supported;
    }

    /** The destructor: messenger, then instance, each only if present; then everything is cleared. */
    method Destroy(drv: Driver)
      modifies this`instance, this`messenger, this`availableDevices, this`supportedRenderingDevices, drv
      ensures drv.log == old(drv.log) +
        (if old(messenger) != NULL then [DestroyDebugMessenger(old(instance), old(messenger))] else []) +
        (if old(instance) != NULL then [DestroyInstance(old(instance))] else [])
      ensures drv.last == old(drv.last) && drv.fences == old(drv.fences)
      ensures instance == NULL && messenger == NULL && availableDevices == []
      ensures revision != Engine ==> supportedRenderingDevices == []
      ensures revision == Engine ==> supportedRenderingDevices == old(supportedRenderingDevices)
    {
      if messenger != NULL {
        drv.Record(DestroyDebugMessenger(instance, messenger));
      }
      if instance != NULL {
        drv.Record(DestroyInstance(instance));
      }
      availableDevices := [];
      if revision != Engine {
        supportedRenderingDevices := [];
      }
      messenger, instance := NULL, NULL;
    }
  }

  /**
   * What the constructor asks of the driver: an instance with GLFW's
   * extensions, plus the debug-utils extension, the validation layer and a
   * messenger when debug assertions are on. `inst` is the instance's handle.
   */
  function InstanceCalls(glfwExtensions: seq<string>, debugAssertions: bool, inst: Handle): seq<Call>
  {
    if debugAssertions then
      [CreateInstance(glfwExtensions + [DEBUG_UTILS_EXTENSION], [VALIDATION_LAYER], inst), CreateDebugMessenger(inst, inst + 1)]
    else [CreateInstance(glfwExtensions, [], inst)]
  }

  /** The constructor's middle: the extension and layer lists, the instance and the messenger. */
  method CreateInstanceObjects(drv: Driver, glfwExtensions: seq<string>, debugAssertions: bool,
                               instanceExtensions: seq<string>, instanceLayers: seq<string>)
    returns (inst: Handle, msg: Handle)
    modifies drv
    ensures inst == old(drv.last) + 1 && msg == (if debugAssertions then inst + 1 else NULL)
    ensures drv.log == old(drv.log) + InstanceCalls(glfwExtensions, debugAssertions, inst)
  {
    var extensions := glfwExtensions;
    var layers: seq<string> := [];
    if debugAssertions {
      layers := [VALIDATION_LAYER];
      extensions := extensions + [DEBUG_UTILS_EXTENSION];
    }
    // Computed as written and then ignored, as in every revision.
    var unavailableExtensions := UnavailableAsWritten(extensions, instanceExtensions);
    var unavailableLayers := UnavailableAsWritten(layers, instanceLayers);
    inst := drv.Fresh();
    drv.Record(CreateInstance(extensions, layers, inst));
    msg := NULL;
    if debugAssertions {
      msg := drv.Fresh();
      drv.Record(CreateDebugMessenger(inst, msg));
    }
  }

  /**
   * The constructor (`new_shared`) of revision `rev`. The GLFW answers, the
   * instance-level extensions and layers, the debug switch and the
   * enumerated devices are inputs; the instance and, with debug assertions
   * on, the messenger get fresh handles. The render/src/backend revision
   * stores its devices as written; the render/include revision is its
   * corrected form.
   */
  method NewInstanceManager(drv: Driver, rev: Revision, glfwInitialised: bool, vulkanSupported: bool,
                            glfwExtensions: Option<seq<string>>, debugAssertions: bool,
                            instanceExtensions: seq<string>, instanceLayers: seq<string>,
                            devices: seq<DeviceInfo>) returns (r: Result<InstanceManager>)
    modifies drv
    ensures !glfwInitialised ==> r == Err(GlfwMessage("Failed to initialize GLFW"))
    ensures glfwInitialised && !vulkanSupported ==> r == Err(VulkanException(VkResults.ErrorUnknown))
    ensures glfwInitialised && vulkanSupported && glfwExtensions.None? ==>
      r == Err(GlfwMessage("Vulkan is not available on this machine"))
    ensures r.Err? ==> drv.log == old(drv.log)
    ensures glfwInitialised && vulkanSupported && glfwExtensions.Some? ==> r.Ok? && fresh(r.value)
    ensures r.Ok? ==> r.value.revision == rev && r.value.instance == old(drv.last) + 1
    ensures r.Ok? ==> r.value.availableDevices == if rev == RenderBackend then [] else devices
    ensures r.Ok? && rev == Engine ==> r.value.supportedRenderingDevices == []
    ensures r.Ok? && rev != Engine ==>
      r.value.supportedRenderingDevices == Kept(devices, REQUIRED_DEVICE_EXTENSIONS, NO_FEATURES)
    ensures r.Ok? ==> r.value.messenger == (if debugAssertions then old(drv.last) + 2 else NULL)
    ensures r.Ok? ==> drv.log == old(drv.log) + InstanceCalls(glfwExtensions.value, debugAssertions, old(drv.last) + 1)
  {
    if !glfwInitialised {
      return Err(GlfwMessage("Failed to initialize GLFW"));
    }
    if !vulkanSupported {
      return Err(VulkanException(VkResults.ErrorUnknown));
    }
    if glfwExtensions.None? {
      return Err(GlfwMessage("Vulkan is not available on this machine"));
    }
    var inst, msg := CreateInstanceObjects(drv, glfwExtensions.value, debugAssertions, instanceExtensions, instanceLayers);
    var m := new InstanceManager(rev, inst, msg);
    if rev == Engine {
      m.availableDevices := devices;
    } else {
      var supported := FilterByExtensions(devices, REQUIRED_DEVICE_EXTENSIONS);
      if rev == RenderBackend {
        m.StoreDevicesAsWritten(devices, supported);
      } else {
        m.StoreDevices(devices, supported);
      }
    }
    return Ok(m);
  }

  /**
   * What the shadowing costs: whatever devices are present, a successful
   * render/src/backend constructor reports no available device, while the
   * supported devices it filtered from them are kept.
   */
  method ShadowedDevicesAreLost(drv: Driver, glfwExtensions: seq<string>, debugAssertions: bool,
                                instanceExtensions: seq<string>, instanceLayers: seq<string>,
                                devices: seq<DeviceInfo>) returns (r: Result<InstanceManager>)
    modifies drv
    ensures r.Ok? && r.value.GetAvailablePhysicalDevices() == Ok([])
    ensures r.Ok? && r.value.GetSupportedRenderingDevices() == Ok(Kept(devices, REQUIRED_DEVICE_EXTENSIONS, NO_FEATURES))
  {
    r := NewInstanceManager(drv, RenderBackend, true, true, Some(glfwExtensions), debugAssertions,
                            instanceExtensions, instanceLayers, devices);
  }
}
