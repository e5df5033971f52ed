/**
 * The `vk::Result` codes and `result_to_string`, the table that turns a code
 * into the human-readable text used in exception messages.
 *
 * The numeric codes are those of the Vulkan registry (the `VkResult`
 * enumeration); `Unlisted` stands for any other 32-bit value (aliases and
 * codes added by later extensions), for which the switch has no case.
 */
module VkResults {
  import opened Wrappers

  datatype VkResult =
    | Success
    | NotReady
    | Timeout
    | EventSet
    | EventReset
    | Incomplete
    | ErrorOutOfHostMemory
    | ErrorOutOfDeviceMemory
    | ErrorInitializationFailed
    | ErrorDeviceLost
    | ErrorMemoryMapFailed
    | ErrorLayerNotPresent
    | ErrorExtensionNotPresent
    | ErrorFeatureNotPresent
    | ErrorIncompatibleDriver
    | ErrorTooManyObjects
    | ErrorFormatNotSupported
    | ErrorFragmentedPool
    | ErrorUnknown
    | ErrorOutOfPoolMemory
    | ErrorInvalidExternalHandle
    | ErrorFragmentation
    | ErrorInvalidOpaqueCaptureAddress
    | PipelineCompileRequired
    | ErrorSurfaceLostKHR
    | ErrorNativeWindowInUseKHR
    | SuboptimalKHR
    | ErrorOutOfDateKHR
    | ErrorIncompatibleDisplayKHR
    | ErrorValidationFailedEXT
    | ErrorInvalidShaderNV
    | ErrorImageUsageNotSupportedKHR
    | ErrorVideoPictureLayoutNotSupportedKHR
    | ErrorVideoProfileOperationNotSupportedKHR
    | ErrorVideoProfileFormatNotSupportedKHR
    | ErrorVideoProfileCodecNotSupportedKHR
    | ErrorVideoStdVersionNotSupportedKHR
    | ErrorInvalidDrmFormatModifierPlaneLayoutEXT
    | ErrorNotPermittedKHR
    | ErrorFullScreenExclusiveModeLostEXT
    | ThreadIdleKHR
    | ThreadDoneKHR
    | OperationDeferredKHR
    | OperationNotDeferredKHR
    | ErrorInvalidVideoStdParametersKHR
    | ErrorCompressionExhaustedEXT
    | IncompatibleShaderBinaryEXT
    | Unlisted(code: int)

  const INT32_MIN: int := -0x8000_0000
  const INT32_MAX: int := 0x7FFF_FFFF
  const TWO_32: int := 0x1_0000_0000

  /** The registry value of a code, as the 32-bit signed integer `VkResult` stores. */
  function Code(r: VkResult): int
  {
    match r
    case Success => 0
    case NotReady => 1
    case Timeout => 2
    case EventSet => 3
    case EventReset => 4
    case Incomplete => 5
    case ErrorOutOfHostMemory => -1
    case ErrorOutOfDeviceMemory => -2
    case ErrorInitializationFailed => -3
    case ErrorDeviceLost => -4
    case ErrorMemoryMapFailed => -5
    case ErrorLayerNotPresent => -6
    case ErrorExtensionNotPresent => -7
    case ErrorFeatureNotPresent => -8
    case ErrorIncompatibleDriver => -9
    case ErrorTooManyObjects => -10
    case ErrorFormatNotSupported => -11
    case ErrorFragmentedPool => -12
    case ErrorUnknown => -13
    case ErrorOutOfPoolMemory => -1000069000
    case ErrorInvalidExternalHandle => -1000072003
    case ErrorFragmentation => -1000161000
    case ErrorInvalidOpaqueCaptureAddress => -1000257000
    case PipelineCompileRequired => 1000297000
    case ErrorSurfaceLostKHR => -1000000000
    case ErrorNativeWindowInUseKHR => -1000000001
    case SuboptimalKHR => 1000001003
    case ErrorOutOfDateKHR => -1000001004
    case ErrorIncompatibleDisplayKHR => -1000003001
    case ErrorValidationFailedEXT => -1000011001
    case ErrorInvalidShaderNV => -1000012000
    case ErrorImageUsageNotSupportedKHR => -1000023000
    case ErrorVideoPictureLayoutNotSupportedKHR => -1000023001
    case ErrorVideoProfileOperationNotSupportedKHR => -1000023002
    case ErrorVideoProfileFormatNotSupportedKHR => -1000023003
    case ErrorVideoProfileCodecNotSupportedKHR => -1000023004
    case ErrorVideoStdVersionNotSupportedKHR => -1000023005
    case ErrorInvalidDrmFormatModifierPlaneLayoutEXT => -1000158000
    case ErrorNotPermittedKHR => -1000174001
    case ErrorFullScreenExclusiveModeLostEXT => -1000255000
    case ThreadIdleKHR => 1000268000
    case ThreadDoneKHR => 1000268001
    case OperationDeferredKHR => 1000268002
    case OperationNotDeferredKHR => 1000268003
    case ErrorInvalidVideoStdParametersKHR => -1000299000
    case ErrorCompressionExhaustedEXT => -1000338000
    case IncompatibleShaderBinaryEXT => 1000482000
    case Unlisted(c) => c
  }

  /** Decodes a 32-bit signed code; a value without a name becomes `Unlisted`. */
  function FromCode(c: int): VkResult
  {
    if 0 <= c <= 5 then
      if c == 0 then Success
      else if c == 1 then NotReady
      else if c == 2 then Timeout
      else if c == 3 then EventSet
      else if c == 4 then EventReset
      else if c == 5 then Incomplete
      else Unlisted(c)
    else if c > 5 then
      if c == 1000297000 then PipelineCompileRequired
      else if c == 1000001003 then SuboptimalKHR
      else if c == 1000268000 then ThreadIdleKHR
      else if c == 1000268001 then ThreadDoneKHR
      else if c == 1000268002 then OperationDeferredKHR
      else if c == 1000268003 then OperationNotDeferredKHR
      else if c == 1000482000 then IncompatibleShaderBinaryEXT
      else Unlisted(c)
    else if -13 <= c then
      if c == -1 then ErrorOutOfHostMemory
      else if c == -2 then ErrorOutOfDeviceMemory
      else if c == -3 then ErrorInitializationFailed
      else if c == -4 then ErrorDeviceLost
      else if c == -5 then ErrorMemoryMapFailed
      else if c == -6 then ErrorLayerNotPresent
      else if c == -7 then ErrorExtensionNotPresent
      else if c == -8 then ErrorFeatureNotPresent
      else if c == -9 then ErrorIncompatibleDriver
      else if c == -10 then ErrorTooManyObjects
      else if c == -11 then ErrorFormatNotSupported
      else if c == -12 then ErrorFragmentedPool
      else if c == -13 then ErrorUnknown
      else Unlisted(c)
    else if -1000100000 < c then
      if c == -1000069000 then ErrorOutOfPoolMemory
      else if c == -1000072003 then ErrorInvalidExternalHandle
      else if c == -1000000000 then ErrorSurfaceLostKHR
      else if c == -1000000001 then ErrorNativeWindowInUseKHR
      else if c == -1000001004 then ErrorOutOfDateKHR
      else if c == -1000003001 then ErrorIncompatibleDisplayKHR
      else if c == -1000011001 then ErrorValidationFailedEXT
      else if c == -1000012000 then ErrorInvalidShaderNV
      else if c == -1000023000 then ErrorImageUsageNotSupportedKHR
      else if c == -1000023001 then ErrorVideoPictureLayoutNotSupportedKHR
      else if c == -1000023002 then ErrorVideoProfileOperationNotSupportedKHR
      else if c == -1000023003 then ErrorVideoProfileFormatNotSupportedKHR
      else if c == -1000023004 then ErrorVideoProfileCodecNotSupportedKHR
      else if c == -1000023005 then ErrorVideoStdVersionNotSupportedKHR
      else Unlisted(c)
    else
      if c == -1000161000 then ErrorFragmentation
      else if c == -1000257000 then ErrorInvalidOpaqueCaptureAddress
      else if c == -1000158000 then ErrorInvalidDrmFormatModifierPlaneLayoutEXT
      else if c == -1000174001 then ErrorNotPermittedKHR
      else if c == -1000255000 then ErrorFullScreenExclusiveModeLostEXT
      else if c == -1000299000 then ErrorInvalidVideoStdParametersKHR
      else if c == -1000338000 then ErrorCompressionExhaustedEXT
      else Unlisted(c)
  }

  /** Encoding a decoded code gives the code back, named or not. */
  lemma CodeOfFromCode(c: int)
    ensures Code(FromCode(c)) == c
  {
  }

  /** A value is well formed when `Unlisted` is not used for a named code. */
  predicate WellFormed(r: VkResult)
  {
    r.Unlisted? ==> FromCode(r.code).Unlisted?
  }

  /** Decoding the code of a well-formed value gives the value back. */
  lemma FromCodeOfCode(r: VkResult)
    requires WellFormed(r)
    ensures FromCode(Code(r)) == r
  {
    match r
    case Success | NotReady | Timeout | EventSet | EventReset | Incomplete =>
      CodeRoundTripStatus(r);
    case ErrorOutOfHostMemory | ErrorOutOfDeviceMemory | ErrorInitializationFailed | ErrorDeviceLost |
      ErrorMemoryMapFailed | ErrorLayerNotPresent | ErrorExtensionNotPresent =>
      CodeRoundTripCoreErrorsLow(r);
    case ErrorFeatureNotPresent | ErrorIncompatibleDriver | ErrorTooManyObjects | ErrorFormatNotSupported |
      ErrorFragmentedPool | ErrorUnknown =>
      CodeRoundTripCoreErrorsHigh(r);
    case ErrorOutOfPoolMemory | ErrorInvalidExternalHandle | ErrorFragmentation |
      ErrorInvalidOpaqueCaptureAddress | PipelineCompileRequired =>
      CodeRoundTripPromoted(r);
    case ErrorSurfaceLostKHR | ErrorNativeWindowInUseKHR | SuboptimalKHR | ErrorOutOfDateKHR |
      ErrorIncompatibleDisplayKHR | ErrorValidationFailedEXT | ErrorInvalidShaderNV =>
      CodeRoundTripWindowSystem(r);
    case ErrorImageUsageNotSupportedKHR | ErrorVideoPictureLayoutNotSupportedKHR |
      ErrorVideoProfileOperationNotSupportedKHR | ErrorVideoProfileFormatNotSupportedKHR |
      ErrorVideoProfileCodecNotSupportedKHR | ErrorVideoStdVersionNotSupportedKHR |
      ErrorInvalidVideoStdParametersKHR =>
      CodeRoundTripVideo(r);
    case ThreadIdleKHR | ThreadDoneKHR | OperationDeferredKHR | OperationNotDeferredKHR =>
      CodeRoundTripDeferred(r);
    case ErrorInvalidDrmFormatModifierPlaneLayoutEXT | ErrorNotPermittedKHR |
      ErrorFullScreenExclusiveModeLostEXT | ErrorCompressionExhaustedEXT | IncompatibleShaderBinaryEXT =>
      CodeRoundTripOther(r);
    case Unlisted(_) =>
  }

  /** The success and status codes of the core specification. */
  lemma CodeRoundTripStatus(r: VkResult)
    requires r in {Success, NotReady, Timeout, EventSet, EventReset, Incomplete}
    ensures FromCode(Code(r)) == r
  {
  }

  /** Core error codes -1 to -7. */
  lemma CodeRoundTripCoreErrorsLow(r: VkResult)
    requires r in {ErrorOutOfHostMemory, ErrorOutOfDeviceMemory, ErrorInitializationFailed, ErrorDeviceLost,
                 ErrorMemoryMapFailed, ErrorLayerNotPresent, ErrorExtensionNotPresent}
    ensures FromCode(Code(r)) == r
  {
  }

  /** Core error codes -8 to -13. */
  lemma CodeRoundTripCoreErrorsHigh(r: VkResult)
    requires r in {ErrorFeatureNotPresent, ErrorIncompatibleDriver, ErrorTooManyObjects,
                 ErrorFormatNotSupported, ErrorFragmentedPool, ErrorUnknown}
    ensures FromCode(Code(r)) == r
  {
  }

  /** Codes of extensions promoted to core in Vulkan 1.1 to 1.3. */
  lemma CodeRoundTripPromoted(r: VkResult)
    requires r in {ErrorOutOfPoolMemory, ErrorInvalidExternalHandle, ErrorFragmentation,
                 ErrorInvalidOpaqueCaptureAddress, PipelineCompileRequired}
    ensures FromCode(Code(r)) == r
  {
  }

  /** Codes of the surface, swapchain, display, validation and shader extensions. */
  lemma CodeRoundTripWindowSystem(r: VkResult)
    requires r in {ErrorSurfaceLostKHR, ErrorNativeWindowInUseKHR, SuboptimalKHR, ErrorOutOfDateKHR,
                 ErrorIncompatibleDisplayKHR, ErrorValidationFailedEXT, ErrorInvalidShaderNV}
    ensures FromCode(Code(r)) == r
  {
  }

  /** Codes of the video extensions. */
  lemma CodeRoundTripVideo(r: VkResult)
    requires r in {ErrorImageUsageNotSupportedKHR, ErrorVideoPictureLayoutNotSupportedKHR,
                 ErrorVideoProfileOperationNotSupportedKHR, ErrorVideoProfileFormatNotSupportedKHR,
                 ErrorVideoProfileCodecNotSupportedKHR, ErrorVideoStdVersionNotSupportedKHR,
                 ErrorInvalidVideoStdParametersKHR}
    ensures FromCode(Code(r)) == r
  {
  }

  /** Codes of the deferred host operations extension. */
  lemma CodeRoundTripDeferred(r: VkResult)
    requires r in {ThreadIdleKHR, ThreadDoneKHR, OperationDeferredKHR, OperationNotDeferredKHR}
    ensures FromCode(Code(r)) == r
  {
  }

  /** The remaining extension codes. */
  lemma CodeRoundTripOther(r: VkResult)
    requires r in {ErrorInvalidDrmFormatModifierPlaneLayoutEXT, ErrorNotPermittedKHR,
                 ErrorFullScreenExclusiveModeLostEXT, ErrorCompressionExhaustedEXT, IncompatibleShaderBinaryEXT}
    ensures FromCode(Code(r)) == r
  {
  }

  /**
   * The codes the switch has a case for; `eErrorFullScreenExclusiveModeLostEXT`
   * has one only when the Win32 platform is enabled.
   */
  predicate Listed(r: VkResult, win32: bool)
  {
    !r.Unlisted? && (r == ErrorFullScreenExclusiveModeLostEXT ==> win32)
  }

  /** `result_to_string(vk::Result)`; falling off the switch is excluded. */
  function ResultToString(r: VkResult, win32: bool): (s: string)
    requires Listed(r, win32)
  {
    match r
    case Success => "Success"
    case NotReady => "Not Ready"
    case Timeout => "Timeout"
    case EventSet => "Event Set"
    case EventReset => "Event Reset"
    case Incomplete => "Incomplete"
    case ErrorOutOfHostMemory => "Host Out Of Memory"
    case ErrorOutOfDeviceMemory => "Device Out Of Memory"
    case ErrorInitializationFailed => "Initialization Failed"
    case ErrorDeviceLost => "Device Lost"
    case ErrorMemoryMapFailed => "Memory Map Failed"
    case ErrorLayerNotPresent => "Layer Not Present"
    case ErrorExtensionNotPresent => "Extension Not Present"
    case ErrorFeatureNotPresent => "Feature Not Present"
    case ErrorIncompatibleDriver => "Incompatible Driver"
    case ErrorTooManyObjects => "Too Many Objects"
    case ErrorFormatNotSupported => "Unsupported Format"
    case ErrorFragmentedPool => "Fragmented Pool"
    case ErrorUnknown => "Unknown"
    case ErrorOutOfPoolMemory => "Out Of Pool Memory"
    case ErrorInvalidExternalHandle => "Invalid External Handle"
    case ErrorFragmentation => "Fragmentation"
    case ErrorInvalidOpaqueCaptureAddress => "Invalid Opaque Capture Address"
    case PipelineCompileRequired => "Pipeline Compilation Required"
    case ErrorSurfaceLostKHR => "Surface Lost"
    case ErrorNativeWindowInUseKHR => "Native Window In Use"
    case SuboptimalKHR => "Suboptimal"
    case ErrorOutOfDateKHR => "Out Of Date"
    case ErrorIncompatibleDisplayKHR => "Incompatible Display"
    case ErrorValidationFailedEXT => "Validation Failed"
    case ErrorInvalidShaderNV => "Invalid Shader (NV)"
    case ErrorImageUsageNotSupportedKHR => "Image Usage Not Supported"
    case ErrorVideoPictureLayoutNotSupportedKHR => "Video Picture Layout Not Supported"
    case ErrorVideoProfileOperationNotSupportedKHR => "Video Profile Operation Not Supported"
    case ErrorVideoProfileFormatNotSupportedKHR => "Video Profile Format Not Supported"
    case ErrorVideoProfileCodecNotSupportedKHR => "Video Profile Codec Not Supported"
    case ErrorVideoStdVersionNotSupportedKHR => "Video Standard Version Not Supported"
    case ErrorInvalidDrmFormatModifierPlaneLayoutEXT => "Invalid DRM Format Modifier Plane Layout"
    case ErrorNotPermittedKHR => "Not Permitted"
    case ErrorFullScreenExclusiveModeLostEXT => "Exclusive Full Screen Mode Lost"
    case ThreadIdleKHR => "Thread Idle"
    case ThreadDoneKHR => "Thread Done"
    case OperationDeferredKHR => "Operation Deferred"
    case OperationNotDeferredKHR => "Operation Not Deferred"
    case ErrorInvalidVideoStdParametersKHR => "Invalid Video Standard Parameters"
    case ErrorCompressionExhaustedEXT => "Compression Exhausted"
    case IncompatibleShaderBinaryEXT => "Incompatible Shader Binary"
  }

  /** Reads a message of the table back; the partner that makes it injective. */
  function StringToResult(s: string): Option<VkResult>
  {
    if |s| == 7 then
      if s == "Success" then Some(Success)
      else if s == "Timeout" then Some(Timeout)
      else if s == "Unknown" then Some(ErrorUnknown)
      else None
    else if |s| == 9 then
      if s == "Not Ready" then Some(NotReady)
      else if s == "Event Set" then Some(EventSet)
      else None
    else if |s| == 10 then
      if s == "Incomplete" then Some(Incomplete)
      else if s == "Suboptimal" then Some(SuboptimalKHR)
      else None
    else if |s| == 11 then
      if s == "Event Reset" then Some(EventReset)
      else if s == "Device Lost" then Some(ErrorDeviceLost)
      else if s == "Out Of Date" then Some(ErrorOutOfDateKHR)
      else if s == "Thread Idle" then Some(ThreadIdleKHR)
      else if s == "Thread Done" then Some(ThreadDoneKHR)
      else None
    else if |s| == 12 then
      if s == "Surface Lost" then Some(ErrorSurfaceLostKHR)
      else None
    else if |s| == 13 then
      if s == "Fragmentation" then Some(ErrorFragmentation)
      else if s == "Not Permitted" then Some(ErrorNotPermittedKHR)
      else None
    else if |s| == 15 then
      if s == "Fragmented Pool" then Some(ErrorFragmentedPool)
      else None
    else if |s| == 16 then
      if s == "Too Many Objects" then Some(ErrorTooManyObjects)
      else None
    else if |s| == 17 then
      if s == "Memory Map Failed" then Some(ErrorMemoryMapFailed)
      else if s == "Layer Not Present" then Some(ErrorLayerNotPresent)
      else if s == "Validation Failed" then Some(ErrorValidationFailedEXT)
      else None
    else if |s| == 18 then
      if s == "Host Out Of Memory" then Some(ErrorOutOfHostMemory)
      else if s == "Unsupported Format" then Some(ErrorFormatNotSupported)
      else if s == "Out Of Pool Memory" then Some(ErrorOutOfPoolMemory)
      else if s == "Operation Deferred" then Some(OperationDeferredKHR)
      else None
    else if |s| == 19 then
      if s == "Feature Not Present" then Some(ErrorFeatureNotPresent)
      else if s == "Incompatible Driver" then Some(ErrorIncompatibleDriver)
      else if s == "Invalid Shader (NV)" then Some(ErrorInvalidShaderNV)
      else None
    else if |s| == 20 then
      if s == "Device Out Of Memory" then Some(ErrorOutOfDeviceMemory)
      else if s == "Native Window In Use" then Some(ErrorNativeWindowInUseKHR)
      else if s == "Incompatible Display" then Some(ErrorIncompatibleDisplayKHR)
      else None
    else if |s| == 21 then
      if s == "Initialization Failed" then Some(ErrorInitializationFailed)
      else if s == "Extension Not Present" then Some(ErrorExtensionNotPresent)
      else if s == "Compression Exhausted" then Some(ErrorCompressionExhaustedEXT)
      else None
    else if |s| == 22 then
      if s == "Operation Not Deferred" then Some(OperationNotDeferredKHR)
      else None
    else if |s| == 23 then
      if s == "Invalid External Handle" then Some(ErrorInvalidExternalHandle)
      else None
    else if |s| == 25 then
      if s == "Image Usage Not Supported" then Some(ErrorImageUsageNotSupportedKHR)
      else None
    else if |s| == 26 then
      if s == "Incompatible Shader Binary" then Some(IncompatibleShaderBinaryEXT)
      else None
    else if |s| == 29 then
      if s == "Pipeline Compilation Required" then Some(PipelineCompileRequired)
      else None
    else if |s| == 30 then
      if s == "Invalid Opaque Capture Address" then Some(ErrorInvalidOpaqueCaptureAddress)
      else None
    else if |s| == 31 then
      if s == "Exclusive Full Screen Mode Lost" then Some(ErrorFullScreenExclusiveModeLostEXT)
      else None
    else if |s| == 33 then
      if s == "Video Profile Codec Not Supported" then Some(ErrorVideoProfileCodecNotSupportedKHR)
      else if s == "Invalid Video Standard Parameters" then Some(ErrorInvalidVideoStdParametersKHR)
      else None
    else if |s| == 34 then
      if s == "Video Picture Layout Not Supported" then Some(ErrorVideoPictureLayoutNotSupportedKHR)
      else if s == "Video Profile Format Not Supported" then Some(ErrorVideoProfileFormatNotSupportedKHR)
      else None
    else if |s| == 36 then
      if s == "Video Standard Version Not Supported" then Some(ErrorVideoStdVersionNotSupportedKHR)
      else None
    else if |s| == 37 then
      if s == "Video Profile Operation Not Supported" then Some(ErrorVideoProfileOperationNotSupportedKHR)
      else None
    else if |s| == 40 then
      if s == "Invalid DRM Format Modifier Plane Layout" then Some(ErrorInvalidDrmFormatModifierPlaneLayoutEXT)
      else None
    else None
  }

  /** Every message of the table reads back as the code it came from. */
  lemma StringRoundTrip(r: VkResult, win32: bool)
    requires Listed(r, win32)
    ensures StringToResult(ResultToString(r, win32)) == Some(r)
  {
    match r
    case Success | NotReady | Timeout | EventSet | EventReset | Incomplete =>
      StringRoundTripStatus(r, win32);
    case ErrorOutOfHostMemory | ErrorOutOfDeviceMemory | ErrorInitializationFailed | ErrorDeviceLost |
      ErrorMemoryMapFailed | ErrorLayerNotPresent | ErrorExtensionNotPresent =>
      StringRoundTripCoreErrorsLow(r, win32);
    case ErrorFeatureNotPresent | ErrorIncompatibleDriver | ErrorTooManyObjects | ErrorFormatNotSupported |
      ErrorFragmentedPool | ErrorUnknown =>
      StringRoundTripCoreErrorsHigh(r, win32);
    case ErrorOutOfPoolMemory | ErrorInvalidExternalHandle | ErrorFragmentation |
      ErrorInvalidOpaqueCaptureAddress | PipelineCompileRequired =>
      StringRoundTripPromoted(r, win32);
    case ErrorSurfaceLostKHR | ErrorNativeWindowInUseKHR | SuboptimalKHR | ErrorOutOfDateKHR =>
      StringRoundTripWindowSystem(r, win32);
    case ErrorIncompatibleDisplayKHR | ErrorValidationFailedEXT | ErrorInvalidShaderNV =>
      StringRoundTripDisplay(r, win32);
    case ErrorImageUsageNotSupportedKHR | ErrorVideoPictureLayoutNotSupportedKHR |
      ErrorVideoProfileOperationNotSupportedKHR =>
      StringRoundTripVideoLayout(r, win32);
    case ErrorVideoProfileFormatNotSupportedKHR | ErrorVideoProfileCodecNotSupportedKHR |
      ErrorVideoStdVersionNotSupportedKHR | ErrorInvalidVideoStdParametersKHR =>
      StringRoundTripVideoProfile(r, win32);
    case ThreadIdleKHR | ThreadDoneKHR =>
      StringRoundTripThread(r, win32);
    case OperationDeferredKHR | OperationNotDeferredKHR =>
      StringRoundTripDeferred(r, win32);
    case ErrorInvalidDrmFormatModifierPlaneLayoutEXT | ErrorNotPermittedKHR =>
      StringRoundTripModifier(r, win32);
    case ErrorFullScreenExclusiveModeLostEXT | ErrorCompressionExhaustedEXT | IncompatibleShaderBinaryEXT =>
      StringRoundTripOther(r, win32);
    case Unlisted(_) =>
  }

  /** The success and status codes of the core specification. */
  lemma StringRoundTripStatus(r: VkResult, win32: bool)
    requires r in {Success, NotReady, Timeout, EventSet, EventReset, Incomplete}
    requires Listed(r, win32)
    ensures StringToResult(ResultToString(r, win32)) == Some(r)
  {
  }

  /** Core error codes -1 to -7. */
  lemma StringRoundTripCoreErrorsLow(r: VkResult, win32: bool)
    requires r in {ErrorOutOfHostMemory, ErrorOutOfDeviceMemory, ErrorInitializationFailed, ErrorDeviceLost,
                 ErrorMemoryMapFailed, ErrorLayerNotPresent, ErrorExtensionNotPresent}
    requires Listed(r, win32)
    ensures StringToResult(ResultToString(r, win32)) == Some(r)
  {
  }

  /** Core error codes -8 to -13. */
  lemma StringRoundTripCoreErrorsHigh(r: VkResult, win32: bool)
    requires r in {ErrorFeatureNotPresent, ErrorIncompatibleDriver, ErrorTooManyObjects,
                 ErrorFormatNotSupported, ErrorFragmentedPool, ErrorUnknown}
    requires Listed(r, win32)
    ensures StringToResult(ResultToString(r, win32)) == Some(r)
  {
  }

  /** Codes of extensions promoted to core in Vulkan 1.1 to 1.3. */
  lemma StringRoundTripPromoted(r: VkResult, win32: bool)
    requires r in {ErrorOutOfPoolMemory, ErrorInvalidExternalHandle, ErrorFragmentation,
                 ErrorInvalidOpaqueCaptureAddress, PipelineCompileRequired}
    requires Listed(r, win32)
    ensures StringToResult(ResultToString(r, win32)) == Some(r)
  {
  }

  /** Codes of the surface and swapchain extensions. */
  lemma StringRoundTripWindowSystem(r: VkResult, win32: bool)
    requires r in {ErrorSurfaceLostKHR, ErrorNativeWindowInUseKHR, SuboptimalKHR, ErrorOutOfDateKHR}
    requires Listed(r, win32)
    ensures StringToResult(ResultToString(r, win32)) == Some(r)
  {
  }

  /** Codes of the display, validation and shader extensions. */
  lemma StringRoundTripDisplay(r: VkResult, win32: bool)
    requires r in {ErrorIncompatibleDisplayKHR, ErrorValidationFailedEXT, ErrorInvalidShaderNV}
    requires Listed(r, win32)
    ensures StringToResult(ResultToString(r, win32)) == Some(r)
  {
  }

  /** Codes of the video extensions about image usage, picture layouts and operations. */
  lemma StringRoundTripVideoLayout(r: VkResult, win32: bool)
    requires r in {ErrorImageUsageNotSupportedKHR, ErrorVideoPictureLayoutNotSupportedKHR,
                 ErrorVideoProfileOperationNotSupportedKHR}
    requires Listed(r, win32)
    ensures StringToResult(ResultToString(r, win32)) == Some(r)
  {
  }

  /** Codes of the video extensions about profiles and parameters. */
  lemma StringRoundTripVideoProfile(r: VkResult, win32: bool)
    requires r in {ErrorVideoProfileFormatNotSupportedKHR, ErrorVideoProfileCodecNotSupportedKHR,
                 ErrorVideoStdVersionNotSupportedKHR, ErrorInvalidVideoStdParametersKHR}
    requires Listed(r, win32)
    ensures StringToResult(ResultToString(r, win32)) == Some(r)
  {
  }

  /** Thread codes of the deferred host operations extension. */
  lemma StringRoundTripThread(r: VkResult, win32: bool)
    requires r in {ThreadIdleKHR, ThreadDoneKHR}
    requires Listed(r, win32)
    ensures StringToResult(ResultToString(r, win32)) == Some(r)
  {
  }

  /** Operation codes of the deferred host operations extension. */
  lemma StringRoundTripDeferred(r: VkResult, win32: bool)
    requires r in {OperationDeferredKHR, OperationNotDeferredKHR}
    requires Listed(r, win32)
    ensures StringToResult(ResultToString(r, win32)) == Some(r)
  {
  }

  /** Codes of the format modifier and global priority extensions. */
  lemma StringRoundTripModifier(r: VkResult, win32: bool)
    requires r in {ErrorInvalidDrmFormatModifierPlaneLayoutEXT, ErrorNotPermittedKHR}
    requires Listed(r, win32)
    ensures StringToResult(ResultToString(r, win32)) == Some(r)
  {
  }

  /** The remaining extension codes. */
  lemma StringRoundTripOther(r: VkResult, win32: bool)
    requires r in {ErrorFullScreenExclusiveModeLostEXT, ErrorCompressionExhaustedEXT, IncompatibleShaderBinaryEXT}
    requires Listed(r, win32)
    ensures StringToResult(ResultToString(r, win32)) == Some(r)
  {
  }

  /** No two listed codes share a message. */
  lemma ResultToStringInjective(a: VkResult, b: VkResult, win32: bool)
    requires Listed(a, win32) && Listed(b, win32)
    requires ResultToString(a, win32) == ResultToString(b, win32)
    ensures a == b
  {
    StringRoundTrip(a, win32);
    StringRoundTrip(b, win32);
  }

  /** The cast `vk::Result(uint32_t)`: the bit pattern read as a signed 32-bit value. */
  function AsInt32(u: int): (c: int)
    requires 0 <= u < TWO_32
    ensures INT32_MIN <= c <= INT32_MAX
    ensures (c - u) % TWO_32 == 0
  {
    if u > INT32_MAX then u - TWO_32 else u
  }

  /** The unsigned bit pattern of a signed 32-bit code. */
  function AsUint32(c: int): (u: int)
    requires INT32_MIN <= c <= INT32_MAX
    ensures 0 <= u < TWO_32
    ensures AsInt32(u) == c
  {
    if c < 0 then c + TWO_32 else c
  }

  /** `result_to_string(uint32_t)`. */
  function ResultToStringU32(code: int, win32: bool): (s: string)
    requires 0 <= code < TWO_32
    requires Listed(FromCode(AsInt32(code)), win32)
  {
    ResultToString(FromCode(AsInt32(code)), win32)
  }

  /** The `uint32_t` overload agrees with the enum overload on the code's bit pattern. */
  lemma U32OverloadAgrees(r: VkResult, win32: bool)
    requires Listed(r, win32)
    ensures INT32_MIN <= Code(r) <= INT32_MAX
    ensures Listed(FromCode(AsInt32(AsUint32(Code(r)))), win32)
    ensures ResultToStringU32(AsUint32(Code(r)), win32) == ResultToString(r, win32)
  {
    FromCodeOfCode(r);
  }
}
