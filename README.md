# A verified model of the Vulkan rendering engine's core

This project models in Dafny the sequential core of a small Vulkan rendering
engine (the `engine/` tree), of its older revision (the `render/` tree) and of
its two shader tools (`tools/bintool`, `tools/compshdr`), and proves
properties of that model. It covers:

- the `vk::Result` to text table and its `uint32_t` overload (`VkResults`);
- the hex-dump formatters of `bintool` and `compshdr` over in-memory bytes
  (`Bytes`, `HexText`, `Bintool`, `Compshdr`);
- the 16-bit `FieldType` reflection bitfield, on `bv16` (`FieldTypes`);
- surface-format, present-mode, extent, image-count and physical-device
  selection, and the sharing-mode choice (`Selection`). The `render/`
  revision's copies of these policies are identical, so they are modelled
  once, citing the engine's lines;
- the swapchain manager's validity state machine (`Swapchain`);
- queue-family choice, queue-create set, format probe, single-time command
  buffers and the one-allocator-per-device rule (`Devices`);
- the instance manager's device filter, the unavailable-name searches, the
  debug-callback mapping, its getters and teardown (`Instances`);
- buffer and host-visible allocation wrappers, with move and swap
  (`Allocation`), and image allocations with their layout barriers (`Images`);
- the `GpuSync` triple of two semaphores and a fence (`Sync`);
- the backend's two-slot frame ring, `begin_draw` / `end_draw` and
  `initialize_frame_sets` (`Backend`);
- the chunked staging upload of `load` and the staging buffer (`Staging`);
- the older single-slot render manager: `render_frame`, swapchain and image
  creation, framebuffers and `clean_pipeline` (`Render`).

Everything foreign is an oracle. The `Vk.Driver` class stands for Vulkan,
VMA and GLFW. It hands out fresh handles, with 0 as the null handle, and
keeps a log of every call the model makes. It also tracks which fences are
signalled. Each answer the driver gives (a result code, the images of a
swapchain, a surface's capabilities) is an input of the method that would
have asked for it. Ordering properties ("the fence is reset only after a
successful acquire", "framebuffers are destroyed before image views") are
stated on that log. A C++ exception becomes the `Err` half of
`Common.Result`, carrying the exception class and its result code.

Code that changes objects step by step is modelled as classes whose methods
declare what they modify. Pure policies and encoders are modelled as
functions. Each is tied by lemmas to an independent characterisation: a
decoder, a first-match predicate or a tiling.
## Model

Functions that only compute a value have no row of their own. The rows of
the lemmas and methods whose contracts are about them state what they mean:

- `VkResults.Code` and `FromCode`: `CodeOfFromCode` and `FromCodeOfCode`. `ResultToString`: `StringRoundTrip` and `ResultToStringInjective`. `ResultToStringU32`: `U32OverloadAgrees`.
- `FieldTypes.And`, `Or`, `Xor` and `Not`: `AndInBoth`, `AndKeepsCommon`, `OrContainsBoth`, `OrAddsNothing`, `XorBits`, `NotBits`, `NotInvolution` and `XorInverse`.
- `Compshdr.IsBinary`: `CompileTarget`.
- `HexText.Layout`, `ByteDump` and `WordDump`: `LayoutRoundTrip`, `LayoutEndsInToken`, `LayoutEndsInSeparator`, `ByteDumpRoundTrip`, `WordDumpRoundTrip` and `DumpsEndInADigit`.
- `Bytes.LeWord` and `LeBytes`: `LeWordOfLeBytes` and `LeBytesOfLeWord`.
- `Devices.QueueIndicesOf`: `GetGpQueueIndices`, `FirstCapableFamilyServesBoth` and `QueueIndicesAreCapable`.
- `Sync.SyncTeardown`: `Sync.GpuSync.Destroy` and `Sync.DestroyTwice`.
- `Instances.Kept`: `KeptIff`, `KeptIsSubsequence` and `InstanceManager.SupportedRenderingDevices`. `Instances.MessageType`: `MessageTypePrecedence`. `Instances.InstanceCalls`: `CreateInstanceObjects` and `NewInstanceManager`.
- `Allocation.HostVisibleCalls`: `BuildHostVisible`, `NewHostVisible` and `EveryCreateIsRequested`.
- `Images.ImageCalls`: `NewImageAllocation`. `Images.TransitionCalls`: `RecordTransition`.
- `Backend.AcquireCalls` and `BeginDrawCalls`: `ResetOnlyAfterAcquire`, `RecreatedOnlyWhenCaught`, and the `BeginDraw` and `AcquireFrame` methods of both kinds. `PresentCalls`: `SubmitAndPresent`. `EndDrawCalls`, `PresentHandled` and `Recreates`: `VulkanBackend.EndDraw`.
- `Staging.Chunks`: `ChunksTile`, `ChunksFull` and `ChunksWithin`. `Staging.TypedSource` and `ReadsPastEnd`: `TypedSourceBounds` and `TypedUploadOverruns`. `Staging.UploadCalls`: `UploadStep` and `StagingBuffer.UploadRegion`.
- `Render.Creations`: `CreationsShape`. `Render.Destructions`: `DestructionsShape` and `DestructionsKeepPipelines`. `Render.CleanCalls`: `CleanDestroysPipelineOnce` and the two double-clean lemmas. `Render.FrameCalls` and `FrameOutcome`: `FrameOkIffAllSucceed`, `OutcomeSteps`, `ResetPrecedesAcquire`, `FailureAfterResetStrandsFence` and `RenderManager.RenderFrame`. `RenderManager.Handles`, the handles one frame uses: `RenderManager.RenderFrame`.

| member | source | states |
|---|---|---|
| VkResults.CodeOfFromCode | render/src/vk_result_to_string.cpp:104-106 | reading any signed 32-bit code as a `vk::Result` and taking its value back gives the same code, named or not |
| VkResults.FromCodeOfCode | render/src/vk_result_to_string.cpp:3-102 | every named result (and every unnamed code) read back from its registry value is itself, so the switch's cases are distinct values |
| VkResults.StringRoundTrip | render/src/vk_result_to_string.cpp:3-102 | every code the switch lists has a message from which the code can be recovered |
| VkResults.ResultToStringInjective | render/src/vk_result_to_string.cpp:3-102 | no two listed codes share a message, so a message names its code |
| VkResults.AsInt32 | render/src/vk_result_to_string.cpp:104-106 | the cast of a `uint32_t` to `vk::Result` yields a signed 32-bit value congruent to it modulo 2^32 |
| VkResults.AsUint32 | render/src/vk_result_to_string.cpp:104-106 | every signed code has an unsigned bit pattern that the cast maps back to it |
| VkResults.U32OverloadAgrees | render/src/vk_result_to_string.cpp:104-106 | the `uint32_t` overload on a code's bit pattern returns the enum overload's message |
| Bytes.LeWordOfLeBytes | tools/bintool/src/main.rs:35 | splitting a word into its four little-endian bytes and joining them with `from_le_bytes` gives the word back |
| Bytes.LeBytesOfLeWord | tools/bintool/src/main.rs:35 | joining four bytes with `from_le_bytes` and splitting the word again gives the bytes back, in order |
| Bytes.Words | tools/bintool/src/main.rs:34-35 | `chunks_exact(4)` yields one word per complete group of four bytes |
| Bytes.WordAt | tools/bintool/src/main.rs:34-35 | word `k` is made of bytes `4k` to `4k + 3`, the first of them least significant |
| Bytes.WordsOfWordBytes | tools/compshdr/src/main.rs:36 | reading the in-memory bytes of a word sequence as little-endian words gives the words back |
| HexText.HexDigits | tools/bintool/src/main.rs:37-51 | `{:0nX}` writes exactly `n` upper-case hexadecimal digits |
| HexText.ParseHexDigits | tools/bintool/src/main.rs:37-51 | the `n` digits of a value below 16^n read back as the value, so the formatting loses nothing |
| HexText.ByteToken | tools/bintool/src/main.rs:47 | a byte is written as `0x` and two digits |
| HexText.WordToken | tools/bintool/src/main.rs:37 | a word is written as `0x` and eight digits |
| HexText.Separator | tools/bintool/src/main.rs:36-42 | after token `i` nothing is written exactly when it is the last the loop counts, a line break exactly after every `perLine`-th other token, and `, ` otherwise |
| HexText.LayoutRoundTrip | tools/bintool/src/main.rs:36-42 | a token list laid out with the "line break after every `perLine`-th token" rule reads back as the values, whatever the loop believes the count is |
| HexText.ConcatRoundTrip | tools/compshdr/src/main.rs:25-27 | tokens written with no separator read back as the values |
| HexText.LayoutEndsInToken | tools/bintool/src/main.rs:36-37 | when the last-token test uses the true count, the text ends in a digit |
| HexText.LayoutEndsInSeparator | tools/compshdr/src/main.rs:37-46 | when the last-token test uses a count larger than the true one, every token, the last included, is followed by a separator |
| HexText.ByteDumpRoundTrip | tools/bintool/src/main.rs:45-53 | the byte dump reads back as the file's bytes |
| HexText.WordDumpRoundTrip | tools/bintool/src/main.rs:34-43 | the word dump reads back as the words |
| HexText.DumpsEndInADigit | tools/bintool/src/main.rs:36-53 | neither dump ends in a separator, and an empty file prints nothing |
| Bintool.Run | tools/bintool/src/main.rs:19-59 | a missing file, a failed read and (with `--as-u32`) a length not a multiple of four each return their error with nothing printed; otherwise the byte or word dump of the contents is printed |
| Bintool.PrintWords | tools/bintool/src/main.rs:34-43 | the `--as-u32` loop prints exactly the word dump of the file's little-endian words |
| Bintool.PrintBytes | tools/bintool/src/main.rs:45-53 | the default loop prints exactly the byte dump, eight bytes per line |
| Compshdr.CompileTarget | tools/compshdr/src/main.rs:89-99 | assembly text is requested exactly for the assembly output mode (`is_binary`, cli.rs lines 38-40) |
| Compshdr.WriteAsBinary | tools/compshdr/src/main.rs:14-19 | the artifact's bytes are written unchanged |
| Compshdr.WriteAsU8 | tools/compshdr/src/main.rs:21-30 | the bytes are written as `0x{:02X}` tokens with no separator between them |
| Compshdr.WriteAsU32AsWritten | tools/compshdr/src/main.rs:32-50 | the words are laid out four per line, with the last-token test made against `data.len() * 4` |
| Compshdr.WriteAsU32 | tools/compshdr/src/main.rs:32-50 | corrected: the words are laid out exactly as `bintool --as-u32` prints them |
| Compshdr.WriteAsAsm | tools/compshdr/src/main.rs:52-69 | the bytes are laid out exactly as `bintool` prints them, eight per line |
| Compshdr.Write | tools/compshdr/src/main.rs:101-116 | each output mode dispatches to its writer: raw bytes, byte list, the as-written word layout of the little-endian words (last-token test against four times the word count), or byte dump |
| Compshdr.U8ListRoundTrip | tools/compshdr/src/main.rs:21-30 | the byte list reads back as the artifact even without separators, because every token is four characters |
| Compshdr.U32AsWrittenEndsInSeparator | tools/compshdr/src/main.rs:37-46 | as written, every non-empty word list ends in `, ` or `,\n` |
| Compshdr.U32AsWrittenSingleWord | tools/compshdr/src/main.rs:37-46 | a single-input witness: the word 0 is written as `0x00000000, ` as written and as `0x00000000` by the corrected writer |
| Compshdr.U32WritersAgreeOnWords | tools/compshdr/src/main.rs:32-50 | both word writers write the same words in the same order; only the ending differs |
| FieldTypes.AsBool | engine/include/reflection/fieldtype.hpp:153 | a field type converts to true exactly when it is not `None` |
| FieldTypes.Contains | engine/include/reflection/fieldtype.hpp:159 | `t.contains(bits)` holds exactly when OR-ing `bits` into `t` leaves `t` unchanged |
| FieldTypes.ZeroNamesAlwaysContained | engine/include/reflection/fieldtype.hpp:26-94 | the all-zero names (`None`, `Vec1`, `Mat_1x`, `Mat_x1`, `Bits8`) are contained in every type and convert to false |
| FieldTypes.ContainsUnion | engine/include/reflection/fieldtype.hpp:159-179 | a type contains `a \| b` exactly when it contains both `a` and `b` |
| FieldTypes.SizedTypeValues | engine/include/reflection/fieldtype.hpp:110-138 | the sized integer, unsigned and float types have the values their `Bits \| kind` definitions give, `CString` equals `String`, and `CxxString` is `Bits16 \| String` |
| FieldTypes.RegionsDisjoint | engine/include/reflection/fieldtype.hpp:32-111 | the kind, width, vector and matrix-row bit regions do not overlap |
| FieldTypes.MaskStripsShape | runtime/ObjectMutator.cpp:44 | masking a composed type with `TypeBits \| WidthBits` keeps exactly its sized scalar type, and masking with the vector bits keeps exactly its shape |
| FieldTypes.ShapeContainment | runtime/ObjectMutator.cpp:63-68 | `contains` does not match shapes exactly: a `Vec4` type also contains `Vec2` and `Vec3`, while `Vec3` and `Vec2` contain neither of the other two |
| FieldTypes.NotInvolution | engine/include/reflection/fieldtype.hpp:162-163 | `~` applied twice gives the type back, because the result is truncated to 16 bits |
| FieldTypes.XorInverse | engine/include/reflection/fieldtype.hpp:165-179 | `^ b` undoes itself, and clearing bits with `& ~b` equals `^` with the common bits |
| FieldTypes.AndInBoth | engine/include/reflection/fieldtype.hpp:165-179 | `l & r` is contained in both `l` and `r` |
| FieldTypes.AndKeepsCommon | engine/include/reflection/fieldtype.hpp:165-179 | `l & r` contains every type both `l` and `r` contain |
| FieldTypes.OrContainsBoth | engine/include/reflection/fieldtype.hpp:165-179 | `l \| r` contains both `l` and `r` |
| FieldTypes.OrAddsNothing | engine/include/reflection/fieldtype.hpp:165-179 | the bits `l \| r` has outside `l` are exactly those of `r` outside `l` |
| FieldTypes.NotBits | engine/include/reflection/fieldtype.hpp:162-163 | `~v` shares no bit with `v` and together they cover all 16 bits |
| FieldTypes.XorBits | engine/include/reflection/fieldtype.hpp:165-179 | `l ^ r` has exactly the bits set in one operand and not the other |
| Selection.SelectFormat | engine/src/backend/vulkan_backend.cpp:117-124 | the sRGB BGRA8 format in the non-linear sRGB colour space when the surface offers it, otherwise the first format offered |
| Selection.SelectPresentMode | engine/src/backend/vulkan_backend.cpp:126-133 | mailbox exactly when it is offered, FIFO otherwise |
| Selection.Clamp | engine/src/backend/vulkan_backend.cpp:144-145 | `std::clamp` keeps a value already within the bounds, raises a smaller one to the lower bound and lowers a larger one to the upper bound |
| Selection.SelectExtent | engine/src/backend/vulkan_backend.cpp:135-148 | the surface's current extent unless its width is `0xFFFFFFFF`; then the framebuffer size clamped into the surface's limits, edge by edge |
| Selection.ChosenExtentWithinLimits | engine/src/backend/vulkan_backend.cpp:137-147 | when the surface leaves the extent open, the chosen extent lies within the limits and equals the framebuffer size wherever that already fits |
| Selection.ImageCount | engine/src/backend/vulkan_backend.cpp:276-278 | one image more than the minimum, at most the maximum when one is reported (0 means no limit), computed in wrapping 32-bit arithmetic |
| Selection.ImageCountWraps | engine/src/backend/vulkan_backend.cpp:276-278 | a single-input witness of the wrap-around: a surface reporting the largest 32-bit minimum and no maximum gets an image count of 0 |
| Selection.Configure | engine/src/backend/vulkan_backend.cpp:272-290 | the configuration combines the chosen format, present mode, extent and image count with exactly one layer (the render manager builds the same at render/src/render_manager.cpp lines 587-598) |
| Selection.SharingFor | engine/src/backend/swapchain.cpp:133-147 | the images are exclusive with no family list when the graphics and present families coincide, and concurrent between the two families otherwise |
| Selection.Score | engine/src/backend/vulkan_backend.cpp:95-96 | a device scores at least its largest 2D image size, and a discrete device at least 100000 |
| Selection.ChoiceUnique | engine/src/backend/vulkan_backend.cpp:88-100 | at most one device meets the loop's rule of first device with the strictly highest positive score |
| Selection.ChoiceOrNone | engine/src/backend/vulkan_backend.cpp:88-102 | a chosen device and "no device scores" exclude each other |
| Selection.SelectPhysicalDevice | engine/src/backend/vulkan_backend.cpp:79-103 | an empty list throws; otherwise the result is the chosen device's handle, or the null handle when no considered device scores above 0 |
| Selection.ChooseRenderingDevice | engine/src/backend/vulkan_backend.cpp:164-166 | a null selection becomes the "No supported devices available" error, so a success is always a chosen, non-null device |
| Selection.Supported | engine/src/backend/swapchain.cpp:17-29 | a failing format count query throws its result, then a failing mode count query; otherwise a device is supported when it offers at least one format and one present mode |
| Selection.SupportedIsConsidered | engine/src/backend/swapchain.cpp:17-29 | every supported device passes the selection loop's filter (vulkan_backend.cpp lines 92-93), but a device with formats and no present modes passes the filter without being supported |
| Swapchain.TeardownShape | engine/src/backend/swapchain.cpp:199-207 | tearing down the images destroys, for each image in order, its framebuffer and then its view, and nothing else |
| Swapchain.SetupShape | engine/src/backend/swapchain.cpp:158-197 | building the images creates, for each image in order, a 2D view in the configured format and layer count, then a framebuffer on that view with the configured extent |
| Swapchain.NoSwapchainDestroyed | engine/src/backend/swapchain.cpp:158-207 | neither building nor tearing down the images destroys a swapchain |
| Swapchain.BuiltImagesAreFresh | engine/src/backend/swapchain.cpp:179-195 | the views and framebuffers made for the images are pairwise distinct, newer than anything before, and no view equals a framebuffer |
| Swapchain.SwapchainManager.IsSet | engine/src/backend/swapchain.cpp:209-212 | the manager converts to true exactly when it holds images |
| Swapchain.SwapchainManager.constructor | engine/src/backend/swapchain.cpp:31 | the default manager holds no handles, no images and a value-initialised configuration |
| Swapchain.SwapchainManager.WithConfigurationAsWritten | engine/src/backend/swapchain.cpp:33-37 | as written, the three-argument constructor initialises with the still-default member configuration and ignores its `config` argument |
| Swapchain.SwapchainManager.WithConfiguration | engine/src/backend/swapchain.cpp:33-37 | corrected: the constructor initialises with its own `config` |
| Swapchain.SwapchainManager.CreateSwapchain | engine/src/backend/swapchain.cpp:129-156 | one new swapchain is created from the surface, the configuration and the sharing of the two queue families, naming the current swapchain as the one it replaces |
| Swapchain.SwapchainManager.GetSwapchainImages | engine/src/backend/swapchain.cpp:158-197 | there is one image per handle the driver reports, each with a new view and framebuffer, created in the order of `SetupShape` |
| Swapchain.SwapchainManager.DestroySwapchain | engine/src/backend/swapchain.cpp:199-207 | every image's framebuffer and view are destroyed, the image list is emptied, and the swapchain itself stays |
| Swapchain.SwapchainManager.Init | engine/src/backend/swapchain.cpp:58-111 | the device, surface and configuration are stored, then the swapchain, the render pass in the configured format, and the images over that render pass are created, in that order |
| Swapchain.SwapchainManager.DestroyAsWritten | engine/src/backend/swapchain.cpp:113-127 | as written, the images are torn down, the render pass is destroyed when present, and the swapchain is destroyed unconditionally; every handle is then null |
| Swapchain.SwapchainManager.Destroy | engine/src/backend/swapchain.cpp:113-127 | corrected: the swapchain's destruction is guarded like the render pass's |
| Swapchain.SwapchainManager.RecreateSwapchain | engine/src/backend/swapchain.cpp:44-56 | after an idle wait and the teardown of any images, an empty extent stops with `false` and no images; otherwise the new configuration is stored, a swapchain replacing the old one is created and the images are rebuilt, with the result `true` |
| Swapchain.DestroyTwiceAsWritten | engine/src/backend/vulkan_backend.cpp:194-196 | the backend's explicit `destroy` followed by the manager's destructor (swapchain.cpp lines 39-42) ends by asking a null device to destroy a null swapchain |
| Swapchain.DestroyTwice | engine/src/backend/vulkan_backend.cpp:194-196 | with the guard, the two destructions never destroy a null swapchain |
| Swapchain.RecreateResultAsWritten | engine/src/backend/swapchain.cpp:44-56 | as written, the function returns `false` exactly for an empty extent and returns no value on the other path |
| Swapchain.RecreateAsWrittenReturnsNothing | engine/src/backend/swapchain.cpp:53-56 | a witness of the missing `return`, over the non-empty extents: each reaches the end of the function without one |
| Devices.FirstEnd | engine/src/backend/device_manager.cpp:58-70 | the index of the first family at which the scan stops, by a `break` on a family serving both queues or by a throw; every family before it lets the scan go on |
| Devices.LastGraphics | engine/src/backend/device_manager.cpp:59-60 | the last graphics-capable family, with no graphics-capable family after it |
| Devices.LastPresent | engine/src/backend/device_manager.cpp:62-63 | the last family that can present, with no such family after it |
| Devices.GetGpQueueIndices | engine/src/backend/device_manager.cpp:49-73 | the loop returns what the scan specification gives: the first family with both capabilities for both queues, the GLFW error of a failed presentation query met before it, or else the last capable family of each kind (render/src/device_manager.cpp lines 18-41 is the same loop) |
| Devices.FirstCapableFamilyServesBoth | engine/src/backend/device_manager.cpp:67-69 | the first family with both capabilities, reached without a failed query, serves both queues |
| Devices.QueueIndicesAreCapable | engine/src/backend/device_manager.cpp:49-73 | a returned graphics index is graphics-capable and a present index can present; a missing index means no family has that capability; an error is the code of some failed presentation query |
| Devices.QueueFamilySet | engine/src/backend/device_manager.cpp:118 | `std::set{graphics, present}` holds one index when the two coincide and both otherwise, in ascending order |
| Devices.QueueCreateInfos | engine/src/backend/device_manager.cpp:125-131 | one create info with one queue per family of the set, in the set's order |
| Devices.DeviceQueues | engine/src/backend/device_manager.cpp:118-131 | the device is created with one queue from each distinct family, in ascending family order |
| Devices.DeviceQueueCreateInfos | engine/src/backend/device_manager.cpp:118-131 | the loop builds exactly the queue list of `DeviceQueues` |
| Devices.DeviceCreationError | render/src/device_manager.cpp:105-108 | the render revision reports a failed `createDevice` as its own `VulkanException` with the result; the other revisions' throwing binding reports the same result (engine/src/backend/device_manager.cpp line 143) |
| Devices.DeviceManager.constructor | engine/src/backend/device_manager.cpp:146-160 | the manager holds the device, its two queues with their family indices, and the command pool, with no allocator yet |
| Devices.DeviceManager.Destroy | engine/src/backend/device_manager.cpp:168-180 | the engine revision destroys the command pool and then the device unconditionally; the render revisions destroy the device only when present (render/src/device_manager.cpp lines 129-141); every handle is then null |
| Devices.DeviceManager.SingleTimeCommand | engine/src/backend/device_manager.cpp:81-89 | one primary command buffer is allocated from the command pool and begun for one-time submission on the graphics queue |
| Devices.ChooseQueueFamilies | engine/src/backend/device_manager.cpp:110-116 | a failed scan's error is passed on, and a missing graphics or present family throws `eErrorUnknown` |
| Devices.NewDeviceManager | engine/src/backend/device_manager.cpp:91-166 | the constructor chooses the families, then creates the device with the queue set, fetches both queues and (engine only) creates a command pool on the graphics family; any failure makes no driver call |
| Devices.CreateLogicalDevice | engine/src/backend/device_manager.cpp:118-160 | from the queue set on: a failed creation is reported by the revision's error path with no call made; success logs the device and queue calls in order |
| Devices.SingleTimeCommandBuffer.constructor | engine/src/backend/device_manager.cpp:18-25 | the wrapper records the manager, queue and buffer, and begins the buffer |
| Devices.SingleTimeCommandBuffer.Submit | engine/src/backend/device_manager.cpp:33-47 | the buffer is ended, submitted, waited for on the queue and freed, and the wrapper forgets the manager, queue and buffer |
| Devices.SingleTimeCommandBuffer.Dispose | engine/src/backend/device_manager.cpp:27-31 | the destructor frees the buffer only when it still has a manager |
| Devices.FreesOfAppend | engine/src/backend/device_manager.cpp:27-47 | the number of frees of a buffer adds up over consecutive call sequences |
| Devices.SubmitThenDrop | engine/src/backend/device_manager.cpp:27-47 | a single-use command that is submitted and then destroyed frees its buffer exactly once |
| Devices.FindSupportedFormat | engine/src/backend/device_manager.cpp:198-213 | the first candidate whose features under the requested tiling share a bit with those requested; when none does, `eErrorFormatNotSupported` |
| Devices.VulkanAllocator.constructor | engine/src/backend/allocator.cpp:18-32 | a new allocator holds its device manager, its VMA handle, and is owned |
| Devices.VulkanAllocator.Release | engine/src/backend/allocator.cpp:49-52 | the destructor destroys the VMA allocator |
| Devices.NewShared | engine/src/backend/allocator.cpp:8-16 | a live allocator of the device is returned unchanged; otherwise a new one is created and stored in the weak back-reference, or the creation failure throws with nothing stored |
| Devices.NewSharedTwice | engine/src/backend/allocator.cpp:8-16 | two calls in a row return the same allocator, and at most one VMA allocator is created |
| Sync.GpuSync.constructor | engine/include/backend/vulkan_backend.hpp:24-28 | a new `GpuSync` holds three null handles |
| Sync.GpuSync.Init | engine/src/backend/vulkan_backend.cpp:610-622 | two fresh semaphores and then a fresh fence created signaled, logged in that order; the fence is the one signaled fence added |
| Sync.GpuSync.InitChecked | render/src/render_manager.cpp:837-865 | each failed creation throws `VulkanException` with its result and stops there, keeping the handles already made; three successes store three fresh handles with the fence signaled |
| Sync.GpuSync.Destroy | engine/src/backend/vulkan_backend.cpp:624-638 | exactly the non-null handles are destroyed, semaphores before the fence, and all three become null (render/src/render_manager.cpp lines 867-881 is the same) |
| Sync.DestroyTwice | engine/src/backend/vulkan_backend.cpp:624-638 | a second `destroy` destroys nothing more: the log holds each handle's destruction once |
| Instances.KeptIff | engine/src/backend/instance_manager.cpp:157-249 | a device is in the supported list exactly when it has every requested extension and every requested feature is off or available |
| Instances.KeptIsSubsequence | engine/src/backend/instance_manager.cpp:163-246 | the supported devices keep the order in which the instance enumerated them |
| Instances.NoRequirementsKeepAll | engine/src/backend/instance_manager.cpp:183-186 | with no extension and the default feature set requested, every device is supported |
| Instances.Find | engine/src/backend/instance_manager.cpp:170-175 | the `strcmp` scan finds a name exactly when it is among the available ones |
| Instances.ExtensionsSupported | engine/src/backend/instance_manager.cpp:167-181 | the search that stops at the first missing extension holds exactly when every required extension is available |
| Instances.ExtensionsSupportedNoBreak | render/src/backend/instance_manager.cpp:222-233 | the `supported &= found` check holds exactly when every required extension is available |
| Instances.FilterByExtensions | render/src/backend/instance_manager.cpp:213-237 | the constructor keeps exactly the devices offering `VK_KHR_swapchain`, in enumeration order (render/src/instance_manager.cpp lines 213-237 is the same loop) |
| Instances.Missing | engine/src/backend/instance_manager.cpp:60-80 | the reference for the unavailability check: a name is reported exactly when it was requested and is not available |
| Instances.UnavailableAsWritten | engine/src/backend/instance_manager.cpp:60-102 | as written, a match leaves `found` false, so every requested extension and layer is reported unavailable (render/src/backend/instance_manager.cpp lines 43-85 is the same) |
| Instances.Unavailable | engine/src/backend/instance_manager.cpp:60-102 | with a match setting `found`, exactly the missing names are reported, in order |
| Instances.AvailableNameStillReported | engine/src/backend/instance_manager.cpp:67-76 | whenever one requested name is available, the intended result differs from the list of every name that the code as written returns |
| Instances.MessageTypePrecedence | engine/src/backend/instance_manager.cpp:112-119 | the message-type label is that of the highest bit set among Validation, Performance, Device Address Binding and General, and empty when none is set |
| Instances.DebugCallback | engine/src/backend/instance_manager.cpp:104-142 | the callback always answers `VK_FALSE`; it logs one line exactly for the four severities, verbose at info level, info at trace level, warning at warn and error at error, labelled with the message type |
| Instances.InstanceManager.constructor | engine/src/backend/instance_manager.cpp:251-253 | a new manager holds its instance and messenger, with no devices yet |
| Instances.InstanceManager.GetAvailablePhysicalDevices | engine/src/backend/instance_manager.cpp:149-155 | throws "Not initialized" exactly when there is no instance, and otherwise returns the enumerated devices |
| Instances.InstanceManager.GetSupportedRenderingDevices | render/src/backend/instance_manager.cpp:138-143 | throws "Not initialized" exactly when there is no instance, and otherwise returns the stored supported devices |
| Instances.InstanceManager.SupportedRenderingDevices | engine/src/backend/instance_manager.cpp:157-249 | returns exactly the devices the filter specification keeps for the requested extensions and features |
| Instances.InstanceManager.StoreDevices | render/src/instance_manager.cpp:239-240 | both lists move into the members |
| Instances.InstanceManager.StoreDevicesAsWritten | render/src/backend/instance_manager.cpp:239-240 | the member list of available devices keeps its old value while the supported list is stored |
| Instances.ShadowedDevicesAreLost | render/src/backend/instance_manager.cpp:212-241 | whatever devices are enumerated, a successful constructor of the revision as written answers `get_available_physical_devices` with an empty list while keeping the supported devices |
| Instances.InstanceManager.Destroy | engine/src/backend/instance_manager.cpp:321-334 | the messenger and then the instance are destroyed, each only if present; the handles become null and the device list empty, and the render revisions also clear the supported list (render/src/backend/instance_manager.cpp lines 244-258) |
| Instances.CreateInstanceObjects | engine/src/backend/instance_manager.cpp:262-316 | one instance with GLFW's extensions, plus, with debug assertions on, the debug-utils extension, the validation layer and a messenger on that instance |
| Instances.NewInstanceManager | engine/src/backend/instance_manager.cpp:251-319 | failed GLFW initialisation, missing Vulkan support and missing GLFW extensions throw their errors in that order with no driver call; otherwise the manager holds a fresh instance, the messenger when debugging, and, in the render revisions, the devices with `VK_KHR_swapchain`; it holds all enumerated devices except in render/src/backend, whose shadowing leaves none |
| Allocation.VmaCreateBuffer | render/src/backend/allocation.hpp:42-43 | a successful `vmaCreateBuffer` gives the buffer and its allocation fresh handles, a failed one leaves both null; the call is logged either way |
| Allocation.Allocation.constructor | render/src/backend/allocation.hpp:20-25 | the default allocation owns nothing: null allocator, allocation and buffer, size 0 |
| Allocation.Allocation.Reserved | render/src/backend/allocation.hpp:76-81 | the protected constructor stores the allocator and size with no buffer yet |
| Allocation.Allocation.Moved | render/src/backend/allocation.hpp:47-57 | the new object takes the allocation, buffer and size, which become null and 0 in the source; the source keeps its allocator |
| Allocation.Allocation.MoveAssign | render/src/backend/allocation.hpp:59-67 | the allocator is copied and allocation, buffer and size are exchanged with the source |
| Allocation.Allocation.Drop | render/src/backend/allocation.hpp:69-73 | the destructor issues one `vmaDestroyBuffer` through the allocator exactly when there is an allocator |
| Allocation.NewAllocation | render/src/backend/allocation.hpp:27-45 | the buffer is created with automatic memory usage; the object is built exactly when the create succeeds, and a failure throws `VulkanException` with its result after only the failed create |
| Allocation.MoveThenDropBoth | render/src/backend/allocation.hpp:47-73 | after a move, destroying both objects frees the buffer once: the source, which kept its allocator, hands VMA only null handles |
| Allocation.AssignThenDropSource | render/src/backend/allocation.hpp:59-73 | move-assigning into a live allocation hands its old buffer to the source, whose destructor then frees it |
| Allocation.HostVisibleAllocation.constructor | render/src/backend/allocation.hpp:104-109 | the default host-visible allocation owns nothing, is not coherent and is not mapped |
| Allocation.HostVisibleAllocation.Reserved | render/src/backend/allocation.hpp:111-115 | the base part holds the allocator and size, and the access mode is stored, before any buffer exists |
| Allocation.HostVisibleAllocation.FlushRange | render/src/backend/allocation.hpp:98-102 | a range is flushed through VMA exactly when the memory is not coherent |
| Allocation.HostVisibleAllocation.Flush | render/src/backend/allocation.hpp:97 | the whole buffer, from offset 0 for its size, is flushed exactly when the memory is not coherent |
| Allocation.HostVisibleAllocation.Moved | render/src/backend/allocation.hpp:147-155 | the base part moves as `Allocation`'s does; coherence and mapping move and are cleared in the source |
| Allocation.HostVisibleAllocation.MoveAssignAsWritten | render/src/backend/allocation.hpp:157-174 | as written: every field but the access mode is taken from the source, and all of the source's, its allocator included, are cleared |
| Allocation.HostVisibleAllocation.MoveAssign | render/src/backend/allocation.hpp:157-174 | corrected: allocator, allocation, buffer, size, coherence and mapping are exchanged with the source, as the base class's move-assignment does, and the access mode is kept |
| Allocation.HostVisibleAllocation.Drop | render/src/backend/allocation.hpp:69-73 | the inherited destructor frees the buffer exactly when there is an allocator |
| Allocation.HostVisibleAllocation.Count | render/src/backend/allocation.hpp:217 | `count()` is the number of whole elements that fit in the buffer |
| Allocation.HostVisibleAllocation.Element | render/src/backend/allocation.hpp:221-231 | an element below `count()` lies wholly inside the mapped bytes, at `offset(i)` from the mapping |
| Allocation.HostVisibleAllocation.End | render/src/backend/allocation.hpp:233-237 | `end()` is one past the last whole element: within the mapping and less than one element before its end |
| Allocation.CountOfArraySize | render/src/backend/allocation.hpp:205-209 | a buffer of `sizeof(T) * count` bytes holds exactly `count` elements, so the `T[N]` view has `count() == N` (line 250) |
| Allocation.BuildHostVisible | render/src/backend/allocation.hpp:111-145 | a mapped create preferring coherent memory, then a retry without the preference; coherent exactly when the first create succeeds, and `VulkanException` with the second result when both fail |
| Allocation.NewHostVisibleAsWritten | render/src/backend/allocation.hpp:133-138 | as written the retry is handed the bytes of the `buffer` field as its create info |
| Allocation.NewHostVisible | render/src/backend/allocation.hpp:111-145 | the host-visible constructor with the retry given the first attempt's create info |
| Allocation.RetryReadsBufferField | render/src/backend/allocation.hpp:136 | whenever the first create fails, the retry as written asks VMA for something other than the requested size and usage |
| Allocation.EveryCreateIsRequested | render/src/backend/allocation.hpp:117-138 | corrected, every create asks for the requested size and usage |
| Allocation.NewTypedArray | render/src/backend/allocation.hpp:205-209 | the `T[]` constructor allocates `sizeof(T) * count` bytes and then has `count()` equal to `count` |
| Allocation.AssignOverLiveAsWritten | render/src/backend/allocation.hpp:157-174 | as written, move-assigning into a live host-visible allocation loses its old buffer: neither object holds it afterwards and no destroy frees it |
| Allocation.AssignOverLive | render/src/backend/allocation.hpp:157-174 | with the corrected move-assignment, the buffers are exchanged and the two destructors destroy both, the target's old buffer included |
| Images.TransitionBarrier | engine/src/backend/image_allocation.cpp:9-34 | the barrier keeps the two layouts; Undefined to TransferDstOptimal waits on nothing at top of pipe and makes transfer writes available, TransferDstOptimal to ShaderReadOnlyOptimal hands transfer writes to fragment-shader reads, and every other pair has empty masks and stages |
| Images.UploadBarriersChain | engine/src/backend/image_allocation.cpp:21-34 | the second upload barrier waits on exactly the access and stage the first makes available, and only the two known pairs synchronise anything |
| Images.ViewTypeOf | engine/src/backend/image_allocation.cpp:83-94 | the view type has as many dimensions as the image type |
| Images.RecordTransition | engine/src/backend/image_allocation.cpp:7-38 | one single-time command buffer is allocated, begun, given the barrier, ended, submitted, waited for and freed |
| Images.ImageAllocation.constructor | engine/src/backend/image_allocation.cpp:41-49 | the default image owns nothing: every handle is null and the extent is empty |
| Images.ImageAllocation.FromInfo | engine/src/backend/image_allocation.cpp:51-59 | the description's extent, format, initial layout and subresource range are copied in, with no image or view yet |
| Images.ImageAllocation.Moved | engine/src/backend/image_allocation.cpp:121-133 | allocation, image, view and extent move to the new object and are cleared in the source, which keeps its allocator |
| Images.ImageAllocation.MoveAssign | engine/src/backend/image_allocation.cpp:135-144 | the allocator is copied and allocation, image, view and extent are exchanged with the source; nothing else changes |
| Images.ImageAllocation.Drop | engine/src/backend/image_allocation.cpp:108-119 | the view is destroyed if present, then the image if it has an allocation, and every handle becomes null |
| Images.ImageAllocation.TransitionLayoutAsWritten | engine/src/backend/image_allocation.cpp:5-39 | the barrier from the stored layout is recorded and submitted, and the stored layout is left as it was |
| Images.ImageAllocation.TransitionLayout | engine/src/backend/image_allocation.cpp:5-39 | the same barrier is recorded and the new layout becomes the stored one |
| Images.NewImageAllocation | engine/src/backend/image_allocation.cpp:51-106 | the image is built exactly when `vmaCreateImage` succeeds, then a view of the matching type, format and range is created; a failure throws `VulkanException` with its result before any view exists |
| Images.MoveThenDropBoth | engine/src/backend/image_allocation.cpp:108-133 | after a move, destroying both objects destroys the view and the image once each |
| Images.DropDefault | engine/src/backend/image_allocation.cpp:108-119 | a default image owns nothing, so destroying it calls nothing |
| Images.UploadThenSampleAsWritten | engine/src/backend/image_allocation.cpp:10-34 | as written, the second transition of an upload starts from Undefined, so its barrier has empty stages and synchronises nothing |
| Images.UploadThenSample | engine/src/backend/image_allocation.cpp:10-34 | with the layout stored, the upload records the two chained barriers and leaves the image in ShaderReadOnlyOptimal |
| Backend.CopyBytes | engine/src/backend/vulkan_backend.cpp:450 | `memcpy` of a byte count over handle arrays: the first `bytes / 8` handles come from the source and the rest of the destination is kept |
| Backend.ResetOnlyAfterAcquire | engine/src/backend/vulkan_backend.cpp:469-492 | whether or not the out-of-date acquisition is caught, `begin_draw` resets the slot's fence exactly when the swapchain was valid and both the wait and the acquisition succeeded |
| Backend.RecreatedOnlyWhenCaught | engine/src/backend/vulkan_backend.cpp:473-489 | `begin_draw` recreates the swapchain exactly when it was invalid or, after a successful wait, an out-of-date acquisition is caught; as written, where the bindings throw it, a valid swapchain is never recreated |
| Backend.SubmitAndPresent | engine/src/backend/vulkan_backend.cpp:528-556 | the slot's command buffer is ended and submitted behind its image-available semaphore, signalling render-finished and its fence, which stays unsignaled until the GPU is done; then presentation waits on render-finished |
| Backend.VulkanBackend.constructor | engine/include/backend/vulkan_backend.hpp:117-139 | a new ring is at slot 0 (`m_frame_index`), with no frame sets (`m_frame_sets`) and no resize pending (`m_framebuffer_resized`) |
| Backend.VulkanBackend.RecreateSwapchain | engine/src/backend/vulkan_backend.cpp:272-293 | one recreation of the current swapchain whose result is returned; a valid swapchain afterwards has a fresh handle |
| Backend.VulkanBackend.FillFrameSets | engine/src/backend/vulkan_backend.cpp:446-451 | each of the `MAX_IN_FLIGHT` slots gets its command buffer, fresh sync objects with a signaled fence, and the copied part of its descriptor block |
| Backend.VulkanBackend.FillSlot | engine/src/backend/vulkan_backend.cpp:448-450 | one turn of the loop: only slot `i` changes, taking command buffer `i`, three fresh sync handles and the copied descriptors |
| Backend.VulkanBackend.InitializeFrameSetsAsWritten | engine/src/backend/vulkan_backend.cpp:441-452 | as written `memcpy` copies `MAX_DESCRIPTORS` bytes, so only the first 16 handles of each block arrive and the other 112 stay null |
| Backend.VulkanBackend.InitializeFrameSets | engine/src/backend/vulkan_backend.cpp:441-452 | with `MAX_DESCRIPTORS * sizeof(vk::DescriptorSet)` bytes, slot `i` holds command buffer `i` and exactly descriptor block `i`, and each slot has its own signaled fence |
| Backend.VulkanBackend.BeginDrawAsWritten | engine/src/backend/vulkan_backend.cpp:469-520 | as written: an invalid swapchain is recreated and none is returned; a failed wait throws; every failed acquisition throws, out-of-date included, as the bindings' `OutOfDateKHRError`, so a valid swapchain is never recreated here; otherwise the fence is reset and the context of this slot is returned |
| Backend.VulkanBackend.AcquireFrameAsWritten | engine/src/backend/vulkan_backend.cpp:484-519 | as written, after the wait: timeout, not-ready and suboptimal throw `VulkanException`; every other failure, out-of-date included, throws the bindings' error; success resets the fence, records the command buffer and gives the context |
| Backend.VulkanBackend.BeginDraw | engine/src/backend/vulkan_backend.cpp:469-520 | corrected: an invalid swapchain is recreated and none is returned; a failed wait throws (`VulkanException` for a timeout, the bindings' error otherwise); an out-of-date acquisition is caught, recreates and returns none with the fence still signaled; another failed acquisition throws; otherwise the fence is reset and the context of this slot is returned |
| Backend.VulkanBackend.AcquireFrame | engine/src/backend/vulkan_backend.cpp:484-519 | corrected, after the wait: out-of-date recreates and gives none; another failure throws, as `VulkanException` for the codes the bindings hand back and as their own error for the rest; success resets the fence, records the command buffer and gives the context |
| Backend.VulkanBackend.RecordFrame | engine/src/backend/vulkan_backend.cpp:494-503 | the command buffer is reset and recorded for the image, then the uniform array is flushed |
| Backend.VulkanBackend.UniformContext | engine/src/backend/vulkan_backend.cpp:505-519 | the context addresses element `frame` of the uniform array, at `offset(frame)` for `type_size()` bytes, within the buffer; no descriptor is used yet |
| Backend.VulkanBackend.EndDraw | engine/src/backend/vulkan_backend.cpp:522-567 | a present error other than out-of-date propagates; otherwise the swapchain is recreated exactly when present was suboptimal or out of date or a resize was pending, the resize flag ends cleared and the ring moves to the next slot modulo `MAX_IN_FLIGHT` |
| Backend.DrawFrame | engine/src/backend/vulkan_backend.cpp:469-567 | a frame drawn end to end with the corrected `begin_draw` leaves its slot's fence unsignaled, every other fence unchanged, and the ring on the next slot; a skipped frame keeps the slot |
| Staging.TilesConcat | engine/src/backend/vulkan_backend.cpp:664-695 | a tiling of one byte region followed by a tiling of the region right after it tiles both together |
| Staging.ChunksTile | engine/src/backend/vulkan_backend.cpp:668-679 | the loop's chunks tile the region: none is empty or larger than `SIZE`, each starts where the last ended, the first at the region's start and the last at its end |
| Staging.ChunksFull | engine/src/backend/vulkan_backend.cpp:668-679 | every chunk but the last is a full `SIZE` bytes |
| Staging.TilesCons | engine/src/backend/vulkan_backend.cpp:668-679 | one chunk of at most `SIZE` bytes followed by a tiling of the bytes right after it tiles both |
| Staging.ChunksWithin | engine/src/backend/vulkan_backend.cpp:668-679 | every chunk lies inside the region being moved |
| Staging.UploadStep | engine/src/backend/vulkan_backend.cpp:668-679 | an upload is its first chunk of `min(remaining, SIZE)` bytes followed by the upload of the rest |
| Staging.Overwrite | engine/src/backend/vulkan_backend.cpp:749 | the copied bytes land at the destination offset and every byte outside them is kept |
| Staging.OverwriteExtends | engine/src/backend/vulkan_backend.cpp:672-678 | writing the next chunk right after the bytes already moved extends the moved prefix by that chunk |
| Staging.StagingRetryAsksTheSame | engine/src/backend/vulkan_backend.cpp:722-727 | both creates of `init` ask for a `SIZE`-byte transfer-source buffer, mapped for sequential writes; the retry happens exactly when the first fails |
| Staging.StagingBuffer.constructor | engine/include/backend/vulkan_backend.hpp:52-61 | a value-initialised staging buffer has null handles and is not coherent |
| Staging.StagingBuffer.Init | engine/src/backend/vulkan_backend.cpp:707-736 | the buffer is created preferring coherent memory and retried without the preference; it is coherent exactly when the first create succeeds; a second failure throws with its result before adopting the command buffer and fence |
| Staging.StagingBuffer.Flush | engine/src/backend/vulkan_backend.cpp:738-742 | the range is flushed exactly when the memory is not coherent |
| Staging.StagingBuffer.CopyIn | engine/src/backend/vulkan_backend.cpp:673 | the bytes land at the start of the staging memory and the rest of it is kept |
| Staging.StagingBuffer.Transfer | engine/src/backend/vulkan_backend.cpp:744-753 | reset, begin, one copy, end and submit on the transfer fence, which becomes unsignaled; the destination's bytes are those before with the copied range overwritten |
| Staging.StagingBuffer.Reset | engine/src/backend/vulkan_backend.cpp:755-758 | the transfer fence becomes unsignaled |
| Staging.StagingBuffer.Wait | engine/src/backend/vulkan_backend.cpp:760-765 | succeeds exactly when the wait does, leaving the fence signaled; a timeout throws `VulkanException` and any other failure the bindings' error |
| Staging.StagingBuffer.Deinit | engine/src/backend/vulkan_backend.cpp:767-781 | nothing happens when there is no buffer; otherwise the fence, the command buffer and the buffer are released in that order and every field is cleared |
| Staging.StagingBuffer.UploadRegion | engine/src/backend/vulkan_backend.cpp:668-679 | one of the two loops, corrected to read each chunk from the byte it has reached: the destination's bytes in the region become the data and the rest are kept; the calls are those of the chunking, each chunk after a wait and reset of the transfer fence |
| Staging.StagingBuffer.UploadNext | engine/src/backend/vulkan_backend.cpp:669-678 | one corrected turn moves the next `min(remaining, SIZE)` bytes right after those already moved |
| Staging.StagingBuffer.UploadChunk | engine/src/backend/vulkan_backend.cpp:669-677 | wait, reset, copy in, flush and transfer one chunk to its destination offset |
| Staging.Load | engine/src/backend/vulkan_backend.cpp:650-700 | `load` with both loops corrected: one buffer of vertex plus index bytes; a failed allocation throws with nothing uploaded; otherwise its bytes end as the vertices followed by the indices' little-endian bytes, and the mesh's indices start where the vertices end |
| Staging.LoadChunksAreContiguous | engine/src/backend/vulkan_backend.cpp:664-695 | the chunks of both loops together tile the whole buffer from offset 0, since `buffer_off` carries over from the vertex loop to the index loop |
| Staging.TypedSourceBounds | engine/src/backend/vulkan_backend.cpp:673-689 | the scaled read of a chunk starts where it should for bytes or for the first chunk, and beyond that for any later chunk of wider elements |
| Staging.TypedUploadOverruns | engine/src/backend/vulkan_backend.cpp:668-695 | as written, some chunk of an upload reads past the data's end exactly when the elements are wider than a byte and there are more than `SIZE` bytes |
| Staging.AsWrittenOverrun | engine/src/backend/vulkan_backend.cpp:672-673 | a chunk read past the data comes only after a full chunk, and only for elements wider than a byte |
| Staging.AsWrittenAdvance | engine/src/backend/vulkan_backend.cpp:672-678 | a chunk read within the data and written to the destination keeps the upload's progress: the destination holds the data's prefix while every read started where it should |
| Staging.LogAdvance | engine/src/backend/vulkan_backend.cpp:669-678 | one more chunk's calls and fence reset keep the log on the way to the whole upload's calls |
| Staging.UploadOutcome | engine/src/backend/vulkan_backend.cpp:668-679 | an upload as written ends either past the data's end, exactly for wider elements and more than `SIZE` bytes, with a log between the start and the whole upload's calls, or at the end with the data moved and those calls logged |
| Staging.StagingBuffer.UploadNextAsWritten | engine/src/backend/vulkan_backend.cpp:669-678 | one turn as written: the chunk is read from the byte count scaled by the element size, and a read past the data's end is not made |
| Staging.StagingBuffer.UploadRegionAsWritten | engine/src/backend/vulkan_backend.cpp:668-679 | one of the two loops as written: it stops at a read past the data's end exactly when the elements are wider than a byte and there are more than `SIZE` bytes; otherwise it moves the data with the corrected loop's calls |
| Staging.LoadAsWritten | engine/src/backend/vulkan_backend.cpp:650-700 | `load` as written, with vertex reads scaled by 24 and index reads by 4: it stops early exactly when there are more than `SIZE` vertex bytes or more than `SIZE` index bytes; otherwise it ends as `Load` does |
| Render.FirstFailure | render/src/render_manager.cpp:637-657 | the index of the first result that is not a success: every result before it succeeded, and it is the length when all did |
| Render.CreationsShape | render/src/render_manager.cpp:637-657 | one creation per source, in the sources' order, the `k`-th one making the `k`-th fresh handle |
| Render.FreshHandles | render/src/render_manager.cpp:656 | the handles `n` successive creations are given are `n` increasing, so pairwise distinct, handles, all newer than `base` and none beyond `base + n` |
| Render.DestructionsShape | render/src/render_manager.cpp:563-571 | one destroy call per handle, in the handles' order |
| Render.DestructionsKeepPipelines | render/src/render_manager.cpp:563-571 | destroying framebuffers or image views never destroys a pipeline |
| Render.CleanDestroysPipelineOnce | render/src/render_manager.cpp:559-575 | one clean destroys a non-null pipeline once and no pipeline when it is null |
| Render.CleanTwiceAsWrittenDestroysPipelineTwice | render/src/render_manager.cpp:567-568 | as written, a clean from `recreate_pipeline` whose re-creation throws, followed by the destructor's clean (line 292), destroys the same pipeline twice |
| Render.CleanTwiceDestroysPipelineOnce | render/src/render_manager.cpp:567-568 | with the handle nulled after its destruction, the same two cleans destroy it once |
| Render.Resize | render/src/render_manager.cpp:728 | `resize` keeps the first elements and fills the rest with null handles, to exactly the requested length |
| Render.Steps | render/src/render_manager.cpp:345-392 | the six checked results of a frame, in call order |
| Render.Attempted | render/src/render_manager.cpp:345-392 | a frame attempts between one and six steps |
| Render.FrameOkIffAllSucceed | render/src/render_manager.cpp:345-392 | a frame ends normally exactly when all six steps succeed; otherwise it throws `VulkanException` with a failing step's result |
| Render.AttemptedSteps | render/src/render_manager.cpp:349-391 | a frame stops at its first failing step, so the steps attempted are read off the answers |
| Render.OutcomeSteps | render/src/render_manager.cpp:349-391 | the exception a frame throws carries the result of its first failing step, in the order wait, reset, acquire, record, submit, present |
| Render.StepsCallsValues | render/src/render_manager.cpp:349-389 | the driver calls of the first `n` steps of a frame, spelled out |
| Render.ResetPrecedesAcquire | render/src/render_manager.cpp:353-359 | whenever the acquisition is attempted it is the third call, made once, right after the fence reset; no path recreates the swapchain |
| Render.FailureAfterResetStrandsFence | render/src/render_manager.cpp:353-378 | a failed acquisition or recording after the reset leaves the fence reset with no submission to signal it, and the frame throws |
| Render.RenderManager.constructor | render/include/render_manager.hpp:124-141 | every handle a new manager holds is null, every list is empty, and the configuration is value-initialised |
| Render.RenderManager.CreateSwapchain | render/src/render_manager.cpp:583-629 | the configuration chosen from the support query is stored even when creation fails: the selected extent; the preferred sRGB format and colour space when offered, otherwise the first offered format with its colour space; the present mode and the `min + 1` image count clamped to the maximum; the swapchain replaces the current one, exclusive when the queues share a family; a failure throws and keeps the old handle |
| Render.RenderManager.GetImages | render/src/render_manager.cpp:631-676 | a failed query throws before anything is stored; otherwise the images are stored and one 2D view per image is made in order, and a failed view throws after the images are stored, leaving the view list unchanged |
| Render.RenderManager.CreateFramebuffers | render/src/render_manager.cpp:726-752 | the list is resized to the number of images; framebuffers over each image's view at the configured extent and layers are made in order; a failure throws, leaving the earlier framebuffers in place and the rest as resized |
| Render.RenderManager.AllocateCommandBuffers | render/src/render_manager.cpp:769-783 | `IN_FLIGHT` (one) primary command buffer from the pool, or a throw that keeps the old list |
| Render.RenderManager.RenderFrame | render/src/render_manager.cpp:345-392 | the frame's calls and outcome are those of the step specification, and the fence ends unsignaled once it has been reset |
| Render.FrameSteps | render/src/render_manager.cpp:345-392 | the same for any frame handles |
| Render.AcquireSteps | render/src/render_manager.cpp:349-359 | the first three steps succeed together or stop at the first failure |
| Render.SubmitSteps | render/src/render_manager.cpp:361-391 | once an image is acquired: record, submit and present, stopping at the first failure |
| Render.RenderManager.CleanPipelineAsWritten | render/src/render_manager.cpp:559-575 | a failed idle wait throws before anything is destroyed; otherwise the framebuffers, the pipeline if non-null and the views are destroyed and the lists emptied, with the pipeline handle left as it was |
| Render.RenderManager.CleanPipeline | render/src/render_manager.cpp:559-575 | the same clean with the pipeline handle null afterwards |
| Render.DestroyEach | render/src/render_manager.cpp:563-571 | the loop destroys each handle once, in order |

## Left out

- Vulkan, VMA, GLFW and shaderc internals: only their answers are modelled, as inputs, and their effects as entries in the driver's call log.
- GPU execution: a submission is modelled as unsignalling its fence and a successful wait as signalling it. The staging copy takes effect when it is submitted. Nothing concurrent is modelled.
- File and stdout I/O of the two Rust tools and their argument parsing: the formatters work on in-memory bytes and produce a string.
- Staging.Load: every wait on the transfer fence inside `load` is modelled as succeeding. A failed wait would throw, but only `StagingBuffer.Wait` models that.
- Sizes, offsets and byte counts are unbounded naturals: the `uint32_t` truncation of `vk::DeviceSize` values and of vertex counts is not modelled. The image count's `minImageCount + 1` does wrap at 2^32, as `Selection.ImageCount` states.
- Vertex data is taken as raw bytes: the `GouraudVertex` layout is not modelled. Only its size, `Staging.VERTEX_SIZE`, enters the model, in `Staging.LoadAsWritten`.
- The view and projection matrices written in `begin_draw`, plus all other floating-point camera, transform and frame-time code: floating point is not modelled.
- Command-buffer contents: the render pass, pipeline and draw commands issued by `record_command_buffer`, `initialize_command_buffer` and the mesh draw code are one logged recording call. The begin and end results of a recording are merged into that call's single result.
- Backend.CopyBytes: models `memcpy` over whole handles only; a byte count that is not a multiple of the handle size is not modelled.
- The engine revision is built with the exception-throwing `vulkan-hpp` bindings. Where a call's failures are modelled, a result the call does not list among its success codes is the `VulkanHppError` error with that result (`Vk.Failure`); the waits, the acquisitions and present are modelled that way. The render revision checks every result itself.
- These driver calls are modelled as always succeeding, so their failures, thrown by the bindings, are not modelled:
  - the swapchain manager's `createSwapchainKHR`, `getSwapchainImagesKHR`, `createImageView` and `createFramebuffer` (`Swapchain.SwapchainManager.CreateSwapchain` and `GetSwapchainImages`);
  - instance creation, the debug messenger and the enumerations of extensions, layers and physical devices (`Instances.CreateInstanceObjects`, `Instances.NewInstanceManager`);
  - `getQueue`, `createCommandPool` and `allocateCommandBuffers` in the device manager (`Devices.NewDeviceManager`, `Devices.DeviceManager.SingleTimeCommand`);
  - the semaphore and fence creations of `Sync.GpuSync.Init`;
  - `createImageView` in `Images.NewImageAllocation`;
  - the command buffer and fence of `Staging.StagingBuffer.Init`;
  - the surface queries behind `Selection`, whose answers are inputs.
  - `end()` of the command buffer and the graphics-queue `submit` in `Backend.SubmitAndPresent`;
  - `resetFences` and the command buffer's `reset` in `begin_draw` (`Backend.VulkanBackend.BeginDraw`, `BeginDrawAsWritten`);
  - the transfer `submit` and `resetFences` of `Staging.StagingBuffer.Transfer` and `Staging.StagingBuffer.Reset`;
  - the `submit` and `waitIdle` of `Devices.SingleTimeCommandBuffer.Submit`, and so of `Images.RecordTransition`.
- The device managers' `if constexpr (DEBUG_ASSERTIONS)` check that the chosen device is among the supported ones (engine/src/backend/device_manager.cpp:98-106, render/src/device_manager.cpp:58-65): the model takes the device as given.
- Allocation.HostVisibleAllocation.Moved: the source's move constructor leaves `random_access` uninitialised; the model sets it to false.
- Staging.Load: the index bytes are `uint32_t` values in host memory. The model lays them out little-endian, as on the hosts the engine runs on.
- Staging.StagingBuffer.UploadRegionAsWritten: a copy that reads past the end of the vertex or index array is undefined behaviour. The model ends the upload before that chunk, and `Staging.LoadAsWritten` then returns the mesh without uploading the rest.
- Selection.SelectFormat: requires a non-empty format list, because `select_format` reads `formats[0]` when the preferred format is missing. The source can reach an empty list: `select_physical_device` skips a device only when both its format and present-mode lists are empty (engine/src/backend/vulkan_backend.cpp:92, render/src/render_manager.cpp:79). The engine's first constructor (engine/src/backend/vulkan_backend.cpp:150-173) also builds the swapchain without checking support. That read is undefined behaviour, and the model excludes it.
- Selection.Configure: requires a non-empty format list, for the same undefined read through `select_format`.
- Render.RenderManager.CreateSwapchain: requires a non-empty format list, for the same undefined read through the render revision's `select_format`.
- VkResults.ResultToString: requires a code the switch lists. For any other code `result_to_string` falls off its end without returning, which is undefined behaviour. `VulkanException::get_error_string` (render/src/exceptions.cpp:67) passes it any result, and the model excludes those codes.
- The render revision has two `IN_FLIGHT` values: 1 in render/include/render_manager.hpp:124 and 2 in render/src/render_manager.hpp:91. The model follows the first, with one command buffer and one set of sync objects.
- Swapchain.SwapchainImage: engine/include/backend/swapchain.hpp declares each image entry with `color`, `depth` and `handle` members, but swapchain.cpp uses `handle`, `view` and `framebuffer`. The model follows the .cpp.
- Images.ImageAllocation.Moved: the move constructor does not copy the format or the layout, which are then indeterminate enumerations; the model sets them to 0 and Undefined. The subresource range default-constructs to zero, as modelled.
- `Vk.SwapchainInfo` leaves out four fields of the swapchain create info. None of them enters a decision the model makes:
  - `imageUsage`, always the colour-attachment usage;
  - `preTransform`, the surface's `currentTransform` (render/src/render_manager.cpp:616, engine/src/backend/swapchain.cpp:148);
  - `compositeAlpha`, always opaque;
  - `clipped`, always true.
- The backend holds the swapchain manager through a handle and a validity flag. `Backend.VulkanBackend.RecreateSwapchain` takes the manager's outcome as an input; the manager's own recreation is `Swapchain.SwapchainManager.RecreateSwapchain`. The flag it returns is that of the corrected manager. As written, `recreate_swapchain` returns what the manager's `recreate_swapchain` returns (engine/src/backend/vulkan_backend.cpp:291), and that returns nothing on a non-empty extent (see Findings). `begin_draw` and `end_draw` ignore the flag.
- The render revision's `create_render_pass`, `create_render_pipeline`, `create_command_pool` and `create_sync_primitives` are one-call driver requests. They appear only as the order in which `create_pipeline` calls them.
- The render revision's `recreate_pipeline` and destructor are modelled only through their calls to `clean_pipeline`. `recreate_pipeline` re-creates the render pass, layout, command pool and sync objects without destroying the old ones; that leak is not modelled.
- `getSwapchainImages` is not logged: the images it returns are an input of `GetSwapchainImages` and `GetImages`.
- Logging text, `DEBUG_BREAK` and the exception messages' wording: only the exception class and result code are kept.
- The packing of the application and engine versions in the instance's application info: the model logs one instance creation with the requested extensions and layers.
- Pipeline and vertex-description structs, descriptor and command pool wrappers, windowing, input, ImGui and the runtime's scene objects: these are clients of the core or plain field copies.

## Findings

| source | as written | input that shows it | evidently intended | confidence | as-written member | corrected member |
|---|---|---|---|---|---|---|
| tools/compshdr/src/main.rs:36-46 | `write_as_u32` sets `count = data.len() * 4` on a word slice, so the last-word test never holds | the single word 0 is written `0x00000000, ` | the last word has no separator, as `bintool --as-u32` prints it | not executed | Compshdr.WriteAsU32AsWritten, Compshdr.U32AsWrittenEndsInSeparator, Compshdr.U32AsWrittenSingleWord | Compshdr.WriteAsU32, Compshdr.U32WritersAgreeOnWords |
| engine/src/backend/swapchain.cpp:44-56 | `recreate_swapchain` is declared `bool`, but the non-empty path ends without a `return` | any configuration with non-zero width and height | `true` after a successful recreation, as the header documents | not executed | Swapchain.RecreateResultAsWritten, Swapchain.RecreateAsWrittenReturnsNothing | Swapchain.SwapchainManager.RecreateSwapchain |
| engine/src/backend/swapchain.cpp:33-37 | the three-argument constructor passes the still-default member `configuration` to `init` and never stores its `config` argument | any `config` other than the default one | the manager is initialised with the given configuration | not executed | Swapchain.SwapchainManager.WithConfigurationAsWritten | Swapchain.SwapchainManager.WithConfiguration |
| engine/src/backend/swapchain.cpp:113-127 | `destroy` destroys the swapchain with no null check through `m_device`, which the first `destroy` nulls; the destructor calls `destroy` again | the backend's explicit destroy followed by the manager's destructor | the swapchain destruction is guarded like the render pass's | not executed | Swapchain.SwapchainManager.DestroyAsWritten, Swapchain.DestroyTwiceAsWritten | Swapchain.SwapchainManager.Destroy, Swapchain.DestroyTwice |
| engine/src/backend/instance_manager.cpp:66-77 | `get_unavailable_instance_extensions` and `_layers` set `found = false` on a match, so every name is reported unavailable | names `["a"]` with `"a"` available | exactly the names that are not available, in order | not executed | Instances.UnavailableAsWritten, Instances.AvailableNameStillReported | Instances.Unavailable |
| render/src/backend/instance_manager.cpp:212-241 | a local `available_devices` shadows the member, so the member list of available devices stays empty | one enumerated physical device | `get_available_physical_devices` returns the enumerated devices | not executed | Instances.InstanceManager.StoreDevicesAsWritten, Instances.ShadowedDevicesAreLost | Instances.InstanceManager.StoreDevices |
| render/src/backend/allocation.hpp:136 | the fallback `vmaCreateBuffer` is passed `&buffer`, the output field, as its buffer create info | a first create that fails | the retry passes the same create info as the first attempt | not executed | Allocation.NewHostVisibleAsWritten, Allocation.RetryReadsBufferField | Allocation.NewHostVisible, Allocation.EveryCreateIsRequested |
| engine/src/backend/image_allocation.cpp:5-39 | `transition_layout` builds its barrier from the stored `layout` but never stores the new one | an Undefined image moved to TransferDstOptimal and then to ShaderReadOnlyOptimal | the second barrier starts from TransferDstOptimal, with the transfer-write to shader-read access | not executed | Images.ImageAllocation.TransitionLayoutAsWritten, Images.UploadThenSampleAsWritten | Images.ImageAllocation.TransitionLayout, Images.UploadThenSample |
| engine/src/backend/vulkan_backend.cpp:450 | the descriptor-block `memcpy` is given `MAX_DESCRIPTORS`, a count of handles, as a byte count | any frame set: only its first 16 of 128 descriptor sets are copied | each slot receives its whole block of `MAX_DESCRIPTORS` descriptor sets | not executed | Backend.VulkanBackend.InitializeFrameSetsAsWritten | Backend.VulkanBackend.InitializeFrameSets |
| render/src/render_manager.cpp:567-568 | `clean_pipeline` destroys the pipeline but does not null it, so a later clean destroys it again | a `recreate_pipeline` whose `create_pipeline` throws, followed by the destructor | the pipeline is destroyed once | not executed | Render.RenderManager.CleanPipelineAsWritten, Render.CleanTwiceAsWrittenDestroysPipelineTwice | Render.RenderManager.CleanPipeline, Render.CleanTwiceDestroysPipelineOnce |
| engine/src/backend/vulkan_backend.cpp:484-489 | the bindings throw `vk::OutOfDateKHRError` from `acquireNextImageKHR`, so the `eErrorOutOfDateKHR` test never holds and an out-of-date swapchain throws out of `begin_draw` instead of being recreated | a valid swapchain, a successful wait and an acquisition that answers out-of-date | the error is caught and the swapchain recreated, as `end_draw` does for present | not executed | Backend.VulkanBackend.BeginDrawAsWritten, Backend.VulkanBackend.AcquireFrameAsWritten, Backend.RecreatedOnlyWhenCaught | Backend.VulkanBackend.BeginDraw, Backend.VulkanBackend.AcquireFrame |
| engine/src/backend/vulkan_backend.cpp:673-689 | `vertices.data() + rdbuff_off` and `indices.data() + rdbuff_off` add a byte count to typed pointers, so the read starts at element `rdbuff_off`, byte `24 * rdbuff_off` or `4 * rdbuff_off` | 342 vertices (8208 bytes) or 2049 indices (8196 bytes): the second chunk is read past the data's end | each chunk is read from byte `rdbuff_off` of the data | not executed | Staging.LoadAsWritten, Staging.StagingBuffer.UploadRegionAsWritten, Staging.TypedUploadOverruns | Staging.Load, Staging.StagingBuffer.UploadRegion |
| render/src/backend/allocation.hpp:157-174 | move-assignment copies the source's fields over a live buffer and clears the source, so the target's old buffer is destroyed by neither destructor | move-assigning into a live host-visible allocation | the old buffer is freed, by exchanging the fields as the base class's move-assignment does | not executed | Allocation.HostVisibleAllocation.MoveAssignAsWritten, Allocation.AssignOverLiveAsWritten | Allocation.HostVisibleAllocation.MoveAssign, Allocation.AssignOverLive |
