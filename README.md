# vulkan-rs core, modelled in Dafny

vulkan-rs is a thin Rust wrapper over the Vulkan C ABI. This project models the parts of it that hold
logic of their own:

- the three function-pointer dispatch tables (instance, physical device, logical device) and the policy
  that an unresolved mandatory entry point panics through `unwrap()` while an unresolved extension entry
  is stored as absent;
- the packed `ApiVersion` word and its `major.minor.patch` display;
- instance creation: the file name of the loader library, the C strings and counts of the
  create-info record, and the mapping of native failure codes onto the `Error` enum;
- the physical-device and device queries: the two-call enumeration idiom, extension-gated queries that
  return `None` when the entry point was never resolved, and the panic-on-failure creation calls;
- the swap-chain and image-view builders with their create-info records;
- the flag words and builders: OR-only setters, `contains` tests, the set-or-clear setters of the
  colour write mask and its `Debug` text;
- the wrapper-to-native enum conversions, `Extent2D`, the `Error` enum and its `Display`.

Panics are values: a call that may reach `unreachable!()`, `todo!()`, `unwrap()` of an empty value or
`panic!` returns `Outcome.Run<T>`, either `Returns(value)` or `Aborts(reason)`. Native entry points
are function-typed parameters. A resolver is `(handle, name) -> Option<Addr>`, and the null handle is 0.
A creation call is `create-info -> (result code, handle)`. An enumeration call is
`Option<capacity> -> (result code, written items)`. Handles are plain numbers.

Each module follows one source file or concern:

| file | module | models |
|---|---|---|
| outcome.dfy | `Outcome` | `Option`, and `Run` for values or panics |
| bits.dfy | `Bits` | `u32`, the `as u32` cast, and the OR-only and set-or-clear bit setters |
| text.dfy | `Text` | decimal rendering and reading, splitting at a character, and joining with a separator |
| ffi.dfy | `VkFfi` | the native declarations: result codes, enums, flag bits and create-info records |
| core.dfy | `VkCore` | `src/core.rs` |
| error_codes.dfy | `ErrorCodes` | the error policy every fallible call site shares |
| version.dfy | `VkVersion` | `ApiVersion` (`src/init.rs`) |
| dispatch.dfy | `VkDispatch` | the dispatch tables (`src/init.rs`) |
| cstring.dfy | `CStrings` | `CString::new(..).unwrap()` and the name arrays |
| enumerate.dfy | `VkEnumerate` | the two-call enumeration into a buffer |
| instance.dfy | `VkInstance` | `Instance`, `InstanceBuilder` and `ApplicationInfo` (`src/init.rs`) |
| device.dfy | `VkDevice` | `src/device.rs` |
| wsi.dfy | `VkWsi` | the enums, flags and flag builder of `src/wsi.rs` |
| swapchain.dfy | `VkSwapchain` | `SwapchainBuilderKhr` (`src/wsi.rs`) |
| resource.dfy | `VkResource` | the enums, flags, builders and conversions of `src/resource.rs` |
| image_view.dfy | `VkImageView` | `ImageViewBuilder` (`src/resource.rs`) |
| pipeline.dfy | `VkPipeline` | `src/pipeline.rs` |

The code follows the shape of the source:

- Builders that take `&mut self` are classes whose methods modify their fields.
- Builders that take `mut self` by value are datatypes with functions.
- The `Debug` of the colour write mask is a method that writes step by step with a `first` flag.
- The two-call enumeration fills an array in a loop.

Three facts about the code that a reader might not expect, which the model follows:

- On Unix-like targets the instance table resolves both the XCB and the Xlib surface entries
  (src/init.rs:494-508), not exactly one windowing backend.
- The capability query has no arm for `Incomplete`, so it reaches `unreachable!()`
  (src/device.rs:313-316); the list queries `todo!()` on it (src/device.rs:252-263).
- The swap-chain builder neither clamps the image count nor picks a format or present mode; it copies
  what it is given (src/wsi.rs:221-250).

## Model

| member | source | states |
|---|---|---|
| Outcome.Unwrap | src/init.rs:486 | `Option::unwrap` returns the value of `Some` and panics on `None` |
| Bits.TruncU32 | src/init.rs:376-377 | `len() as u32` keeps a length below 2^32 and otherwise wraps modulo 2^32 |
| Bits.Include | src/resource.rs:235-240 | an OR-only setter sets its bit when given `true`, leaves the word unchanged when given `false`, and moves no other bit |
| Bits.IncludeNeverClears | src/resource.rs:235-310 | an OR-only setter never clears a bit that was set |
| Bits.IncludeCommutes | src/resource.rs:235-310 | two OR-only setters applied in either order give the same word |
| Bits.IncludeIdempotent | src/resource.rs:235-310 | repeating an OR-only setter changes nothing |
| Bits.SetBit | src/pipeline.rs:375-376 | the OR-assign of a bit leaves that bit set and every other bit as it was |
| Bits.ClearBit | src/pipeline.rs:377-378 | `self.0 &= !bit` leaves the bit clear and every other bit as it was |
| Bits.AssignDecides | src/pipeline.rs:374-381 | a set-or-clear setter of a non-zero bit leaves its bit set exactly when given `true` and moves no other bit |
| Bits.AssignDecidesBit | src/pipeline.rs:374-381 | after a set-or-clear setter its own bit is set if and only if the setter was given `true` |
| Bits.AssignKeepsOthers | src/pipeline.rs:374-381 | a set-or-clear setter moves no bit other than its own |
| Bits.AssignLastWins | src/pipeline.rs:374-408 | of two calls of the same set-or-clear setter, the last one decides the word |
| VkCore.NewExtentReadsBack | src/core.rs:56-68 | `Extent2D::new(w, h)` has width `w` and height `h` |
| VkCore.DefaultExtent2D | src/core.rs:5-9 | the default extent is 0 × 0 |
| VkCore.ExtentConversionsInverse | src/core.rs:70-86 | the two conversions copy width and height and are mutual inverses |
| VkCore.DisplayIgnoresVariant | src/core.rs:48-52 | every `Error` displays as `vulkan run-time error` |
| ErrorCodes.NamesAgree | src/init.rs:418-423 | each `Error` variant has exactly one same-named native code, and the codes without one are exactly the seven non-failure codes |
| ErrorCodes.Handled | src/init.rs:406-425 | the shared policy: a handled code becomes its same-named `Error`; `Incomplete` panics with `todo!()` where the site says so; every other code is `unreachable!()` |
| ErrorCodes.Failed | src/init.rs:418-424 | a handled failure becomes `Err(error)`, and a panic stays a panic |
| VkVersion.ApiVersion.Major | src/init.rs:438-440 | the major number is at most 127 for any word |
| VkVersion.ApiVersion.Minor | src/init.rs:442-444 | the minor number is at most 1023 for any word |
| VkVersion.ApiVersion.Patch | src/init.rs:446-448 | the patch number is at most 4095 for any word |
| VkVersion.New | src/init.rs:434-436 | for in-range fields, the accessors read back exactly the variant, major, minor and patch packed in |
| VkVersion.FieldsRoundTrip | src/init.rs:434-448 | the bit-exact round trip of packing and then unpacking in-range fields |
| VkVersion.NewOfFields | src/init.rs:434-448 | packing the four fields of any word gives that word back |
| VkVersion.AccessorsIgnoreVariant | src/init.rs:438-448 | major, minor and patch do not depend on the variant bits 29-31 |
| VkVersion.From | src/init.rs:457-461 | `From<u32>` stores the word unchanged |
| VkVersion.ConstantsDecode | src/init.rs:429-433 | `V1_0`, `V1_1` and `V1_2` decode to 1.0.0, 1.1.0 and 1.2.0; the default word 0 decodes to 0.0.0 |
| VkVersion.DisplayReadsBack | src/init.rs:451-455 | the display is exactly the three decimal numbers separated by dots; reading it back gives major, minor and patch |
| CStrings.CStringNew | src/init.rs:323-332 | `CString::new(..).unwrap()` panics exactly when the text holds a NUL; otherwise it is the text followed by one NUL |
| CStrings.CStringReadsBack | src/init.rs:323-332 | dropping the terminator gives the original text back |
| CStrings.CStringsOf | src/init.rs:358-367 | converting a name list panics exactly when some name holds a NUL; otherwise each name is NUL-terminated in place |
| CStrings.NameArray | src/init.rs:358-384 | an absent list gives count 0 and a null array; a present list gives its length as `u32` and the converted names |
| VkDispatch.DispatchLoaderInstance.constructor | src/init.rs:464-483 | stores the resolver and resolves only `vkEnumerateInstanceVersion` and `vkCreateInstance`, against the null instance |
| VkDispatch.DispatchLoaderInstance.Load | src/init.rs:485-519 | panics when no resolver is stored and otherwise fills the instance-level entries, the surface entries only on the targets that compile them |
| VkDispatch.PhysicalDeviceTable | src/init.rs:522-576 | panics exactly when the resolver is missing or a mandatory entry is unresolved; otherwise each entry is what the resolver returned for its name |
| VkDispatch.DeviceTable | src/init.rs:579-656 | panics exactly when a mandatory device entry is unresolved; otherwise the entries are the resolver's answers and the swap-chain entries stay optional |
| VkEnumerate.FillBuffer | src/init.rs:119-131 | the second call's written items, cut to its returned count, come out in order, and there are no more than the capacity |
| VkDevice.DeviceTypeFromNative | src/device.rs:66-73 | the conversion panics exactly on `MaxEnum` |
| VkDevice.DeviceTypeOneToOne | src/device.rs:66-73 | the conversions are mutual inverses on the five real device types |
| VkDevice.Properties | src/device.rs:57-86 | the properties copy the native fields, and the device type panics on `MaxEnum` |
| VkDevice.SingleQueueBitSupport | src/device.rs:572-588 | a family whose flags hold one queue bit supports exactly that capability |
| VkDevice.GetQueueFamilyProperties | src/device.rs:88-120 | there is one family per item of the second call, with flags and count copied |
| VkDevice.QueueCreateInfos | src/device.rs:128-139 | one queue create-info per (index, priorities) pair, up to the shorter list, with the index and priorities copied |
| VkDevice.DeviceCreateInfoOf | src/device.rs:128-166 | the queue records, no layers, and the extension array holding each given name with a NUL appended, in order, with its count; panics exactly when an extension name holds a NUL |
| VkDevice.CreateDevice | src/device.rs:122-193 | success gives the device with its table from the device resolver; any other code panics |
| VkDevice.SurfaceListFailure | src/device.rs:252-263 | the error map of the surface list queries equals the shared policy for OutOfHostMemory, OutOfDeviceMemory and SurfaceLostKhr, with `todo!()` on `Incomplete` |
| VkDevice.SurfaceCapabilitiesFailure | src/device.rs:313-316 | the capability query's error map equals the shared policy for the same three codes, without the `Incomplete` arm |
| VkDevice.SwapchainImagesFailure | src/device.rs:513-522 | the swap-chain image query's error map equals the shared policy for OutOfHostMemory and OutOfDeviceMemory, with `todo!()` on `Incomplete` |
| VkDevice.ShaderModuleFailure | src/device.rs:557-560 | the shader-module error map equals the shared policy for OutOfHostMemory, OutOfDeviceMemory and InvalidShaderNv |
| VkDevice.Present | src/device.rs:225 | wraps the result of a resolved extension query in `Some`, and keeps a panic a panic |
| VkDevice.GatedListing | src/device.rs:204-265 | gives `None` when the entry was never resolved; otherwise the two-call listing, converted, or its mapped failure |
| VkDevice.GetSurfaceFormatsKhr | src/device.rs:204-265 | the surface format query, gated on its entry and listed by two calls |
| VkDevice.GetSurfacePresentModesKhr | src/device.rs:320-375 | the present-mode query, gated on its entry and listed by two calls |
| VkDevice.GetSwapchainImagesKhr | src/device.rs:462-525 | the swap-chain image query, gated on its entry and listed by two calls |
| VkDevice.CapabilitiesFromNative | src/device.rs:300-311 | every capability field is copied or converted from the native record |
| VkDevice.GetSurfaceCapabilitiesKhr | src/device.rs:267-318 | gives `None` when the entry was never resolved; success gives the converted capabilities; a failure maps as the capability policy says |
| VkDevice.GetQueue | src/device.rs:379-394 | gives `None` exactly when the native call returns the null handle |
| VkDevice.CreateCommandPool | src/device.rs:396-428 | success gives the pool for the family index cast to `u32`; any other code panics |
| VkDevice.CreateSemaphore | src/device.rs:430-460 | success gives the semaphore; any other code panics |
| VkDevice.CreateShaderModule | src/device.rs:527-562 | the create-info holds the code and its length; success gives the module, and a failure maps as the shader-module policy says |
| VkInstance.DefaultApplicationInfo | src/init.rs:28-35 | the default application info has no names and all three versions are the word 0 |
| VkInstance.LibraryFileName | src/init.rs:310-316 | Unix targets open `libvulkan.so`, Windows opens `vulkan-1.dll`, and every other target gets the empty name |
| VkInstance.OptionalCString | src/init.rs:323-332 | an absent name stays absent; a present one is NUL-terminated, or panics when it holds a NUL |
| VkInstance.ApplicationInfoToNative | src/init.rs:323-354 | each present name becomes the same name with a NUL appended and an absent one stays null; the three raw version words are copied; panics exactly when a name holds a NUL |
| VkInstance.InstanceCreateInfoOf | src/init.rs:356-394 | flags 0, the optional application info, and layer and extension arrays that hold each given name with a NUL appended, in order, with their counts; panics exactly when a name holds a NUL |
| VkInstance.CreateInstanceFailure | src/init.rs:406-425 | instance creation's error map equals the shared policy for its six codes |
| VkInstance.Instance.constructor | src/init.rs:411-416 | an instance keeps its handle and its dispatch table |
| VkInstance.Instance.Version | src/init.rs:264-274 | `None` exactly when `vkEnumerateInstanceVersion` was not resolved; otherwise the reported word |
| VkInstance.Instance.EnumeratePhysicalDevices | src/init.rs:106-142 | panics on a missing entry or a failed call; otherwise one physical device per handle of the second call, each with the physical-device table |
| VkInstance.InstanceBuilder.constructor | src/init.rs:289-292 | a new builder has no application info, layers or extensions |
| VkInstance.InstanceBuilder.WithApplicationInfo | src/init.rs:294-297 | sets the application info and nothing else |
| VkInstance.InstanceBuilder.WithLayers | src/init.rs:299-302 | sets the layers and nothing else |
| VkInstance.InstanceBuilder.WithExtensions | src/init.rs:304-307 | sets the extensions and nothing else |
| VkInstance.InstanceBuilder.Build | src/init.rs:309-426 | passes the assembled create-info to the native call; success gives a loaded instance, a failure maps as the instance policy says, and a NUL in a name panics |
| VkInstance.NewInstance | src/init.rs:98-100 | `Instance::new()` builds with no application info, layers or extensions |
| VkSwapchain.New | src/wsi.rs:180-209 | stores every argument, with flags 0 and one array layer |
| VkSwapchain.WithFlags | src/wsi.rs:211-214 | replaces the flags and nothing else |
| VkSwapchain.WithImageArrayLayers | src/wsi.rs:216-219 | replaces the array layer count and nothing else |
| VkSwapchain.QueueFamilyIndicesOf | src/wsi.rs:237-244 | exclusive sharing gives count 0 and a null list; concurrent gives the list and its length as `u32` |
| VkSwapchain.CreateInfoOf | src/wsi.rs:222-250 | every field of the native create-info is the builder's field, converted; no old swap chain is given |
| VkSwapchain.CreateSwapchainFailure | src/wsi.rs:263-279 | swap-chain creation's error map equals the shared policy for its six codes |
| VkSwapchain.Build | src/wsi.rs:221-281 | panics when the swap-chain entry is absent; success gives the swap chain, and a failure maps as the swap-chain policy says |
| VkImageView.ImageViewBuilder.constructor | src/resource.rs:148-162 | stores the image, view type, format and range, with flags 0 and the identity mapping |
| VkImageView.ImageViewBuilder.WithComponents | src/resource.rs:164-167 | replaces the component mapping and nothing else |
| VkImageView.ImageViewBuilder.WithFlags | src/resource.rs:169-171 | always panics with `todo!()` |
| VkImageView.ImageViewBuilder.CreateInfo | src/resource.rs:174-186 | the native create-info carries the builder's fields, converted |
| VkImageView.ImageViewBuilder.Build | src/resource.rs:173-213 | success gives the view; a failure maps as the image-view policy says |
| VkImageView.CreateImageViewFailure | src/resource.rs:199-212 | the image-view error map equals the shared policy for OutOfHostMemory and OutOfDeviceMemory |
| VkResource.ImageViewTypeOneToOne | src/resource.rs:216-228 | the view-type conversion is one-to-one and onto |
| VkResource.ImageAspectFlagsBuilder.constructor | src/resource.rs:230-233 | a new aspect builder holds the word 0 |
| VkResource.ImageAspectFlagsBuilder.Include | src/resource.rs:235-310 | an aspect setter ORs its bit in when given `true` and never clears a bit |
| VkResource.ImageAspectFlagsBuilder.Build | src/resource.rs:312-315 | the built flags are the builder's word |
| VkResource.UsageBitsDistinct | src/resource.rs:417-440 | the word holding one usage's bit contains that usage and no other |
| VkResource.IncludedUsageIsContained | src/resource.rs:417-515 | after a usage setter given `true` the flags contain it, and setting more bits keeps it |
| VkResource.ImageUsageFlagsBuilder.constructor | src/resource.rs:443-445 | a new usage builder holds the word 0 |
| VkResource.ImageUsageFlagsBuilder.Include | src/resource.rs:447-515 | a usage setter ORs its bit in when given `true` and never clears a bit |
| VkResource.ImageUsageFlagsBuilder.Build | src/resource.rs:517-520 | the built flags are the builder's word |
| VkResource.SwizzleConversionsInverse | src/resource.rs:362-388 | the two swizzle conversions are mutual inverses |
| VkResource.DefaultComponentMapping | src/resource.rs:317-321 | every channel of the default mapping is `Identity` |
| VkResource.ComponentMappingToNative | src/resource.rs:406-415 | the conversion maps each channel to its own native field |
| VkResource.SubresourceRangeCopied | src/resource.rs:341-351 | the conversion copies the aspect word and all four counters |
| VkResource.SharingModeToNative | src/resource.rs:353-360 | the native mode is exclusive exactly for `Exclusive` |
| VkWsi.ColorSpaceConversionsInverse | src/wsi.rs:304-349 | the two colour-space conversions are mutual inverses |
| VkWsi.SurfaceTransformConversionsInverse | src/wsi.rs:350-393 | the two surface-transform conversions are mutual inverses |
| VkWsi.SurfaceTransformBitsDistinct | src/wsi.rs:405-411 | the word holding one transform's bit contains that transform and no other |
| VkWsi.CompositeAlphaBitsDistinct | src/wsi.rs:394-419 | composite-alpha bits are distinct, and the word holding one contains only it |
| VkWsi.PresentModeConversionsInverse | src/wsi.rs:452-476 | the two present-mode conversions are mutual inverses |
| VkWsi.SwapchainCreateFlagsBuilderKhr.constructor | src/wsi.rs:422-424 | a new swap-chain flags builder holds the word 0 |
| VkWsi.SwapchainCreateFlagsBuilderKhr.SplitInstanceBindRegions | src/wsi.rs:426-431 | ORs in bit 0x1 when given `true` and never clears a bit |
| VkWsi.SwapchainCreateFlagsBuilderKhr.Protected | src/wsi.rs:433-438 | ORs in bit 0x2 when given `true` and never clears a bit |
| VkWsi.SwapchainCreateFlagsBuilderKhr.MutableFormat | src/wsi.rs:440-445 | ORs in bit 0x4 when given `true` and never clears a bit |
| VkWsi.SwapchainCreateFlagsBuilderKhr.Build | src/wsi.rs:447-450 | the built flags are the builder's word |
| VkPipeline.DefaultsAreFirstVariants | src/pipeline.rs:315-367 | the defaults are CounterClockwise, PointList, Fill, Clear, Vertex, None, OneBit, Zero and Add |
| VkPipeline.NewColorComponentFlags | src/pipeline.rs:369-372 | the new colour write mask is the word 0, so none of the four component bits is set |
| VkPipeline.WithComponent | src/pipeline.rs:374-408 | `with_red/green/blue/alpha(on)` leave the component's bit set exactly when `on` and move no other bit |
| VkPipeline.WithComponentLastWins | src/pipeline.rs:374-408 | of two calls of the same component setter the last one wins, and repeating a call is idempotent |
| VkPipeline.SetComponentNamesExact | src/pipeline.rs:416-447 | a component is named exactly when its bit is set, and the names appear in the order RED, BLUE, GREEN, ALPHA |
| VkPipeline.WithComponentShows | src/pipeline.rs:374-447 | after a setter, the text names the component exactly when the setter was given `true` |
| VkPipeline.ColorComponentFlagsDebug | src/pipeline.rs:411-450 | the step-by-step writer produces `"()"` for 0, and otherwise the set components' names joined by a space, a bar and a space |
| VkPipeline.ForeignBitsPrintNothing | src/pipeline.rs:416-447 | a non-zero word with none of the four component bits prints the empty string |
| VkPipeline.NewPrintsParens | src/pipeline.rs:413-414 | the new mask prints `"()"` |
| VkPipeline.AllComponentsText | src/pipeline.rs:416-447 | all four bits print the four names in the order RED, BLUE, GREEN, ALPHA, separated by bars |
| VkPipeline.AllComponentsNames | src/pipeline.rs:416-447 | with all four bits set, the listed names are RED, BLUE, GREEN, ALPHA in that order |
| VkPipeline.FourNamesJoined | src/pipeline.rs:416-447 | the four names joined by the bar separator read RED, BLUE, GREEN, ALPHA with one separator between neighbours |
| VkPipeline.GreenAlphaText | src/pipeline.rs:416-447 | green and alpha alone print GREEN then ALPHA with one separator between them and none before |
| VkPipeline.FlagsDebug | src/pipeline.rs:452-543 | the multisample and colour-blend words always print `"()"`; the others print `"()"` exactly for 0 and `"non-empty"` otherwise |
| VkPipeline.NewShaderStage | src/pipeline.rs:463-471 | stage Vertex, name `"main"`, flags 0, no specialization info, and the given module |
| VkPipeline.WithShaderStageFlags | src/pipeline.rs:473-476 | replaces the flags and nothing else |
| VkPipeline.WithStage | src/pipeline.rs:478-481 | replaces the stage and nothing else |
| VkPipeline.WithName | src/pipeline.rs:483-486 | replaces the entry-point name and nothing else |
| VkPipeline.WithSpecializationInfo | src/pipeline.rs:488-490 | always panics with `todo!()` |
| VkPipeline.ShaderStageSettersCommute | src/pipeline.rs:473-486 | the three setters may be applied in any order |
| VkPipeline.DefaultVertexInputState | src/pipeline.rs:236-241 | the default vertex input state has flags 0 and neither description list |
| VkPipeline.WithVertexBindingDescriptions | src/pipeline.rs:546-552 | gives the binding list and changes nothing else |
| VkPipeline.WithVertexAttributeDescriptions | src/pipeline.rs:554-560 | gives the attribute list and changes nothing else |
| VkPipeline.NewInputAssemblyState | src/pipeline.rs:563-587 | `new()`, which `Default` also returns, has flags 0, topology PointList and primitive restart off |
| VkPipeline.WithTopology | src/pipeline.rs:572-575 | replaces the topology and nothing else |
| VkPipeline.WithPrimitiveRestartEnable | src/pipeline.rs:577-580 | replaces the primitive-restart switch and nothing else |

## Left out

- VkInstance.LibraryFileName: stands alone. Opening the library is I/O, so `Build` takes the resolved `vkGetInstanceProcAddr` as a parameter and never looks at the file name.
- Dynamic loading: opening the loader library and looking up `vkGetInstanceProcAddr` (`src/linker/`) is
  not modelled. The model takes the resolver as a parameter and keeps only the library file name.
- The `Drop` impls and the destroy calls they make are not modelled; teardown order comes from Rust
  lifetimes, which have no runtime code.
- Surface creation from a raw window handle (`Instance::create_surface_khr`) is not modelled. It passes
  OS window handles to foreign calls and has no logic beyond picking the backend.
- Floating-point values (queue priorities, viewport, depth bias, line width, blend constants) are opaque
  values (`VkFfi.F32`). The pipeline builders that only store floats, and the viewport, rasterization,
  multisample and colour-blend builders, are not modelled.
- `src/format.rs` is not part of this model. A format is an opaque native code.
- The unchecked UTF-8 reading of the device name is not modelled; the name is taken as given by the driver.
- Formatter failures are not modelled: `ColorComponentFlagsDebug` and `FlagsDebug` assume every write succeeds.
- `vkCreateShaderModule` is called at `src/device.rs:539` through an entry the device table does not
  declare. `VkDevice.CreateShaderModule` therefore takes the native call as a parameter.
- Entries that a target does not compile are stored as `None`, rather than being absent from the record.
- VkEnumerate.FillBuffer: the native enumeration calls are assumed to keep their contract, through `VkEnumerate.Conforms`.
  A call with a capacity writes at most that many items, and the wrapper relies on the same promise.
- VkInstance.Instance.EnumeratePhysicalDevices: the source builds each physical device's dispatch table
  lazily, per item of the returned iterator. The model builds the table once, up front, so a panic
  while building it is a panic of the whole call.
- VkPipeline.WithComponent: one setter takes the component as an argument, standing for the four named
  setters `with_red`, `with_green`, `with_blue` and `with_alpha`. The same holds for
  `VkResource.ImageAspectFlagsBuilder.Include` (eleven setters) and
  `VkResource.ImageUsageFlagsBuilder.Include` (ten setters).
- VkDevice.SingleQueueBitSupport: a family with several queue bits should support exactly the union of
  their capabilities; only the one-bit case is proved.
- Bits.AssignLastWins: commutation of set-or-clear setters on different bits is not proved.
