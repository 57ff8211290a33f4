/**
 * Physical devices, logical devices and what they create: device
 * properties, queue families, logical-device creation, the surface queries
 * of `VK_KHR_surface`, queues, command pools, semaphores, swap-chain images
 * and shader modules.
 */
module VkDevice {
  import opened Outcome
  import opened Bits
  import opened VkCore
  import opened CStrings
  import opened VkEnumerate
  import opened VkDispatch
  import VkVersion
  import ErrorCodes
  import VkWsi
  import VkResource
  import ffi = VkFfi

  datatype PhysicalDevice = PhysicalDevice(handle: ffi.Handle, dispatchLoader: DispatchLoaderPhysicalDevice)

  datatype Device = Device(handle: ffi.Handle, dispatchLoader: DispatchLoaderDevice)

  datatype Queue = Queue(handle: ffi.Handle)

  datatype CommandPool = CommandPool(handle: ffi.Handle)

  datatype Semaphore = Semaphore(handle: ffi.Handle)

  datatype ShaderModule = ShaderModule(handle: ffi.Handle)

  /** A native call that creates one object: its result code and the handle it stored. */
  type Creation<!I> = I -> (ffi.Result, ffi.Handle)

  // ---------------------------------------------------------------- properties

  datatype PhysicalDeviceType = Other | IntegratedGpu | DiscreteGpu | VirtualGpu | Cpu

  /** The device-type match of `properties()`: the sentinel `MaxEnum` panics. */
  function DeviceTypeFromNative(n: ffi.PhysicalDeviceType): (r: Run<PhysicalDeviceType>)
    ensures r.Aborts? <==> n.MaxEnum?
    ensures r.Aborts? ==> r.reason == Panic
  {
    match n
    case Other => Returns(Other)
    case IntegratedGpu => Returns(IntegratedGpu)
    case DiscreteGpu => Returns(DiscreteGpu)
    case VirtualGpu => Returns(VirtualGpu)
    case Cpu => Returns(Cpu)
    case MaxEnum => Aborts(Panic)
  }

  /** The native value of the same name. */
  function DeviceTypeToNative(t: PhysicalDeviceType): ffi.PhysicalDeviceType {
    match t
    case Other => ffi.PhysicalDeviceType.Other
    case IntegratedGpu => ffi.PhysicalDeviceType.IntegratedGpu
    case DiscreteGpu => ffi.PhysicalDeviceType.DiscreteGpu
    case VirtualGpu => ffi.PhysicalDeviceType.VirtualGpu
    case Cpu => ffi.PhysicalDeviceType.Cpu
  }

  /** The match is one-to-one between the five real native types and the wrapper's. */
  lemma DeviceTypeOneToOne(t: PhysicalDeviceType, n: ffi.PhysicalDeviceType)
    ensures DeviceTypeFromNative(DeviceTypeToNative(t)) == Returns(t)
    ensures !n.MaxEnum? ==> DeviceTypeToNative(DeviceTypeFromNative(n).value) == n
  {
  }

  datatype PhysicalDeviceProperties = PhysicalDeviceProperties(
    apiVersion: VkVersion.ApiVersion,
    deviceType: PhysicalDeviceType,
    deviceName: string)

  /**
   * `properties()`, given what `vkGetPhysicalDeviceProperties` stored: the
   * version word and the name are kept, the device type is converted.
   */
  function Properties(native: ffi.PhysicalDeviceProperties): (r: Run<PhysicalDeviceProperties>)
    ensures r.Aborts? <==> native.deviceType.MaxEnum?
    ensures r.Aborts? ==> r.reason == Panic
    ensures r.Returns? ==>
      && r.value.apiVersion == VkVersion.From(native.apiVersion)
      && DeviceTypeToNative(r.value.deviceType) == native.deviceType
      && r.value.deviceName == native.deviceName
  {
    var deviceType :- DeviceTypeFromNative(native.deviceType);
    Returns(PhysicalDeviceProperties(VkVersion.From(native.apiVersion), deviceType, native.deviceName))
  }

  // ------------------------------------------------------------ queue families

  /** `QueueFamilyProperties`: the queue-flag word and the queue count. */
  datatype QueueFamilyProperties = QueueFamilyProperties(queueFlags: bv32, queueCount: u32)
  {
    /** The native bit of `b` is set in the queue-flag word. */
    predicate Supports(b: ffi.QueueFlagBits) { queueFlags & b.Bit() != 0 }

    predicate SupportsGraphics() { Supports(ffi.QueueFlagBits.GraphicsBit) }
    predicate SupportsCompute() { Supports(ffi.QueueFlagBits.ComputeBit) }
    predicate SupportsTransfer() { Supports(ffi.QueueFlagBits.TransferBit) }
    predicate SupportsSparseBinding() { Supports(ffi.QueueFlagBits.SparseBindingBit) }
  }

  /** A family whose word holds one queue bit supports exactly that capability. */
  lemma SingleQueueBitSupport(b: ffi.QueueFlagBits, count: u32)
    ensures var p := QueueFamilyProperties(b.Bit(), count);
      && (p.SupportsGraphics() <==> b.GraphicsBit?)
      && (p.SupportsCompute() <==> b.ComputeBit?)
      && (p.SupportsTransfer() <==> b.TransferBit?)
      && (p.SupportsSparseBinding() <==> b.SparseBindingBit?)
  {
  }

  /**
   * `queue_family_properties()`: the two-call idiom on
   * `vkGetPhysicalDeviceQueueFamilyProperties`, which returns nothing; the
   * result has as many families as the second call reported.
   */
  method GetQueueFamilyProperties(pd: PhysicalDevice, enumerate: Enumerator<ffi.QueueFamilyProperties>)
    returns (families: seq<QueueFamilyProperties>)
    requires Conforms(enumerate) && enumerate(None).code == ffi.Result.Success
    ensures var second := enumerate(Some(enumerate(None).written.count)).written;
      && |families| == second.count
      && forall i :: 0 <= i < |families| ==>
           families[i].queueFlags == second.items[i].queueFlags &&
           families[i].queueCount == second.items[i].queueCount
  {
    var capacity := enumerate(None).written.count;
    var _, written := FillBuffer(enumerate, capacity);
    families := seq(|written|, i requires 0 <= i < |written| =>
      QueueFamilyProperties(written[i].queueFlags, written[i].queueCount));
  }

  // ----------------------------------------------------------- logical device

  /**
   * The queue records of `create_device`: one per pair of the zipped index
   * and priority lists, in order, the index and the priority count as `u32`.
   */
  function QueueCreateInfos(indices: seq<nat>, priorities: seq<seq<ffi.F32>>)
    : (r: seq<ffi.DeviceQueueCreateInfo>)
    ensures |r| == if |indices| <= |priorities| then |indices| else |priorities|
    ensures forall i :: 0 <= i < |r| ==>
      && r[i].flags == 0
      && r[i].queueFamilyIndex == TruncU32(indices[i])
      && r[i].queueCount == TruncU32(|priorities[i]|)
      && r[i].queuePriorities == priorities[i]
    decreases |indices|
  {
    if indices == [] || priorities == [] then []
    else
      [ffi.DeviceQueueCreateInfo(0, TruncU32(indices[0]), TruncU32(|priorities[0]|), priorities[0])]
      + QueueCreateInfos(indices[1..], priorities[1..])
  }

  /**
   * The `VkDeviceCreateInfo` of `create_device`: the queue records, no
   * layers, and the extension names (count 0 and null when absent).
   */
  function DeviceCreateInfoOf(indices: seq<nat>, priorities: seq<seq<ffi.F32>>, extensions: Option<seq<string>>)
    : (r: Run<ffi.DeviceCreateInfo>)
    ensures r.Aborts? <==> extensions.Some? && AnyNul(extensions.value)
    ensures r.Aborts? ==> r.reason == UnwrapNone
    ensures r.Returns? ==>
      && r.value.flags == 0
      && r.value.queueCreateInfos == QueueCreateInfos(indices, priorities)
      && r.value.queueCreateInfoCount == TruncU32(|r.value.queueCreateInfos|)
      && r.value.enabledLayerCount == 0 && r.value.enabledLayerNames.None?
      && (r.value.enabledExtensionNames.None? <==> extensions.None?)
      && r.value.enabledExtensionCount == (if extensions.Some? then TruncU32(|extensions.value|) else 0)
    ensures r.Returns? && extensions.Some? ==>
      && |r.value.enabledExtensionNames.value| == |extensions.value|
      && forall i :: 0 <= i < |extensions.value| ==>
           r.value.enabledExtensionNames.value[i] == extensions.value[i] + [NUL]
  {
    var infos := QueueCreateInfos(indices, priorities);
    var names :- NameArray(extensions);
    Returns(ffi.DeviceCreateInfo(0, TruncU32(|infos|), infos, 0, None, names.0, names.1))
  }

  /**
   * `create_device`: any result but `Success` panics; on success the device
   * table is built from `gdpa`, the behaviour of the physical device's
   * `vkGetDeviceProcAddr`, with the new device's handle.
   */
  function CreateDevice(pd: PhysicalDevice, indices: seq<nat>, priorities: seq<seq<ffi.F32>>,
                        extensions: Option<seq<string>>, gdpa: ffi.DeviceProcAddr,
                        create: Creation<ffi.DeviceCreateInfo>): (r: Run<Device>)
    ensures var info := DeviceCreateInfoOf(indices, priorities, extensions);
      && (info.Aborts? ==> r == Aborts(UnwrapNone))
      && (info.Returns? && create(info.value).0 != ffi.Result.Success ==> r == Aborts(Panic))
      && (info.Returns? && create(info.value).0 == ffi.Result.Success ==>
            var handle := create(info.value).1;
            && (r.Returns? <==> DeviceTable(gdpa, handle).Returns?)
            && (r.Aborts? ==> r.reason == UnwrapNone)
            && (r.Returns? ==> r.value == Device(handle, DeviceTable(gdpa, handle).value)))
  {
    var info :- DeviceCreateInfoOf(indices, priorities, extensions);
    var (code, handle) := create(info);
    if code != ffi.Result.Success then Aborts(Panic)
    else
      var table :- DeviceTable(gdpa, handle);
      Returns(Device(handle, table))
  }

  // ---------------------------------------------------- error-code mappings

  const SURFACE_ERRORS: set<Error> := {OutOfHostMemory, OutOfDeviceMemory, SurfaceLostKhr}

  /** The failure arms of the surface-format and present-mode queries. */
  function SurfaceListFailure(code: ffi.Result): (r: Run<Error>)
    ensures r == ErrorCodes.Handled(code, SURFACE_ERRORS, true)
  {
    match code
    case Incomplete => Aborts(Todo)
    case ErrorOutOfHostMemory => Returns(OutOfHostMemory)
    case ErrorOutOfDeviceMemory => Returns(OutOfDeviceMemory)
    case ErrorSurfaceLostKhr => Returns(SurfaceLostKhr)
    case _ => Aborts(Unreachable)
  }

  /** The failure arms of the surface-capabilities query, which has no `Incomplete` arm. */
  function SurfaceCapabilitiesFailure(code: ffi.Result): (r: Run<Error>)
    ensures r == ErrorCodes.Handled(code, SURFACE_ERRORS, false)
  {
    match code
    case ErrorOutOfHostMemory => Returns(OutOfHostMemory)
    case ErrorOutOfDeviceMemory => Returns(OutOfDeviceMemory)
    case ErrorSurfaceLostKhr => Returns(SurfaceLostKhr)
    case _ => Aborts(Unreachable)
  }

  const SWAPCHAIN_IMAGE_ERRORS: set<Error> := {OutOfHostMemory, OutOfDeviceMemory}

  /** The failure arms of `get_swapchain_images_khr`. */
  function SwapchainImagesFailure(code: ffi.Result): (r: Run<Error>)
    ensures r == ErrorCodes.Handled(code, SWAPCHAIN_IMAGE_ERRORS, true)
  {
    match code
    case Incomplete => Aborts(Todo)
    case ErrorOutOfHostMemory => Returns(OutOfHostMemory)
    case ErrorOutOfDeviceMemory => Returns(OutOfDeviceMemory)
    case _ => Aborts(Unreachable)
  }

  const SHADER_MODULE_ERRORS: set<Error> := {OutOfHostMemory, OutOfDeviceMemory, InvalidShaderNv}

  /** The failure arms of `create_shader_module`. */
  function ShaderModuleFailure(code: ffi.Result): (r: Run<Error>)
    ensures r == ErrorCodes.Handled(code, SHADER_MODULE_ERRORS, false)
  {
    match code
    case ErrorOutOfHostMemory => Returns(OutOfHostMemory)
    case ErrorOutOfDeviceMemory => Returns(OutOfDeviceMemory)
    case ErrorInvalidShaderNv => Returns(InvalidShaderNv)
    case _ => Aborts(Unreachable)
  }

  // --------------------------------------------------- gated two-call queries

  /** A query's outcome once its entry point is known to exist: `Some` of it. */
  function Present<T>(r: Run<Result<T>>): (g: Run<Option<Result<T>>>)
    ensures g.Returns? <==> r.Returns?
    ensures g.Returns? ==> g.value == Some(r.value)
    ensures g.Aborts? ==> g.reason == r.reason
  {
    match r
    case Returns(v) => Returns(Some(v))
    case Aborts(why) => Aborts(why)
  }

  /**
   * What a listing query through the two-call idiom yields once its entry
   * exists: the failure of the first call if it fails, else the failure of
   * the second, else the elements the second call reported, converted.
   */
  ghost predicate ListedBy<N, T>(enumerate: Enumerator<N>, convert: N -> T, failure: ffi.Result -> Run<Error>,
                                 r: Run<Option<Result<seq<T>>>>)
  {
    var first := enumerate(None);
    var second := enumerate(Some(first.written.count));
    && (first.code != ffi.Result.Success ==> r == Present(ErrorCodes.Failed(failure(first.code))))
    && (first.code == ffi.Result.Success && second.code != ffi.Result.Success ==>
          r == Present(ErrorCodes.Failed(failure(second.code))))
    && (first.code == ffi.Result.Success && second.code == ffi.Result.Success ==>
          && r.Returns? && r.value.Some? && r.value.value.Ok?
          && |r.value.value.value| == second.written.count
          && forall i :: 0 <= i < second.written.count && i < |second.written.items| ==> r.value.value.value[i] == convert(second.written.items[i]))
  }

  /**
   * The shape shared by the listing queries: `None` without any native call
   * when the entry point is absent, otherwise the two-call idiom.
   */
  method GatedListing<N(0), T>(entry: Option<ffi.Addr>, enumerate: Enumerator<N>, convert: N -> T,
                               failure: ffi.Result -> Run<Error>)
    returns (r: Run<Option<Result<seq<T>>>>)
    requires Conforms(enumerate)
    ensures entry.None? ==> r == Returns(None)
    ensures entry.Some? ==> ListedBy(enumerate, convert, failure, r)
  {
    if entry.None? {
      return Returns(None);
    }
    var first := enumerate(None);
    if first.code != ffi.Result.Success {
      return Present(ErrorCodes.Failed(failure(first.code)));
    }
    var code, written := FillBuffer(enumerate, first.written.count);
    if code != ffi.Result.Success {
      return Present(ErrorCodes.Failed(failure(code)));
    }
    var elements := seq(|written|, i requires 0 <= i < |written| => convert(written[i]));
    r := Returns(Some(Ok(elements)));
  }

  function SurfaceFormatFromNative(n: ffi.SurfaceFormatKhr): VkWsi.SurfaceFormatKhr {
    VkWsi.SurfaceFormatKhr(n.format, VkWsi.ColorSpaceFromNative(n.colorSpace))
  }

  /** `get_surface_formats_khr`: gated on the surface-format entry of the physical-device table. */
  method GetSurfaceFormatsKhr(pd: PhysicalDevice, surface: VkWsi.SurfaceKhr,
                              enumerate: Enumerator<ffi.SurfaceFormatKhr>)
    returns (r: Run<Option<Result<seq<VkWsi.SurfaceFormatKhr>>>>)
    requires Conforms(enumerate)
    ensures pd.dispatchLoader.getSurfaceFormats.None? ==> r == Returns(None)
    ensures pd.dispatchLoader.getSurfaceFormats.Some? ==>
      ListedBy(enumerate, SurfaceFormatFromNative, SurfaceListFailure, r)
  {
    r := GatedListing(pd.dispatchLoader.getSurfaceFormats, enumerate, SurfaceFormatFromNative, SurfaceListFailure);
  }

  /** `get_surface_present_modes_khr`: gated on the present-mode entry of the physical-device table. */
  method GetSurfacePresentModesKhr(pd: PhysicalDevice, surface: VkWsi.SurfaceKhr,
                                   enumerate: Enumerator<ffi.PresentModeKhr>)
    returns (r: Run<Option<Result<seq<VkWsi.PresentModeKhr>>>>)
    requires Conforms(enumerate)
    ensures pd.dispatchLoader.getSurfacePresentModes.None? ==> r == Returns(None)
    ensures pd.dispatchLoader.getSurfacePresentModes.Some? ==>
      ListedBy(enumerate, VkWsi.PresentModeFromNative, SurfaceListFailure, r)
  {
    r := GatedListing(pd.dispatchLoader.getSurfacePresentModes, enumerate, VkWsi.PresentModeFromNative,
                      SurfaceListFailure);
  }

  function ImageFromNative(handle: ffi.Handle): VkResource.Image {
    VkResource.Image(handle)
  }

  /** `get_swapchain_images_khr`: gated on the swap-chain-image entry of the device table. */
  method GetSwapchainImagesKhr(device: Device, swapchain: VkWsi.SwapchainKhr, enumerate: Enumerator<ffi.Handle>)
    returns (r: Run<Option<Result<seq<VkResource.Image>>>>)
    requires Conforms(enumerate)
    ensures device.dispatchLoader.getSwapchainImages.None? ==> r == Returns(None)
    ensures device.dispatchLoader.getSwapchainImages.Some? ==>
      ListedBy(enumerate, ImageFromNative, SwapchainImagesFailure, r)
  {
    r := GatedListing(device.dispatchLoader.getSwapchainImages, enumerate, ImageFromNative, SwapchainImagesFailure);
  }

  /** The wrapper's capabilities: counts and extents copied, flag words wrapped, the transform converted. */
  function CapabilitiesFromNative(n: ffi.SurfaceCapabilitiesKhr): (c: VkWsi.SurfaceCapabilitiesKhr)
    ensures c.minImageCount == n.minImageCount && c.maxImageCount == n.maxImageCount
    ensures ExtentToNative(c.currentExtent) == n.currentExtent
    ensures ExtentToNative(c.minImageExtent) == n.minImageExtent
    ensures ExtentToNative(c.maxImageExtent) == n.maxImageExtent
    ensures c.maxImageArrayLayers == n.maxImageArrayLayers
    ensures c.supportedTransforms.word == n.supportedTransforms
    ensures VkWsi.SurfaceTransformToNative(c.currentTransform) == n.currentTransform
    ensures c.supportedCompositeAlpha.word == n.supportedCompositeAlpha
    ensures c.supportedUsageFlags.word == n.supportedUsageFlags
  {
    ExtentConversionsInverse(ExtentFromNative(n.currentExtent), n.currentExtent);
    ExtentConversionsInverse(ExtentFromNative(n.minImageExtent), n.minImageExtent);
    ExtentConversionsInverse(ExtentFromNative(n.maxImageExtent), n.maxImageExtent);
    VkWsi.SurfaceTransformConversionsInverse(VkWsi.SurfaceTransformKhr.IdentityKhr, n.currentTransform);
    VkWsi.SurfaceCapabilitiesKhr(
      n.minImageCount, n.maxImageCount,
      ExtentFromNative(n.currentExtent), ExtentFromNative(n.minImageExtent), ExtentFromNative(n.maxImageExtent),
      n.maxImageArrayLayers,
      VkWsi.SurfaceTransformFlagsKhr(n.supportedTransforms),
      VkWsi.SurfaceTransformFromNative(n.currentTransform),
      VkWsi.CompositeAlphaFlagsKhr(n.supportedCompositeAlpha),
      VkResource.ImageUsageFlags(n.supportedUsageFlags))
  }

  /**
   * `get_surface_capabilities_khr`, given the code and structure the native
   * query yields: `None` when the entry is absent, the converted
   * capabilities on `Success`, the mapped failure otherwise.
   */
  function GetSurfaceCapabilitiesKhr(pd: PhysicalDevice, surface: VkWsi.SurfaceKhr,
                                     answer: (ffi.Result, ffi.SurfaceCapabilitiesKhr))
    : (r: Run<Option<Result<VkWsi.SurfaceCapabilitiesKhr>>>)
    ensures pd.dispatchLoader.getSurfaceCapabilities.None? ==> r == Returns(None)
    ensures pd.dispatchLoader.getSurfaceCapabilities.Some? ==>
      && (answer.0 == ffi.Result.Success ==> r == Returns(Some(Ok(CapabilitiesFromNative(answer.1)))))
      && (answer.0 != ffi.Result.Success ==> r == Present(ErrorCodes.Failed(SurfaceCapabilitiesFailure(answer.0))))
  {
    if pd.dispatchLoader.getSurfaceCapabilities.None? then Returns(None)
    else if answer.0 == ffi.Result.Success then Returns(Some(Ok(CapabilitiesFromNative(answer.1))))
    else Present(ErrorCodes.Failed(SurfaceCapabilitiesFailure(answer.0)))
  }

  // ------------------------------------------------------ per-device objects

  /**
   * `get_queue(family, index)`: both indices go to the native call as `u32`;
   * a null handle yields `None`.
   */
  function GetQueue(device: Device, queueFamilyIndex: nat, queueIndex: nat, native: (u32, u32) -> ffi.Handle)
    : (q: Option<Queue>)
    ensures var handle := native(TruncU32(queueFamilyIndex), TruncU32(queueIndex));
      (q.None? <==> handle == NULL) && (q.Some? ==> q.value.handle == handle)
  {
    var handle := native(TruncU32(queueFamilyIndex), TruncU32(queueIndex));
    if handle == NULL then None else Some(Queue(handle))
  }

  /** `create_command_pool(family)`: flags 0, the family as `u32`; any failure panics. */
  function CreateCommandPool(device: Device, queueFamilyIndex: nat, create: Creation<ffi.CommandPoolCreateInfo>)
    : (r: Run<CommandPool>)
    ensures var (code, handle) := create(ffi.CommandPoolCreateInfo(0, TruncU32(queueFamilyIndex)));
      && (r.Aborts? <==> code != ffi.Result.Success)
      && (r.Aborts? ==> r.reason == Panic)
      && (r.Returns? ==> r.value.handle == handle)
  {
    var (code, handle) := create(ffi.CommandPoolCreateInfo(0, TruncU32(queueFamilyIndex)));
    if code == ffi.Result.Success then Returns(CommandPool(handle)) else Aborts(Panic)
  }

  /** `create_semaphore()`: flags 0; any failure panics. */
  function CreateSemaphore(device: Device, create: Creation<ffi.SemaphoreCreateInfo>): (r: Run<Semaphore>)
    ensures var (code, handle) := create(ffi.SemaphoreCreateInfo(0));
      && (r.Aborts? <==> code != ffi.Result.Success)
      && (r.Aborts? ==> r.reason == Panic)
      && (r.Returns? ==> r.value.handle == handle)
  {
    var (code, handle) := create(ffi.SemaphoreCreateInfo(0));
    if code == ffi.Result.Success then Returns(Semaphore(handle)) else Aborts(Panic)
  }

  /**
   * `create_shader_module(code)`: the byte length and the bytes go to the
   * native call with flags 0; failures map as `ShaderModuleFailure` says.
   */
  function CreateShaderModule(device: Device, code: seq<bv8>, create: Creation<ffi.ShaderModuleCreateInfo>)
    : (r: Run<Result<ShaderModule>>)
    ensures var (result, handle) := create(ffi.ShaderModuleCreateInfo(0, |code|, code));
      && (result == ffi.Result.Success ==> r == Returns(Ok(ShaderModule(handle))))
      && (result != ffi.Result.Success ==> r == ErrorCodes.Failed(ShaderModuleFailure(result)))
  {
    var (result, handle) := create(ffi.ShaderModuleCreateInfo(0, |code|, code));
    if result == ffi.Result.Success then Returns(Ok(ShaderModule(handle)))
    else ErrorCodes.Failed(ShaderModuleFailure(result))
  }
}
