/**
 * The native side of the Vulkan C ABI, as the wrapper's call sites use it.
 *
 * Handles and function addresses are numbers (0 is the null handle). A
 * function-address resolver (`vkGetInstanceProcAddr`, `vkGetDeviceProcAddr`)
 * is a function from a context handle and an entry-point name to an optional
 * address. Pointers to arrays are `Option<seq<_>>`, with `None` for null.
 * Flag-bit values are those of the Vulkan specification's `Vk*FlagBits`.
 */
module VkFfi {
  import opened Outcome
  import opened Bits

  /** A dispatchable or non-dispatchable handle; 0 is `VK_NULL_HANDLE`. */
  type Handle = nat

  /** The address of a native entry point. */
  type Addr = nat

  /** `vkGetInstanceProcAddr(instance, name)`; instance 0 is the global scope. */
  type InstanceProcAddr = (Handle, string) -> Option<Addr>

  /** `vkGetDeviceProcAddr(device, name)`. */
  type DeviceProcAddr = (Handle, string) -> Option<Addr>

  /** A 32-bit IEEE-754 value the wrapper only passes through. */
  datatype F32 = F32(bits: bv32)

  /** An image format code; the wrapper's `Format` carries it unchanged. */
  datatype Format = Format(code: u32)

  /** `VkResult`, named as at the wrapper's call sites. */
  datatype Result =
    | Success
    | NotReady
    | Timeout
    | EventSet
    | EventReset
    | Incomplete
    | SuboptimalKhr
    | ErrorOutOfHostMemory
    | ErrorOutOfDeviceMemory
    | ErrorInitializationFailed
    | ErrorDeviceLost
    | ErrorMemoryMapFailed
    | ErrorLayerNotPresent
    | ErrorExtensionNotPresent
    | ErrorFeatureNotPresent
    | ErrorIncompatibleDriver
    | ErrorTooManyObjects
    | ErrorFormatNotSupported
    | ErrorFragmentedPool
    | ErrorUnknown
    | ErrorOutOfPoolMemory
    | ErrorInvalidExternalHandle
    | ErrorFragmentation
    | ErrorInvalidOpaqueCaptureAddress
    | ErrorSurfaceLostKhr
    | ErrorNativeWindowInUseKhr
    | ErrorOutOfDateKhr
    | ErrorIncompatibleDisplayKhr
    | ErrorValidationFailedExt
    | ErrorInvalidShaderNv
    | ErrorInvalidDrmFormatModifierPlaneLayoutExt
    | ErrorNotPermittedExt
    | ErrorFullScreenExclusiveModeLostExt

  datatype PhysicalDeviceType = Other | IntegratedGpu | DiscreteGpu | VirtualGpu | Cpu | MaxEnum

  datatype QueueFlagBits = GraphicsBit | ComputeBit | TransferBit | SparseBindingBit
  {
    function Bit(): bv32 {
      match this
      case GraphicsBit => 0x1
      case ComputeBit => 0x2
      case TransferBit => 0x4
      case SparseBindingBit => 0x8
    }
  }

  datatype ColorSpaceKhr =
    | SrgbNonlinearKhr
    | DisplayP3NonlinearExt
    | ExtendedSrgbLinearExt
    | DisplayP3LinearExt
    | DciP3NonlinearExt
    | Bt709LinearExt
    | Bt709NonlinearExt
    | Bt2020LinearExt
    | Hdr10St2084Ext
    | DolbyvisionExt
    | Hdr10HlgExt
    | AdobergbLinearExt
    | AdobergbNonlinearExt
    | PassThroughExt
    | ExtendedSrgbNonlinearExt
    | DisplayNativeAmd

  datatype SurfaceTransformFlagBitsKhr =
    | IdentityBitKhr
    | Rotate90BitKhr
    | Rotate180BitKhr
    | Rotate270BitKhr
    | HorizontalMirrorBitKhr
    | HorizontalMirrorRotate90BitKhr
    | HorizontalMirrorRotate180BitKhr
    | HorizontalMirrorRotate270BitKhr
    | InheritBitKhr
  {
    function Bit(): bv32 {
      match this
      case IdentityBitKhr => 0x1
      case Rotate90BitKhr => 0x2
      case Rotate180BitKhr => 0x4
      case Rotate270BitKhr => 0x8
      case HorizontalMirrorBitKhr => 0x10
      case HorizontalMirrorRotate90BitKhr => 0x20
      case HorizontalMirrorRotate180BitKhr => 0x40
      case HorizontalMirrorRotate270BitKhr => 0x80
      case InheritBitKhr => 0x100
    }
  }

  datatype CompositeAlphaFlagBitsKhr = OpaqueBitKhr | PreMultipliedBitKhr | PostMultipliedBitKhr | InheritBitKhr
  {
    function Bit(): bv32 {
      match this
      case OpaqueBitKhr => 0x1
      case PreMultipliedBitKhr => 0x2
      case PostMultipliedBitKhr => 0x4
      case InheritBitKhr => 0x8
    }
  }

  datatype SwapchainCreateFlagBitsKhr = SplitInstanceBindRegionsBitKhr | ProtectedBitKhr | MutableFormatBitKhr
  {
    function Bit(): bv32 {
      match this
      case SplitInstanceBindRegionsBitKhr => 0x1
      case ProtectedBitKhr => 0x2
      case MutableFormatBitKhr => 0x4
    }
  }

  datatype PresentModeKhr =
    | ImmediateKhr
    | MailboxKhr
    | FifoKhr
    | FifoRelaxedKhr
    | SharedDemandRefreshKhr
    | SharedContinuousRefreshKhr

  datatype ImageViewType = OneD | TwoD | ThreeD | Cube | OneDArray | TwoDArray | CubeArray

  datatype ComponentSwizzle = Identity | Zero | One | Red | Green | Blue | Alpha

  datatype SharingMode = Exclusive | Concurrent

  datatype ImageAspectFlagBits =
    | ColorBit
    | DepthBit
    | StencilBit
    | MetadataBit
    | Plane0Bit
    | Plane1Bit
    | Plane2Bit
    | MemoryPlane0BitExt
    | MemoryPlane1BitExt
    | MemoryPlane2BitExt
    | MemoryPlane3BitExt
  {
    function Bit(): bv32 {
      match this
      case ColorBit => 0x1
      case DepthBit => 0x2
      case StencilBit => 0x4
      case MetadataBit => 0x8
      case Plane0Bit => 0x10
      case Plane1Bit => 0x20
      case Plane2Bit => 0x40
      case MemoryPlane0BitExt => 0x80
      case MemoryPlane1BitExt => 0x100
      case MemoryPlane2BitExt => 0x200
      case MemoryPlane3BitExt => 0x400
    }
  }

  datatype ImageUsageFlagBits =
    | TransferSrcBit
    | TransferDstBit
    | SampledBit
    | StorageBit
    | ColorAttachmentBit
    | DepthStencilAttachmentBit
    | TransientAttachmentBit
    | InputAttachmentBit
    | ShadingRateImageBitNv
    | FragmentDensityMapBitExt
  {
    function Bit(): bv32 {
      match this
      case TransferSrcBit => 0x1
      case TransferDstBit => 0x2
      case SampledBit => 0x4
      case StorageBit => 0x8
      case ColorAttachmentBit => 0x10
      case DepthStencilAttachmentBit => 0x20
      case TransientAttachmentBit => 0x40
      case InputAttachmentBit => 0x80
      case ShadingRateImageBitNv => 0x100
      case FragmentDensityMapBitExt => 0x200
    }
  }

  datatype ColorComponentFlagBits = Red | Green | Blue | Alpha
  {
    function Bit(): bv32 {
      match this
      case Red => 0x1
      case Green => 0x2
      case Blue => 0x4
      case Alpha => 0x8
    }
  }

  datatype Extent2D = Extent2D(width: u32, height: u32)

  /** `VkApplicationInfo`; a `None` name is a null `char*`. */
  datatype ApplicationInfo = ApplicationInfo(
    applicationName: Option<string>,
    applicationVersion: bv32,
    engineName: Option<string>,
    engineVersion: bv32,
    apiVersion: bv32)

  /** `VkInstanceCreateInfo`; `None` is a null pointer. */
  datatype InstanceCreateInfo = InstanceCreateInfo(
    flags: bv32,
    applicationInfo: Option<ApplicationInfo>,
    enabledLayerCount: u32,
    enabledLayerNames: Option<seq<string>>,
    enabledExtensionCount: u32,
    enabledExtensionNames: Option<seq<string>>)

  datatype PhysicalDeviceProperties = PhysicalDeviceProperties(
    apiVersion: bv32,
    deviceType: PhysicalDeviceType,
    deviceName: string)

  datatype QueueFamilyProperties = QueueFamilyProperties(
    queueFlags: bv32,
    queueCount: u32,
    timestampValidBits: u32)

  datatype DeviceQueueCreateInfo = DeviceQueueCreateInfo(
    flags: bv32,
    queueFamilyIndex: u32,
    queueCount: u32,
    queuePriorities: seq<F32>)

  /** `VkDeviceCreateInfo`; `None` is a null pointer. */
  datatype DeviceCreateInfo = DeviceCreateInfo(
    flags: bv32,
    queueCreateInfoCount: u32,
    queueCreateInfos: seq<DeviceQueueCreateInfo>,
    enabledLayerCount: u32,
    enabledLayerNames: Option<seq<string>>,
    enabledExtensionCount: u32,
    enabledExtensionNames: Option<seq<string>>)

  datatype SurfaceFormatKhr = SurfaceFormatKhr(format: Format, colorSpace: ColorSpaceKhr)

  datatype SurfaceCapabilitiesKhr = SurfaceCapabilitiesKhr(
    minImageCount: u32,
    maxImageCount: u32,
    currentExtent: Extent2D,
    minImageExtent: Extent2D,
    maxImageExtent: Extent2D,
    maxImageArrayLayers: u32,
    supportedTransforms: bv32,
    currentTransform: SurfaceTransformFlagBitsKhr,
    supportedCompositeAlpha: bv32,
    supportedUsageFlags: bv32)

  /** `VkSwapchainCreateInfoKHR`; `None` is a null pointer, `clipped` a `VkBool32`. */
  datatype SwapchainCreateInfoKhr = SwapchainCreateInfoKhr(
    flags: bv32,
    surface: Handle,
    minImageCount: u32,
    imageFormat: Format,
    imageColorSpace: ColorSpaceKhr,
    imageExtent: Extent2D,
    imageArrayLayers: u32,
    imageUsage: bv32,
    imageSharingMode: SharingMode,
    queueFamilyIndexCount: u32,
    queueFamilyIndices: Option<seq<u32>>,
    preTransform: SurfaceTransformFlagBitsKhr,
    compositeAlpha: CompositeAlphaFlagBitsKhr,
    presentMode: PresentModeKhr,
    clipped: u32,
    oldSwapchain: Handle)

  datatype ComponentMapping = ComponentMapping(
    r: ComponentSwizzle,
    g: ComponentSwizzle,
    b: ComponentSwizzle,
    a: ComponentSwizzle)

  datatype ImageSubresourceRange = ImageSubresourceRange(
    aspectMask: bv32,
    baseMipLevel: u32,
    levelCount: u32,
    baseArrayLayer: u32,
    layerCount: u32)

  datatype ImageViewCreateInfo = ImageViewCreateInfo(
    flags: bv32,
    image: Handle,
    viewType: ImageViewType,
    format: Format,
    components: ComponentMapping,
    subresourceRange: ImageSubresourceRange)

  datatype CommandPoolCreateInfo = CommandPoolCreateInfo(flags: bv32, queueFamilyIndex: u32)

  datatype SemaphoreCreateInfo = SemaphoreCreateInfo(flags: bv32)

  /** `VkShaderModuleCreateInfo`: `codeSize` is the byte length of `code`. */
  datatype ShaderModuleCreateInfo = ShaderModuleCreateInfo(flags: bv32, codeSize: nat, code: seq<bv8>)

  /**
   * What an enumerating entry point writes when given a buffer: the count it
   * stores through `pCount` and the elements it stores into the buffer.
   */
  datatype Written<T> = Written(count: nat, items: seq<T>)

  /**
   * The enumeration contract of the Vulkan specification: called with a buffer
   * of `capacity` elements, the entry point writes at most `capacity` of them
   * and stores their number through `pCount`.
   */
  predicate Fits<T>(w: Written<T>, capacity: nat) {
    w.count <= capacity && w.count <= |w.items|
  }
}
