/**
 * `SwapchainBuilderKhr`: the description of a swap chain, its by-value
 * setters, and `build`, which assembles `VkSwapchainCreateInfoKHR` and calls
 * `vkCreateSwapchainKHR` through the device table.
 */
module VkSwapchain {
  import opened Outcome
  import opened Bits
  import opened VkCore
  import opened VkDispatch
  import ErrorCodes
  import VkWsi
  import VkResource
  import VkDevice
  import ffi = VkFfi

  /**
   * The builder's fields; the unused old-swap-chain slot is not kept (the
   * native structure always receives a null handle there).
   */
  datatype SwapchainBuilderKhr = SwapchainBuilderKhr(
    flags: VkWsi.SwapchainCreateFlagsKhr,
    surface: VkWsi.SurfaceKhr,
    minImageCount: u32,
    imageFormat: ffi.Format,
    imageColorSpace: VkWsi.ColorSpaceKhr,
    imageExtent: Extent2D,
    imageArrayLayers: u32,
    imageUsage: VkResource.ImageUsageFlags,
    imageSharingMode: VkResource.SharingMode,
    preTransform: VkWsi.SurfaceTransformKhr,
    compositeAlpha: VkWsi.CompositeAlphaKhr,
    presentMode: VkWsi.PresentModeKhr,
    clipped: bool)

  /** `new(...)`: flags 0, one array layer, every argument stored as given. */
  function New(surface: VkWsi.SurfaceKhr, minImageCount: u32, imageFormat: ffi.Format,
               imageColorSpace: VkWsi.ColorSpaceKhr, imageExtent: Extent2D,
               imageUsage: VkResource.ImageUsageFlags, imageSharingMode: VkResource.SharingMode,
               preTransform: VkWsi.SurfaceTransformKhr, compositeAlpha: VkWsi.CompositeAlphaKhr,
               presentMode: VkWsi.PresentModeKhr, clipped: bool): (b: SwapchainBuilderKhr)
    ensures b.flags.word == 0 && b.imageArrayLayers == 1
    ensures b.surface == surface && b.minImageCount == minImageCount && b.imageFormat == imageFormat
    ensures b.imageColorSpace == imageColorSpace && b.imageExtent == imageExtent && b.imageUsage == imageUsage
    ensures b.imageSharingMode == imageSharingMode && b.preTransform == preTransform
    ensures b.compositeAlpha == compositeAlpha && b.presentMode == presentMode && b.clipped == clipped
  {
    SwapchainBuilderKhr(VkWsi.SwapchainCreateFlagsKhr(0), surface, minImageCount, imageFormat, imageColorSpace,
                        imageExtent, 1, imageUsage, imageSharingMode, preTransform, compositeAlpha, presentMode,
                        clipped)
  }

  /** `with_flags`: replaces the flags and nothing else. */
  function WithFlags(b: SwapchainBuilderKhr, flags: VkWsi.SwapchainCreateFlagsKhr): (r: SwapchainBuilderKhr)
    ensures r.flags == flags
    ensures r.(flags := b.flags) == b
  {
    b.(flags := flags)
  }

  /** `with_image_array_layers`: replaces the layer count and nothing else. */
  function WithImageArrayLayers(b: SwapchainBuilderKhr, imageArrayLayers: u32): (r: SwapchainBuilderKhr)
    ensures r.imageArrayLayers == imageArrayLayers
    ensures r.(imageArrayLayers := b.imageArrayLayers) == b
  {
    b.(imageArrayLayers := imageArrayLayers)
  }

  /**
   * The queue-family fields of the create info: count 0 and a null pointer
   * for exclusive sharing, the list and its length as `u32` for concurrent.
   */
  function QueueFamilyIndicesOf(mode: VkResource.SharingMode): (r: (u32, Option<seq<u32>>))
    ensures mode.Exclusive? ==> r.0 == 0 && r.1.None?
    ensures mode.Concurrent? ==> r.0 == TruncU32(|mode.queueFamilyIndices|) && r.1 == Some(mode.queueFamilyIndices)
  {
    match mode
    case Exclusive => (0, None)
    case Concurrent(indices) => (TruncU32(|indices|), Some(indices))
  }

  /** `VkBool32` from `bool`. */
  function BoolToNative(b: bool): u32 {
    if b then 1 else 0
  }

  /**
   * The `VkSwapchainCreateInfoKHR` of `build`: each field converted from the
   * builder's, so that converting it back gives the builder's value.
   */
  function CreateInfoOf(b: SwapchainBuilderKhr): (ci: ffi.SwapchainCreateInfoKhr)
    ensures ci.flags == b.flags.word && ci.surface == b.surface.handle
    ensures ci.minImageCount == b.minImageCount && ci.imageFormat == b.imageFormat
    ensures VkWsi.ColorSpaceFromNative(ci.imageColorSpace) == b.imageColorSpace
    ensures ExtentFromNative(ci.imageExtent) == b.imageExtent
    ensures ci.imageArrayLayers == b.imageArrayLayers && ci.imageUsage == b.imageUsage.word
    ensures ci.imageSharingMode == ffi.SharingMode.Exclusive <==> b.imageSharingMode.Exclusive?
    ensures b.imageSharingMode.Exclusive? ==> ci.queueFamilyIndexCount == 0 && ci.queueFamilyIndices.None?
    ensures b.imageSharingMode.Concurrent? ==>
      && ci.queueFamilyIndexCount == TruncU32(|b.imageSharingMode.queueFamilyIndices|)
      && ci.queueFamilyIndices == Some(b.imageSharingMode.queueFamilyIndices)
    ensures VkWsi.SurfaceTransformFromNative(ci.preTransform) == b.preTransform
    ensures ci.compositeAlpha == VkWsi.CompositeAlphaToNative(b.compositeAlpha)
    ensures VkWsi.PresentModeFromNative(ci.presentMode) == b.presentMode
    ensures ci.clipped != 0 <==> b.clipped
    ensures ci.oldSwapchain == NULL
  {
    VkWsi.ColorSpaceConversionsInverse(b.imageColorSpace, ffi.ColorSpaceKhr.SrgbNonlinearKhr);
    ExtentConversionsInverse(b.imageExtent, ffi.Extent2D(0, 0));
    VkWsi.SurfaceTransformConversionsInverse(b.preTransform, ffi.SurfaceTransformFlagBitsKhr.IdentityBitKhr);
    VkWsi.PresentModeConversionsInverse(b.presentMode, ffi.PresentModeKhr.FifoKhr);
    var (count, indices) := QueueFamilyIndicesOf(b.imageSharingMode);
    ffi.SwapchainCreateInfoKhr(
      b.flags.word, b.surface.handle, b.minImageCount, b.imageFormat,
      VkWsi.ColorSpaceToNative(b.imageColorSpace), ExtentToNative(b.imageExtent), b.imageArrayLayers,
      b.imageUsage.word, VkResource.SharingModeToNative(b.imageSharingMode), count, indices,
      VkWsi.SurfaceTransformToNative(b.preTransform), VkWsi.CompositeAlphaToNative(b.compositeAlpha),
      VkWsi.PresentModeToNative(b.presentMode), BoolToNative(b.clipped), NULL)
  }

  const SWAPCHAIN_ERRORS: set<Error> :=
    {OutOfHostMemory, OutOfDeviceMemory, DeviceLost, SurfaceLostKhr, NativeWindowInUseKhr, InitializationFailed}

  /** The failure arms of `build`. */
  function CreateSwapchainFailure(code: ffi.Result): (r: Run<Error>)
    ensures r == ErrorCodes.Handled(code, SWAPCHAIN_ERRORS, false)
  {
    match code
    case ErrorOutOfHostMemory => Returns(OutOfHostMemory)
    case ErrorOutOfDeviceMemory => Returns(OutOfDeviceMemory)
    case ErrorDeviceLost => Returns(DeviceLost)
    case ErrorSurfaceLostKhr => Returns(SurfaceLostKhr)
    case ErrorNativeWindowInUseKhr => Returns(NativeWindowInUseKhr)
    case ErrorInitializationFailed => Returns(InitializationFailed)
    case _ => Aborts(Unreachable)
  }

  /**
   * `build(device)`: the swap-chain entry of the device table is unwrapped,
   * not gated, so an absent one panics; otherwise `create` (its behaviour)
   * receives the create info and its result maps as `CreateSwapchainFailure` says.
   */
  function Build(b: SwapchainBuilderKhr, device: VkDevice.Device,
                 create: VkDevice.Creation<ffi.SwapchainCreateInfoKhr>): (r: Run<Result<VkWsi.SwapchainKhr>>)
    ensures device.dispatchLoader.createSwapchain.None? ==> r == Aborts(UnwrapNone)
    ensures device.dispatchLoader.createSwapchain.Some? ==>
      var (code, handle) := create(CreateInfoOf(b));
      && (code == ffi.Result.Success ==> r == Returns(Ok(VkWsi.SwapchainKhr(handle))))
      && (code != ffi.Result.Success ==> r == ErrorCodes.Failed(CreateSwapchainFailure(code)))
  {
    var info := CreateInfoOf(b);
    var _ :- Unwrap(device.dispatchLoader.createSwapchain);
    var (code, handle) := create(info);
    if code == ffi.Result.Success then Returns(Ok(VkWsi.SwapchainKhr(handle)))
    else ErrorCodes.Failed(CreateSwapchainFailure(code))
  }
}
