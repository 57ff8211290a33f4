/**
 * `ImageViewBuilder`: the description of a view of a swap-chain image, its
 * in-place setters, and `build`, which assembles `VkImageViewCreateInfo` and
 * calls `vkCreateImageView` through the device table.
 */
module VkImageView {
  import opened Outcome
  import opened Bits
  import opened VkCore
  import opened VkResource
  import ErrorCodes
  import VkDevice
  import ffi = VkFfi

  datatype ImageView = ImageView(handle: ffi.Handle)

  class ImageViewBuilder {
    var flags: ImageViewCreateFlags
    var image: Image
    var viewType: ImageViewType
    var format: ffi.Format
    var components: ComponentMapping
    var subresourceRange: ImageSubresourceRange

    /** `new(image, view_type, format, range)`: default flags (0) and identity components. */
    constructor (image: Image, viewType: ImageViewType, format: ffi.Format, subresourceRange: ImageSubresourceRange)
      ensures flags.word == 0 && components == DefaultComponentMapping()
      ensures this.image == image && this.viewType == viewType && this.format == format
      ensures this.subresourceRange == subresourceRange
    {
      flags := ImageViewCreateFlags(0);
      this.image := image;
      this.viewType := viewType;
      this.format := format;
      components := DefaultComponentMapping();
      this.subresourceRange := subresourceRange;
    }

    /** `with_components`: replaces the component mapping and nothing else. */
    method WithComponents(components: ComponentMapping)
      modifies this
      ensures this.components == components
      ensures flags == old(flags) && image == old(image) && viewType == old(viewType)
      ensures format == old(format) && subresourceRange == old(subresourceRange)
    {
      this.components := components;
    }

    /** `with_flags`: not implemented; every call panics with `todo!()`. */
    method WithFlags(flags: ImageViewCreateFlags) returns (r: Run<()>)
      ensures r == Aborts(Todo)
    {
      r := Aborts(Todo);
    }

    /**
     * The `VkImageViewCreateInfo` of `build`: every field converted from the
     * builder's, so that converting it back gives the builder's value.
     */
    function CreateInfo(): (ci: ffi.ImageViewCreateInfo)
      reads this
      ensures ci.flags == flags.word && ci.image == image.handle && ci.format == format
      ensures ImageViewTypeToNative(viewType) == ci.viewType
      ensures SwizzleFromNative(ci.components.r) == components.red
      ensures SwizzleFromNative(ci.components.g) == components.green
      ensures SwizzleFromNative(ci.components.b) == components.blue
      ensures SwizzleFromNative(ci.components.a) == components.alpha
      ensures ImageSubresourceRange(ImageAspectFlags(ci.subresourceRange.aspectMask), ci.subresourceRange.baseMipLevel,
                                    ci.subresourceRange.levelCount, ci.subresourceRange.baseArrayLayer,
                                    ci.subresourceRange.layerCount) == subresourceRange
    {
      SubresourceRangeCopied(subresourceRange);
      ffi.ImageViewCreateInfo(flags.word, image.handle, ImageViewTypeToNative(viewType), format,
                              ComponentMappingToNative(components), SubresourceRangeToNative(subresourceRange))
    }

    /**
     * `build(device)`: `create`, the behaviour of the device's
     * `vkCreateImageView`, receives the create info; failures map as
     * `CreateImageViewFailure` says.
     */
    method Build(device: VkDevice.Device, create: VkDevice.Creation<ffi.ImageViewCreateInfo>)
      returns (r: Run<Result<ImageView>>)
      ensures var (code, handle) := create(CreateInfo());
        && (code == ffi.Result.Success ==> r == Returns(Ok(ImageView(handle))))
        && (code != ffi.Result.Success ==> r == ErrorCodes.Failed(CreateImageViewFailure(code)))
    {
      var (code, handle) := create(CreateInfo());
      if code == ffi.Result.Success {
        r := Returns(Ok(ImageView(handle)));
      } else {
        r := ErrorCodes.Failed(CreateImageViewFailure(code));
      }
    }
  }

  const IMAGE_VIEW_ERRORS: set<Error> := {OutOfHostMemory, OutOfDeviceMemory}

  /** The failure arms of `build`. */
  function CreateImageViewFailure(code: ffi.Result): (r: Run<Error>)
    ensures r == ErrorCodes.Handled(code, IMAGE_VIEW_ERRORS, false)
  {
    match code
    case ErrorOutOfHostMemory => Returns(OutOfHostMemory)
    case ErrorOutOfDeviceMemory => Returns(OutOfDeviceMemory)
    case _ => Aborts(Unreachable)
  }
}
