/**
 * Images and their descriptions: view types, aspect and usage flag words and
 * their builders, component swizzles and mappings, subresource ranges and the
 * sharing mode, with their conversions to the native structures.
 */
module VkResource {
  import opened Bits
  import ffi = VkFfi

  /** A swap-chain image; the wrapper keeps only its handle and its device. */
  datatype Image = Image(handle: ffi.Handle)

  datatype ImageViewType = OneD | TwoD | ThreeD | Cube | OneDArray | TwoDArray | CubeArray

  function ImageViewTypeToNative(t: ImageViewType): ffi.ImageViewType {
    match t
    case OneD => ffi.ImageViewType.OneD
    case TwoD => ffi.ImageViewType.TwoD
    case ThreeD => ffi.ImageViewType.ThreeD
    case Cube => ffi.ImageViewType.Cube
    case OneDArray => ffi.ImageViewType.OneDArray
    case TwoDArray => ffi.ImageViewType.TwoDArray
    case CubeArray => ffi.ImageViewType.CubeArray
  }

  /** Every native view type is reached, each from exactly one wrapper view type. */
  lemma ImageViewTypeOneToOne(a: ImageViewType, b: ImageViewType, n: ffi.ImageViewType)
    ensures ImageViewTypeToNative(a) == ImageViewTypeToNative(b) ==> a == b
    ensures exists t :: ImageViewTypeToNative(t) == n
  {
    match n {
      case OneD => assert ImageViewTypeToNative(OneD) == n;
      case TwoD => assert ImageViewTypeToNative(TwoD) == n;
      case ThreeD => assert ImageViewTypeToNative(ThreeD) == n;
      case Cube => assert ImageViewTypeToNative(Cube) == n;
      case OneDArray => assert ImageViewTypeToNative(OneDArray) == n;
      case TwoDArray => assert ImageViewTypeToNative(TwoDArray) == n;
      case CubeArray => assert ImageViewTypeToNative(CubeArray) == n;
    }
  }

  /** `ImageAspectFlags(u32)`; the derived `Default` is the word 0. */
  datatype ImageAspectFlags = ImageAspectFlags(word: bv32)

  /**
   * `ImageAspectFlagsBuilder`. Its eleven setters (`color`, `depth`, ...,
   * `memory_plane3`) each OR in one native aspect bit when given `true`;
   * `Include` is that setter for the bit it is given.
   */
  class ImageAspectFlagsBuilder {
    var word: bv32

    constructor ()
      ensures word == 0
    {
      word := 0;
    }

    method Include(bit: ffi.ImageAspectFlagBits, on: bool)
      modifies this
      ensures word == Bits.Include(old(word), bit.Bit(), on)
      ensures on ==> Has(word, bit.Bit())
      ensures !on ==> word == old(word)
      ensures word & old(word) == old(word)
    {
      Bits.IncludeNeverClears(word, bit.Bit(), on);
      word := Bits.Include(word, bit.Bit(), on);
    }

    method Build() returns (flags: ImageAspectFlags)
      ensures flags.word == word
    {
      flags := ImageAspectFlags(word);
    }
  }

  datatype ImageUsage =
    | TransferSrc
    | TransferDst
    | Sampled
    | Storage
    | ColorAttachment
    | DepthStencilAttachment
    | TransientAttachment
    | InputAttachment
    | ShadingRateImageNv
    | FragmentDensityMapExt

  /** `From<ImageUsage> for ffi::ImageUsageFlagBits`. */
  function UsageBit(u: ImageUsage): ffi.ImageUsageFlagBits {
    match u
    case TransferSrc => ffi.ImageUsageFlagBits.TransferSrcBit
    case TransferDst => ffi.ImageUsageFlagBits.TransferDstBit
    case Sampled => ffi.ImageUsageFlagBits.SampledBit
    case Storage => ffi.ImageUsageFlagBits.StorageBit
    case ColorAttachment => ffi.ImageUsageFlagBits.ColorAttachmentBit
    case DepthStencilAttachment => ffi.ImageUsageFlagBits.DepthStencilAttachmentBit
    case TransientAttachment => ffi.ImageUsageFlagBits.TransientAttachmentBit
    case InputAttachment => ffi.ImageUsageFlagBits.InputAttachmentBit
    case ShadingRateImageNv => ffi.ImageUsageFlagBits.ShadingRateImageBitNv
    case FragmentDensityMapExt => ffi.ImageUsageFlagBits.FragmentDensityMapBitExt
  }

  /** `ImageUsageFlags(u32)`; the derived `Default` is the word 0. */
  datatype ImageUsageFlags = ImageUsageFlags(word: bv32)
  {
    /** `contains(u)`: the native bit of `u` is set in the word. */
    predicate Contains(u: ImageUsage) {
      Has(word, UsageBit(u).Bit())
    }
  }

  /**
   * Usage bits are distinct single bits: the word holding only the bit of `u`
   * contains `u` and no other usage.
   */
  lemma UsageBitsDistinct(u: ImageUsage, v: ImageUsage)
    ensures ImageUsageFlags(UsageBit(u).Bit()).Contains(v) <==> u == v
  {
  }

  /** After `builder.x(true)`, the built word contains `x`, whatever it held before. */
  lemma IncludedUsageIsContained(word: bv32, u: ImageUsage, others: bv32)
    ensures ImageUsageFlags(Bits.Include(word, UsageBit(u).Bit(), true)).Contains(u)
    ensures ImageUsageFlags(word).Contains(u) ==> ImageUsageFlags(word | others).Contains(u)
  {
    StillSet(word, others, UsageBit(u).Bit());
  }

  lemma StillSet(word: bv32, others: bv32, bit: bv32)
    ensures Has(word, bit) ==> Has(word | others, bit)
  {
  }

  /**
   * `ImageUsageFlagsBuilder`: ten setters (`transfer_src`, ...,
   * `fragment_density_map_ext`) that each OR in one native usage bit when given
   * `true`; `Include` is that setter for the bit it is given.
   */
  class ImageUsageFlagsBuilder {
    var word: bv32

    constructor ()
      ensures word == 0
    {
      word := 0;
    }

    method Include(bit: ffi.ImageUsageFlagBits, on: bool)
      modifies this
      ensures word == Bits.Include(old(word), bit.Bit(), on)
      ensures on ==> Has(word, bit.Bit())
      ensures !on ==> word == old(word)
      ensures word & old(word) == old(word)
    {
      Bits.IncludeNeverClears(word, bit.Bit(), on);
      word := Bits.Include(word, bit.Bit(), on);
    }

    method Build() returns (flags: ImageUsageFlags)
      ensures flags.word == word
    {
      flags := ImageUsageFlags(word);
    }
  }

  datatype ComponentSwizzle = Identity | Zero | One | Red | Green | Blue | Alpha

  /** `Default for ComponentSwizzle`. */
  const DEFAULT_SWIZZLE: ComponentSwizzle := Identity

  function SwizzleToNative(c: ComponentSwizzle): ffi.ComponentSwizzle {
    match c
    case Identity => ffi.ComponentSwizzle.Identity
    case Zero => ffi.ComponentSwizzle.Zero
    case One => ffi.ComponentSwizzle.One
    case Red => ffi.ComponentSwizzle.Red
    case Green => ffi.ComponentSwizzle.Green
    case Blue => ffi.ComponentSwizzle.Blue
    case Alpha => ffi.ComponentSwizzle.Alpha
  }

  function SwizzleFromNative(n: ffi.ComponentSwizzle): ComponentSwizzle {
    match n
    case Identity => Identity
    case Zero => Zero
    case One => One
    case Red => Red
    case Green => Green
    case Blue => Blue
    case Alpha => Alpha
  }

  /** The two swizzle conversions are mutual inverses. */
  lemma SwizzleConversionsInverse(c: ComponentSwizzle, n: ffi.ComponentSwizzle)
    ensures SwizzleFromNative(SwizzleToNative(c)) == c
    ensures SwizzleToNative(SwizzleFromNative(n)) == n
  {
  }

  datatype ComponentMapping = ComponentMapping(
    red: ComponentSwizzle,
    green: ComponentSwizzle,
    blue: ComponentSwizzle,
    alpha: ComponentSwizzle)

  /** The derived `Default`: every channel is the default swizzle. */
  function DefaultComponentMapping(): (m: ComponentMapping)
    ensures m.red == m.green == m.blue == m.alpha == Identity
  {
    ComponentMapping(DEFAULT_SWIZZLE, DEFAULT_SWIZZLE, DEFAULT_SWIZZLE, DEFAULT_SWIZZLE)
  }

  /** `From<ComponentMapping> for ffi::ComponentMapping`: channel by channel. */
  function ComponentMappingToNative(m: ComponentMapping): (n: ffi.ComponentMapping)
    ensures SwizzleFromNative(n.r) == m.red && SwizzleFromNative(n.g) == m.green
    ensures SwizzleFromNative(n.b) == m.blue && SwizzleFromNative(n.a) == m.alpha
  {
    ffi.ComponentMapping(SwizzleToNative(m.red), SwizzleToNative(m.green),
                         SwizzleToNative(m.blue), SwizzleToNative(m.alpha))
  }

  datatype ImageSubresourceRange = ImageSubresourceRange(
    aspectMask: ImageAspectFlags,
    baseMipLevel: u32,
    levelCount: u32,
    baseArrayLayer: u32,
    layerCount: u32)

  /** `From<ImageSubresourceRange> for ffi::ImageSubresourceRange`. */
  function SubresourceRangeToNative(r: ImageSubresourceRange): ffi.ImageSubresourceRange {
    ffi.ImageSubresourceRange(r.aspectMask.word, r.baseMipLevel, r.levelCount,
                              r.baseArrayLayer, r.layerCount)
  }

  /** The conversion copies the aspect word and the four counters, losing nothing. */
  lemma SubresourceRangeCopied(r: ImageSubresourceRange)
    ensures var n := SubresourceRangeToNative(r);
      ImageSubresourceRange(ImageAspectFlags(n.aspectMask), n.baseMipLevel, n.levelCount,
                            n.baseArrayLayer, n.layerCount) == r
  {
  }

  /** `SharingMode`: exclusive, or concurrent between the listed queue families. */
  datatype SharingMode = Exclusive | Concurrent(queueFamilyIndices: seq<u32>)

  function SharingModeToNative(m: SharingMode): (n: ffi.SharingMode)
    ensures n == ffi.SharingMode.Exclusive <==> m.Exclusive?
  {
    match m
    case Exclusive => ffi.SharingMode.Exclusive
    case Concurrent(_) => ffi.SharingMode.Concurrent
  }

  /** `ImageViewCreateFlags(u32)`; the derived `Default` is the word 0. */
  datatype ImageViewCreateFlags = ImageViewCreateFlags(word: bv32)
}
