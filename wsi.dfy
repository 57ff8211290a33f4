/**
 * Window-system integration values: colour spaces, surface transforms,
 * composite alpha modes, present modes, their conversions to and from the
 * native enums, the `contains` tests on native flag words, and the
 * swap-chain create-flags builder.
 */
module VkWsi {
  import opened Bits
  import opened VkCore
  import VkResource
  import ffi = VkFfi

  /** A presentation surface; the wrapper keeps its handle and its instance. */
  datatype SurfaceKhr = SurfaceKhr(handle: ffi.Handle)

  /** A swap chain; the wrapper keeps its handle and its device. */
  datatype SwapchainKhr = SwapchainKhr(handle: ffi.Handle)

  datatype ColorSpaceKhr =
    | SrgbNonlinearKhr
    | DisplayP3NonlinearExt
    | ExtendedSrgbLinearExt
    | DisplayP3LinearExt
    | DciP3NonlinearExt
    | Bt709LinearExt
    | Bt709NonlinearExt
    | Bt2020LinearExt
    | Hdr10St2084Ext
    | DolbyvisionExt
    | Hdr10HlgExt
    | AdobergbLinearExt
    | AdobergbNonlinearExt
    | PassThroughExt
    | ExtendedSrgbNonlinearExt
    | DisplayNativeAmd

  function ColorSpaceFromNative(n: ffi.ColorSpaceKhr): ColorSpaceKhr {
    match n
    case SrgbNonlinearKhr => SrgbNonlinearKhr
    case DisplayP3NonlinearExt => DisplayP3NonlinearExt
    case ExtendedSrgbLinearExt => ExtendedSrgbLinearExt
    case DisplayP3LinearExt => DisplayP3LinearExt
    case DciP3NonlinearExt => DciP3NonlinearExt
    case Bt709LinearExt => Bt709LinearExt
    case Bt709NonlinearExt => Bt709NonlinearExt
    case Bt2020LinearExt => Bt2020LinearExt
    case Hdr10St2084Ext => Hdr10St2084Ext
    case DolbyvisionExt => DolbyvisionExt
    case Hdr10HlgExt => Hdr10HlgExt
    case AdobergbLinearExt => AdobergbLinearExt
    case AdobergbNonlinearExt => AdobergbNonlinearExt
    case PassThroughExt => PassThroughExt
    case ExtendedSrgbNonlinearExt => ExtendedSrgbNonlinearExt
    case DisplayNativeAmd => DisplayNativeAmd
  }

  function ColorSpaceToNative(c: ColorSpaceKhr): ffi.ColorSpaceKhr {
    match c
    case SrgbNonlinearKhr => ffi.ColorSpaceKhr.SrgbNonlinearKhr
    case DisplayP3NonlinearExt => ffi.ColorSpaceKhr.DisplayP3NonlinearExt
    case ExtendedSrgbLinearExt => ffi.ColorSpaceKhr.ExtendedSrgbLinearExt
    case DisplayP3LinearExt => ffi.ColorSpaceKhr.DisplayP3LinearExt
    case DciP3NonlinearExt => ffi.ColorSpaceKhr.DciP3NonlinearExt
    case Bt709LinearExt => ffi.ColorSpaceKhr.Bt709LinearExt
    case Bt709NonlinearExt => ffi.ColorSpaceKhr.Bt709NonlinearExt
    case Bt2020LinearExt => ffi.ColorSpaceKhr.Bt2020LinearExt
    case Hdr10St2084Ext => ffi.ColorSpaceKhr.Hdr10St2084Ext
    case DolbyvisionExt => ffi.ColorSpaceKhr.DolbyvisionExt
    case Hdr10HlgExt => ffi.ColorSpaceKhr.Hdr10HlgExt
    case AdobergbLinearExt => ffi.ColorSpaceKhr.AdobergbLinearExt
    case AdobergbNonlinearExt => ffi.ColorSpaceKhr.AdobergbNonlinearExt
    case PassThroughExt => ffi.ColorSpaceKhr.PassThroughExt
    case ExtendedSrgbNonlinearExt => ffi.ColorSpaceKhr.ExtendedSrgbNonlinearExt
    case DisplayNativeAmd => ffi.ColorSpaceKhr.DisplayNativeAmd
  }

  /** The two colour-space conversions are mutual inverses. */
  lemma ColorSpaceConversionsInverse(c: ColorSpaceKhr, n: ffi.ColorSpaceKhr)
    ensures ColorSpaceFromNative(ColorSpaceToNative(c)) == c
    ensures ColorSpaceToNative(ColorSpaceFromNative(n)) == n
  {
  }

  datatype SurfaceTransformKhr =
    | IdentityKhr
    | Rotate90Khr
    | Rotate180Khr
    | Rotate270Khr
    | HorizontalMirrorKhr
    | HorizontalMirrorRotate90Khr
    | HorizontalMirrorRotate180Khr
    | HorizontalMirrorRotate270Khr
    | InheritKhr

  function SurfaceTransformFromNative(n: ffi.SurfaceTransformFlagBitsKhr): SurfaceTransformKhr {
    match n
    case IdentityBitKhr => IdentityKhr
    case Rotate90BitKhr => Rotate90Khr
    case Rotate180BitKhr => Rotate180Khr
    case Rotate270BitKhr => Rotate270Khr
    case HorizontalMirrorBitKhr => HorizontalMirrorKhr
    case HorizontalMirrorRotate90BitKhr => HorizontalMirrorRotate90Khr
    case HorizontalMirrorRotate180BitKhr => HorizontalMirrorRotate180Khr
    case HorizontalMirrorRotate270BitKhr => HorizontalMirrorRotate270Khr
    case InheritBitKhr => SurfaceTransformKhr.InheritKhr
  }

  function SurfaceTransformToNative(t: SurfaceTransformKhr): ffi.SurfaceTransformFlagBitsKhr {
    match t
    case IdentityKhr => ffi.SurfaceTransformFlagBitsKhr.IdentityBitKhr
    case Rotate90Khr => ffi.SurfaceTransformFlagBitsKhr.Rotate90BitKhr
    case Rotate180Khr => ffi.SurfaceTransformFlagBitsKhr.Rotate180BitKhr
    case Rotate270Khr => ffi.SurfaceTransformFlagBitsKhr.Rotate270BitKhr
    case HorizontalMirrorKhr => ffi.SurfaceTransformFlagBitsKhr.HorizontalMirrorBitKhr
    case HorizontalMirrorRotate90Khr => ffi.SurfaceTransformFlagBitsKhr.HorizontalMirrorRotate90BitKhr
    case HorizontalMirrorRotate180Khr => ffi.SurfaceTransformFlagBitsKhr.HorizontalMirrorRotate180BitKhr
    case HorizontalMirrorRotate270Khr => ffi.SurfaceTransformFlagBitsKhr.HorizontalMirrorRotate270BitKhr
    case InheritKhr => ffi.SurfaceTransformFlagBitsKhr.InheritBitKhr
  }

  /** The two surface-transform conversions are mutual inverses. */
  lemma SurfaceTransformConversionsInverse(t: SurfaceTransformKhr, n: ffi.SurfaceTransformFlagBitsKhr)
    ensures SurfaceTransformFromNative(SurfaceTransformToNative(t)) == t
    ensures SurfaceTransformToNative(SurfaceTransformFromNative(n)) == n
  {
  }

  /** `SurfaceTransformFlagsKhr(u32)`. */
  datatype SurfaceTransformFlagsKhr = SurfaceTransformFlagsKhr(word: bv32)
  {
    /** `contains(t)`: the native bit of `t` is set in the word. */
    predicate Contains(t: SurfaceTransformKhr) {
      Has(word, SurfaceTransformToNative(t).Bit())
    }
  }

  /**
   * Transform bits are distinct single bits: the word holding only the bit of
   * `t` contains `t` and no other transform.
   */
  lemma SurfaceTransformBitsDistinct(t: SurfaceTransformKhr, u: SurfaceTransformKhr)
    ensures SurfaceTransformFlagsKhr(SurfaceTransformToNative(t).Bit()).Contains(u) <==> t == u
  {
  }

  datatype CompositeAlphaKhr = OpaqueKhr | PreMultipliedKhr | PostMultipliedKhr | InheritKhr

  function CompositeAlphaToNative(a: CompositeAlphaKhr): ffi.CompositeAlphaFlagBitsKhr {
    match a
    case OpaqueKhr => ffi.CompositeAlphaFlagBitsKhr.OpaqueBitKhr
    case PreMultipliedKhr => ffi.CompositeAlphaFlagBitsKhr.PreMultipliedBitKhr
    case PostMultipliedKhr => ffi.CompositeAlphaFlagBitsKhr.PostMultipliedBitKhr
    case InheritKhr => ffi.CompositeAlphaFlagBitsKhr.InheritBitKhr
  }

  /** `CompositeAlphaFlagsKhr(u32)`. */
  datatype CompositeAlphaFlagsKhr = CompositeAlphaFlagsKhr(word: bv32)
  {
    /** `contains(a)`: the native bit of `a` is set in the word. */
    predicate Contains(a: CompositeAlphaKhr) {
      Has(word, CompositeAlphaToNative(a).Bit())
    }
  }

  /**
   * Composite-alpha bits are distinct single bits, so the conversion is one to
   * one and the word holding only the bit of `a` contains `a` alone.
   */
  lemma CompositeAlphaBitsDistinct(a: CompositeAlphaKhr, b: CompositeAlphaKhr)
    ensures CompositeAlphaFlagsKhr(CompositeAlphaToNative(a).Bit()).Contains(b) <==> a == b
    ensures CompositeAlphaToNative(a) == CompositeAlphaToNative(b) ==> a == b
  {
  }

  datatype PresentModeKhr =
    | ImmediateKhr
    | MailboxKhr
    | FifoKhr
    | FifoRelaxedKhr
    | SharedDemandRefreshKhr
    | SharedContinuousRefreshKhr

  function PresentModeFromNative(n: ffi.PresentModeKhr): PresentModeKhr {
    match n
    case ImmediateKhr => ImmediateKhr
    case MailboxKhr => MailboxKhr
    case FifoKhr => FifoKhr
    case FifoRelaxedKhr => FifoRelaxedKhr
    case SharedDemandRefreshKhr => SharedDemandRefreshKhr
    case SharedContinuousRefreshKhr => SharedContinuousRefreshKhr
  }

  function PresentModeToNative(m: PresentModeKhr): ffi.PresentModeKhr {
    match m
    case ImmediateKhr => ffi.PresentModeKhr.ImmediateKhr
    case MailboxKhr => ffi.PresentModeKhr.MailboxKhr
    case FifoKhr => ffi.PresentModeKhr.FifoKhr
    case FifoRelaxedKhr => ffi.PresentModeKhr.FifoRelaxedKhr
    case SharedDemandRefreshKhr => ffi.PresentModeKhr.SharedDemandRefreshKhr
    case SharedContinuousRefreshKhr => ffi.PresentModeKhr.SharedContinuousRefreshKhr
  }

  /** The two present-mode conversions are mutual inverses. */
  lemma PresentModeConversionsInverse(m: PresentModeKhr, n: ffi.PresentModeKhr)
    ensures PresentModeFromNative(PresentModeToNative(m)) == m
    ensures PresentModeToNative(PresentModeFromNative(n)) == n
  {
  }

  /** `SurfaceFormatKhr`; the format code passes through unchanged. */
  datatype SurfaceFormatKhr = SurfaceFormatKhr(format: ffi.Format, colorSpace: ColorSpaceKhr)

  datatype SurfaceCapabilitiesKhr = SurfaceCapabilitiesKhr(
    minImageCount: u32,
    maxImageCount: u32,
    currentExtent: Extent2D,
    minImageExtent: Extent2D,
    maxImageExtent: Extent2D,
    maxImageArrayLayers: u32,
    supportedTransforms: SurfaceTransformFlagsKhr,
    currentTransform: SurfaceTransformKhr,
    supportedCompositeAlpha: CompositeAlphaFlagsKhr,
    supportedUsageFlags: VkResource.ImageUsageFlags)

  /** `SwapchainCreateFlagsKhr(u32)`; the derived `Default` is the word 0. */
  datatype SwapchainCreateFlagsKhr = SwapchainCreateFlagsKhr(word: bv32)

  /** `SwapchainCreateFlagsBuilderKhr`: setters OR in their native bit and never clear one. */
  class SwapchainCreateFlagsBuilderKhr {
    var word: bv32

    constructor ()
      ensures word == 0
    {
      word := 0;
    }

    method SplitInstanceBindRegions(on: bool)
      modifies this
      ensures word == Bits.Include(old(word), ffi.SwapchainCreateFlagBitsKhr.SplitInstanceBindRegionsBitKhr.Bit(), on)
      ensures on ==> Has(word, 0x1)
      ensures !on ==> word == old(word)
      ensures word & old(word) == old(word)
    {
      Bits.IncludeNeverClears(word, 0x1, on);
      word := Bits.Include(word, ffi.SwapchainCreateFlagBitsKhr.SplitInstanceBindRegionsBitKhr.Bit(), on);
    }

    method Protected(on: bool)
      modifies this
      ensures word == Bits.Include(old(word), ffi.SwapchainCreateFlagBitsKhr.ProtectedBitKhr.Bit(), on)
      ensures on ==> Has(word, 0x2)
      ensures !on ==> word == old(word)
      ensures word & old(word) == old(word)
    {
      Bits.IncludeNeverClears(word, 0x2, on);
      word := Bits.Include(word, ffi.SwapchainCreateFlagBitsKhr.ProtectedBitKhr.Bit(), on);
    }

    method MutableFormat(on: bool)
      modifies this
      ensures word == Bits.Include(old(word), ffi.SwapchainCreateFlagBitsKhr.MutableFormatBitKhr.Bit(), on)
      ensures on ==> Has(word, 0x4)
      ensures !on ==> word == old(word)
      ensures word & old(word) == old(word)
    {
      Bits.IncludeNeverClears(word, 0x4, on);
      word := Bits.Include(word, ffi.SwapchainCreateFlagBitsKhr.MutableFormatBitKhr.Bit(), on);
    }

    method Build() returns (flags: SwapchainCreateFlagsKhr)
      ensures flags.word == word
    {
      flags := SwapchainCreateFlagsKhr(word);
    }
  }
}
