/**
 * The wrapper's shared vocabulary: two-dimensional extents, the closed
 * `Error` enum every fallible call reports, and `Result`.
 */
module VkCore {
  import opened Bits
  import ffi = VkFfi

  /** `Extent2D`: its fields are private and read through `width()`/`height()`. */
  datatype Extent2D = Extent2D(width: u32, height: u32)
  {
    function Width(): u32 { width }
    function Height(): u32 { height }
  }

  /** `Extent2D::new(width, height)` reads back through the accessors. */
  lemma NewExtentReadsBack(width: u32, height: u32)
    ensures Extent2D(width, height).Width() == width
    ensures Extent2D(width, height).Height() == height
  {
  }

  /** The derived `Default`: every field is the `u32` default. */
  function DefaultExtent2D(): (e: Extent2D)
    ensures e.Width() == 0 && e.Height() == 0
  {
    Extent2D(0, 0)
  }

  function ExtentToNative(e: Extent2D): ffi.Extent2D {
    ffi.Extent2D(e.width, e.height)
  }

  function ExtentFromNative(n: ffi.Extent2D): Extent2D {
    Extent2D(n.width, n.height)
  }

  /** The two `From` conversions keep width and height, so they are mutual inverses. */
  lemma ExtentConversionsInverse(e: Extent2D, n: ffi.Extent2D)
    ensures ExtentToNative(e).width == e.Width() && ExtentToNative(e).height == e.Height()
    ensures ExtentFromNative(n).Width() == n.width && ExtentFromNative(n).Height() == n.height
    ensures ExtentFromNative(ExtentToNative(e)) == e
    ensures ExtentToNative(ExtentFromNative(n)) == n
  {
  }

  datatype Error =
    | OutOfHostMemory
    | OutOfDeviceMemory
    | InitializationFailed
    | DeviceLost
    | MemoryMapFailed
    | LayerNotPresent
    | ExtensionNotPresent
    | FeatureNotPresent
    | IncompatibleDriver
    | TooManyObjects
    | FormatNotSupported
    | FragmentedPool
    | Unknown
    | OutOfPoolMemory
    | InvalidExternalHandle
    | Fragmentation
    | InvalidOpaqueCaptureAddress
    | SurfaceLostKhr
    | NativeWindowInUseKhr
    | OutOfDateKhr
    | IncompatibleDisplayKhr
    | ValidationFailedExt
    | InvalidShaderNv
    | InvalidDrmFormatModifierPlaneLayoutExt
    | NotPermittedExt
    | FullScreenExclusiveModeLostExt

  /** `Display for Error`. */
  function Display(e: Error): string {
    "vulkan run-time error"
  }

  /** Every variant renders as the same fixed message. */
  lemma DisplayIgnoresVariant(a: Error, b: Error)
    ensures Display(a) == Display(b) == "vulkan run-time error"
  {
  }

  /** `core::Result<T>`; `:-` plays the part of Rust's `?`. */
  datatype Result<T> = Ok(value: T) | Err(error: Error)
  {
    predicate IsFailure() { Err? }

    function PropagateFailure<U>(): Result<U>
      requires Err?
    {
      Err(error)
    }

    function Extract(): T
      requires Ok?
    {
      value
    }
  }
}
