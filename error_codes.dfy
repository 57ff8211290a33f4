/**
 * How native result codes become `Error` values.
 *
 * Each fallible call site of the wrapper lists the native failure codes it
 * handles, maps each to the `Error` variant of the same name, turns
 * `Incomplete` into `todo!()` at some sites, and declares every other code
 * `unreachable!()`. `Handled` states that policy once; each call site's own
 * match is proved equal to it for its list.
 */
module ErrorCodes {
  import opened Outcome
  import opened VkCore
  import ffi = VkFfi

  /** The native code whose name is `Error` followed by the variant's name. */
  function SameNamed(e: Error): ffi.Result {
    match e
    case OutOfHostMemory => ffi.Result.ErrorOutOfHostMemory
    case OutOfDeviceMemory => ffi.Result.ErrorOutOfDeviceMemory
    case InitializationFailed => ffi.Result.ErrorInitializationFailed
    case DeviceLost => ffi.Result.ErrorDeviceLost
    case MemoryMapFailed => ffi.Result.ErrorMemoryMapFailed
    case LayerNotPresent => ffi.Result.ErrorLayerNotPresent
    case ExtensionNotPresent => ffi.Result.ErrorExtensionNotPresent
    case FeatureNotPresent => ffi.Result.ErrorFeatureNotPresent
    case IncompatibleDriver => ffi.Result.ErrorIncompatibleDriver
    case TooManyObjects => ffi.Result.ErrorTooManyObjects
    case FormatNotSupported => ffi.Result.ErrorFormatNotSupported
    case FragmentedPool => ffi.Result.ErrorFragmentedPool
    case Unknown => ffi.Result.ErrorUnknown
    case OutOfPoolMemory => ffi.Result.ErrorOutOfPoolMemory
    case InvalidExternalHandle => ffi.Result.ErrorInvalidExternalHandle
    case Fragmentation => ffi.Result.ErrorFragmentation
    case InvalidOpaqueCaptureAddress => ffi.Result.ErrorInvalidOpaqueCaptureAddress
    case SurfaceLostKhr => ffi.Result.ErrorSurfaceLostKhr
    case NativeWindowInUseKhr => ffi.Result.ErrorNativeWindowInUseKhr
    case OutOfDateKhr => ffi.Result.ErrorOutOfDateKhr
    case IncompatibleDisplayKhr => ffi.Result.ErrorIncompatibleDisplayKhr
    case ValidationFailedExt => ffi.Result.ErrorValidationFailedExt
    case InvalidShaderNv => ffi.Result.ErrorInvalidShaderNv
    case InvalidDrmFormatModifierPlaneLayoutExt => ffi.Result.ErrorInvalidDrmFormatModifierPlaneLayoutExt
    case NotPermittedExt => ffi.Result.ErrorNotPermittedExt
    case FullScreenExclusiveModeLostExt => ffi.Result.ErrorFullScreenExclusiveModeLostExt
  }

  /** The `Error` variant a native failure code is named after; success codes name none. */
  function ErrorNamed(code: ffi.Result): Option<Error> {
    match code
    case ErrorOutOfHostMemory => Some(OutOfHostMemory)
    case ErrorOutOfDeviceMemory => Some(OutOfDeviceMemory)
    case ErrorInitializationFailed => Some(InitializationFailed)
    case ErrorDeviceLost => Some(DeviceLost)
    case ErrorMemoryMapFailed => Some(MemoryMapFailed)
    case ErrorLayerNotPresent => Some(LayerNotPresent)
    case ErrorExtensionNotPresent => Some(ExtensionNotPresent)
    case ErrorFeatureNotPresent => Some(FeatureNotPresent)
    case ErrorIncompatibleDriver => Some(IncompatibleDriver)
    case ErrorTooManyObjects => Some(TooManyObjects)
    case ErrorFormatNotSupported => Some(FormatNotSupported)
    case ErrorFragmentedPool => Some(FragmentedPool)
    case ErrorUnknown => Some(Unknown)
    case ErrorOutOfPoolMemory => Some(OutOfPoolMemory)
    case ErrorInvalidExternalHandle => Some(InvalidExternalHandle)
    case ErrorFragmentation => Some(Fragmentation)
    case ErrorInvalidOpaqueCaptureAddress => Some(InvalidOpaqueCaptureAddress)
    case ErrorSurfaceLostKhr => Some(SurfaceLostKhr)
    case ErrorNativeWindowInUseKhr => Some(NativeWindowInUseKhr)
    case ErrorOutOfDateKhr => Some(OutOfDateKhr)
    case ErrorIncompatibleDisplayKhr => Some(IncompatibleDisplayKhr)
    case ErrorValidationFailedExt => Some(ValidationFailedExt)
    case ErrorInvalidShaderNv => Some(InvalidShaderNv)
    case ErrorInvalidDrmFormatModifierPlaneLayoutExt => Some(InvalidDrmFormatModifierPlaneLayoutExt)
    case ErrorNotPermittedExt => Some(NotPermittedExt)
    case ErrorFullScreenExclusiveModeLostExt => Some(FullScreenExclusiveModeLostExt)
    case _ => None
  }

  /**
   * Every `Error` variant has exactly one same-named native code, and the
   * native codes without an `Error` name are exactly the non-failure ones.
   */
  lemma NamesAgree(e: Error, code: ffi.Result)
    ensures ErrorNamed(code) == Some(e) <==> SameNamed(e) == code
    ensures ErrorNamed(code).None? <==>
      code in {ffi.Result.Success, ffi.Result.NotReady, ffi.Result.Timeout, ffi.Result.EventSet,
               ffi.Result.EventReset, ffi.Result.Incomplete, ffi.Result.SuboptimalKhr}
  {
    match e {
      case _ =>
    }
  }

  /**
   * The error policy of a call site that handles the failure codes named after
   * `mapped`: such a code becomes its `Error`; `Incomplete` is `todo!()` where
   * the site says so; any other non-success code is `unreachable!()`.
   */
  function Handled(code: ffi.Result, mapped: set<Error>, todoOnIncomplete: bool): (r: Run<Error>)
    ensures r.Returns? <==> exists e :: e in mapped && SameNamed(e) == code
    ensures r.Returns? ==> r.value in mapped && SameNamed(r.value) == code
    ensures r.Aborts? ==>
      r.reason == (if code == ffi.Result.Incomplete && todoOnIncomplete then Todo else Unreachable)
  {
    match ErrorNamed(code)
    case Some(e) =>
      NamesAgree(e, code);
      if e in mapped then Returns(e)
      else
        assert forall e' | e' in mapped :: SameNamed(e') != code by {
          forall e' | e' in mapped ensures SameNamed(e') != code { NamesAgree(e', code); }
        }
        Aborts(Unreachable)
    case None =>
      assert forall e' :: SameNamed(e') != code by {
        forall e' ensures SameNamed(e') != code { NamesAgree(e', code); }
      }
      if code == ffi.Result.Incomplete && todoOnIncomplete then Aborts(Todo) else Aborts(Unreachable)
  }

  /** A call site's failure outcome as the value of a `Result`-returning call. */
  function Failed<T>(r: Run<Error>): (f: Run<Result<T>>)
    ensures f.Returns? <==> r.Returns?
    ensures f.Returns? ==> f.value == Err(r.value)
    ensures f.Aborts? ==> f.reason == r.reason
  {
    match r
    case Returns(e) => Returns(Err(e))
    case Aborts(why) => Aborts(why)
  }
}
