/**
 * Instances: the application description, `InstanceBuilder` and its
 * `build`, and what an instance answers (its version, its physical devices).
 */
module VkInstance {
  import opened Outcome
  import opened Bits
  import opened VkCore
  import opened CStrings
  import opened VkDispatch
  import opened VkEnumerate
  import VkVersion
  import ErrorCodes
  import VkDevice
  import ffi = VkFfi

  /** `ApplicationInfo`: optional names and three version words. */
  datatype ApplicationInfo = ApplicationInfo(
    applicationName: Option<string>,
    applicationVersion: VkVersion.ApiVersion,
    engineName: Option<string>,
    engineVersion: VkVersion.ApiVersion,
    apiVersion: VkVersion.ApiVersion)

  /** The derived `Default`: no names, every version the word 0. */
  function DefaultApplicationInfo(): (i: ApplicationInfo)
    ensures i.applicationName.None? && i.engineName.None?
    ensures i.applicationVersion.raw == i.engineVersion.raw == i.apiVersion.raw == 0
  {
    ApplicationInfo(None, VkVersion.DEFAULT, None, VkVersion.DEFAULT, VkVersion.DEFAULT)
  }

  /** The loader library `build` opens: one per platform family, empty elsewhere. */
  function LibraryFileName(os: TargetOs): (name: string)
    ensures IsUnix(os) ==> name == "libvulkan.so"
    ensures os == Windows ==> name == "vulkan-1.dll"
    ensures name != "" <==> IsUnix(os) || os == Windows
  {
    if IsUnix(os) then "libvulkan.so" else if os == Windows then "vulkan-1.dll" else ""
  }

  /** An optional name converted with `CString::new(name).unwrap()`. */
  function OptionalCString(name: Option<string>): (r: Run<Option<string>>)
    ensures r.Aborts? <==> name.Some? && NUL in name.value
    ensures r.Aborts? ==> r.reason == UnwrapNone
    ensures r.Returns? ==> (r.value.None? <==> name.None?)
    ensures r.Returns? && name.Some? ==> r.value.value == name.value + [NUL]
  {
    match name
    case None => Returns(None)
    case Some(s) =>
      var c :- CStringNew(s);
      Returns(Some(c))
  }

  /**
   * The native `VkApplicationInfo` of `build`: each name converted (a null
   * pointer when absent), the three version words copied.
   */
  function ApplicationInfoToNative(info: ApplicationInfo): (r: Run<ffi.ApplicationInfo>)
    ensures r.Aborts? <==>
      (info.applicationName.Some? && NUL in info.applicationName.value) ||
      (info.engineName.Some? && NUL in info.engineName.value)
    ensures r.Aborts? ==> r.reason == UnwrapNone
    ensures r.Returns? ==>
      && (r.value.applicationName.None? <==> info.applicationName.None?)
      && (r.value.engineName.None? <==> info.engineName.None?)
      && r.value.applicationVersion == info.applicationVersion.raw
      && r.value.engineVersion == info.engineVersion.raw
      && r.value.apiVersion == info.apiVersion.raw
    ensures r.Returns? && info.applicationName.Some? ==>
      r.value.applicationName == Some(info.applicationName.value + [NUL])
    ensures r.Returns? && info.engineName.Some? ==>
      r.value.engineName == Some(info.engineName.value + [NUL])
  {
    var applicationName :- OptionalCString(info.applicationName);
    var engineName :- OptionalCString(info.engineName);
    Returns(ffi.ApplicationInfo(applicationName, info.applicationVersion.raw,
                                engineName, info.engineVersion.raw, info.apiVersion.raw))
  }

  /**
   * The `VkInstanceCreateInfo` of `build`: flags 0, the application
   * information (null when none was set), and the layer and extension names,
   * each with a count of 0 and a null pointer when the list is absent.
   */
  function InstanceCreateInfoOf(info: Option<ApplicationInfo>, layers: Option<seq<string>>,
                                extensions: Option<seq<string>>): (r: Run<ffi.InstanceCreateInfo>)
    ensures r.Aborts? <==>
      || (info.Some? && ApplicationInfoToNative(info.value).Aborts?)
      || (layers.Some? && AnyNul(layers.value))
      || (extensions.Some? && AnyNul(extensions.value))
    ensures r.Aborts? ==> r.reason == UnwrapNone
    ensures r.Returns? ==>
      && r.value.flags == 0
      && (r.value.applicationInfo.None? <==> info.None?)
      && (info.Some? ==> r.value.applicationInfo == Some(ApplicationInfoToNative(info.value).value))
      && (r.value.enabledLayerNames.None? <==> layers.None?)
      && r.value.enabledLayerCount == (if layers.Some? then TruncU32(|layers.value|) else 0)
      && (r.value.enabledExtensionNames.None? <==> extensions.None?)
      && r.value.enabledExtensionCount == (if extensions.Some? then TruncU32(|extensions.value|) else 0)
    ensures r.Returns? && layers.Some? ==>
      && |r.value.enabledLayerNames.value| == |layers.value|
      && forall i :: 0 <= i < |layers.value| ==> r.value.enabledLayerNames.value[i] == layers.value[i] + [NUL]
    ensures r.Returns? && extensions.Some? ==>
      && |r.value.enabledExtensionNames.value| == |extensions.value|
      && forall i :: 0 <= i < |extensions.value| ==>
           r.value.enabledExtensionNames.value[i] == extensions.value[i] + [NUL]
  {
    var applicationInfo :- match info
      case None => Returns(None)
      case Some(i) => (var n :- ApplicationInfoToNative(i); Returns(Some(n)));
    var layerNames :- NameArray(layers);
    var extensionNames :- NameArray(extensions);
    Returns(ffi.InstanceCreateInfo(0, applicationInfo, layerNames.0, layerNames.1,
                                   extensionNames.0, extensionNames.1))
  }

  const INSTANCE_ERRORS: set<Error> :=
    {OutOfHostMemory, OutOfDeviceMemory, InitializationFailed, LayerNotPresent, ExtensionNotPresent,
     IncompatibleDriver}

  /** The failure arms of `build`. */
  function CreateInstanceFailure(code: ffi.Result): (r: Run<Error>)
    ensures r == ErrorCodes.Handled(code, INSTANCE_ERRORS, false)
  {
    match code
    case ErrorOutOfHostMemory => Returns(OutOfHostMemory)
    case ErrorOutOfDeviceMemory => Returns(OutOfDeviceMemory)
    case ErrorInitializationFailed => Returns(InitializationFailed)
    case ErrorLayerNotPresent => Returns(LayerNotPresent)
    case ErrorExtensionNotPresent => Returns(ExtensionNotPresent)
    case ErrorIncompatibleDriver => Returns(IncompatibleDriver)
    case _ => Aborts(Unreachable)
  }

  /** A created instance: its handle and its loaded dispatch table. */
  class Instance {
    const handle: ffi.Handle
    const dispatchLoader: DispatchLoaderInstance

    constructor (handle: ffi.Handle, dispatchLoader: DispatchLoaderInstance)
      ensures this.handle == handle && this.dispatchLoader == dispatchLoader
    {
      this.handle := handle;
      this.dispatchLoader := dispatchLoader;
    }

    /**
     * `version()`: `None` when `vkEnumerateInstanceVersion` was not resolved,
     * otherwise the word the entry point stores, given as `reported`.
     */
    function Version(reported: bv32): (v: Option<VkVersion.ApiVersion>)
      reads dispatchLoader
      ensures v.None? <==> dispatchLoader.enumerateInstanceVersion.None?
      ensures v.Some? ==> v.value.raw == reported
    {
      match dispatchLoader.enumerateInstanceVersion
      case None => None
      case Some(_) => Some(VkVersion.From(reported))
    }

    /**
     * `enumerate_physical_devices()`: the two-call idiom on the resolved
     * `vkEnumeratePhysicalDevices`, panicking on any result but `Success`.
     * Every device gets the physical-device table built from this instance's
     * resolver and handle.
     */
    method EnumeratePhysicalDevices(enumerate: Enumerator<ffi.Handle>)
      returns (r: Run<seq<VkDevice.PhysicalDevice>>)
      requires Conforms(enumerate)
      ensures dispatchLoader.enumeratePhysicalDevices.None? ==> r == Aborts(UnwrapNone)
      ensures dispatchLoader.enumeratePhysicalDevices.Some? ==>
        var first := enumerate(None);
        var second := enumerate(Some(first.written.count));
        var table := PhysicalDeviceTable(dispatchLoader.getInstanceProcAddr, handle);
        && (first.code != ffi.Result.Success ==> r == Aborts(Panic))
        && (first.code == ffi.Result.Success && second.code != ffi.Result.Success ==> r == Aborts(Panic))
        && (first.code == ffi.Result.Success && second.code == ffi.Result.Success ==>
              && (second.written.count > 0 && table.Aborts? ==> r == Aborts(UnwrapNone))
              && (second.written.count == 0 || table.Returns? ==>
                    && r.Returns? && |r.value| == second.written.count
                    && forall i :: 0 <= i < |r.value| ==>
                         r.value[i] == VkDevice.PhysicalDevice(second.written.items[i], table.value)))
    {
      if dispatchLoader.enumeratePhysicalDevices.None? {
        return Aborts(UnwrapNone);
      }
      var first := enumerate(None);
      if first.code != ffi.Result.Success {
        return Aborts(Panic);
      }
      var code, handles := FillBuffer(enumerate, first.written.count);
      if code != ffi.Result.Success {
        return Aborts(Panic);
      }
      if handles == [] {
        return Returns([]);
      }
      var table := PhysicalDeviceTable(dispatchLoader.getInstanceProcAddr, handle);
      if table.Aborts? {
        return Aborts(UnwrapNone);
      }
      r := Returns(seq(|handles|, i requires 0 <= i < |handles| => VkDevice.PhysicalDevice(handles[i], table.value)));
    }
  }

  /** `InstanceBuilder`: what `build` will describe; nothing is set at first. */
  class InstanceBuilder {
    var applicationInfo: Option<ApplicationInfo>
    var layers: Option<seq<string>>
    var extensions: Option<seq<string>>

    /** `new()`, the derived `Default`. */
    constructor ()
      ensures applicationInfo.None? && layers.None? && extensions.None?
    {
      applicationInfo := None;
      layers := None;
      extensions := None;
    }

    method WithApplicationInfo(info: ApplicationInfo)
      modifies this
      ensures applicationInfo == Some(info)
      ensures layers == old(layers) && extensions == old(extensions)
    {
      applicationInfo := Some(info);
    }

    method WithLayers(names: seq<string>)
      modifies this
      ensures layers == Some(names)
      ensures applicationInfo == old(applicationInfo) && extensions == old(extensions)
    {
      layers := Some(names);
    }

    method WithExtensions(names: seq<string>)
      modifies this
      ensures extensions == Some(names)
      ensures applicationInfo == old(applicationInfo) && layers == old(layers)
    {
      extensions := Some(names);
    }

    /**
     * `build()`: `gipa` is the `vkGetInstanceProcAddr` the loader library
     * exports and `create` the behaviour of the `vkCreateInstance` it
     * resolves. On `Success` the table is loaded with the new handle;
     * failures map as `CreateInstanceFailure` says.
     */
    method Build(os: TargetOs, gipa: ffi.InstanceProcAddr, create: VkDevice.Creation<ffi.InstanceCreateInfo>)
      returns (r: Run<Result<Instance>>)
      ensures var info := InstanceCreateInfoOf(applicationInfo, layers, extensions);
        && (info.Aborts? ==> r == Aborts(UnwrapNone))
        && (info.Returns? && gipa(NULL, "vkCreateInstance").None? ==> r == Aborts(UnwrapNone))
        && (info.Returns? && gipa(NULL, "vkCreateInstance").Some? ==>
              var (code, handle) := create(info.value);
              && (code != ffi.Result.Success ==> r == ErrorCodes.Failed(CreateInstanceFailure(code)))
              && (code == ffi.Result.Success ==>
                    && r.Returns? && r.value.Ok?
                    && fresh(r.value.value) && fresh(r.value.value.dispatchLoader)
                    && r.value.value.handle == handle
                    && r.value.value.dispatchLoader.Loaded(gipa, os, handle)))
    {
      var loader := new DispatchLoaderInstance(gipa);
      var info := InstanceCreateInfoOf(applicationInfo, layers, extensions);
      if info.Aborts? {
        return Aborts(UnwrapNone);
      }
      if loader.createInstance.None? {
        return Aborts(UnwrapNone);
      }
      var (code, handle) := create(info.value);
      if code != ffi.Result.Success {
        return ErrorCodes.Failed(CreateInstanceFailure(code));
      }
      var loaded := loader.Load(os, handle);
      var instance := new Instance(handle, loader);
      r := Returns(Ok(instance));
    }
  }

  /** `Instance::new()`: a builder with nothing set, built. */
  method NewInstance(os: TargetOs, gipa: ffi.InstanceProcAddr, create: VkDevice.Creation<ffi.InstanceCreateInfo>)
    returns (r: Run<Result<Instance>>)
    ensures var info := ffi.InstanceCreateInfo(0, None, 0, None, 0, None);
      && (gipa(NULL, "vkCreateInstance").None? ==> r == Aborts(UnwrapNone))
      && (gipa(NULL, "vkCreateInstance").Some? ==>
            var (code, handle) := create(info);
            && (code != ffi.Result.Success ==> r == ErrorCodes.Failed(CreateInstanceFailure(code)))
            && (code == ffi.Result.Success ==>
                  r.Returns? && r.value.Ok? && r.value.value.handle == handle &&
                  r.value.value.dispatchLoader.Loaded(gipa, os, handle)))
  {
    var builder := new InstanceBuilder();
    r := builder.Build(os, gipa, create);
  }
}
