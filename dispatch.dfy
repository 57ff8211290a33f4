/**
 * The three dispatch tables through which the wrapper reaches native entry
 * points: one per instance, filled in two steps (before and after the
 * instance exists), one per physical device and one per logical device.
 *
 * Entry points are looked up by name through a resolver. A mandatory entry
 * is `unwrap()`ed, so an unresolved one panics; an optional entry keeps the
 * resolver's `None`.
 */
module VkDispatch {
  import opened Outcome
  import ffi = VkFfi

  /** The null handle, the context of global-scope lookups. */
  const NULL: ffi.Handle := 0

  /** The target operating systems the `cfg` gates tell apart. */
  datatype TargetOs = Linux | Dragonfly | FreeBsd | NetBsd | OpenBsd | MacOs | Windows | OtherOs

  /** `cfg!(unix)`. */
  predicate IsUnix(os: TargetOs) {
    os.Linux? || os.Dragonfly? || os.FreeBsd? || os.NetBsd? || os.OpenBsd? || os.MacOs?
  }

  /** The `cfg` gate of the XCB and Xlib surface entry points. */
  predicate HasXlibSurfaces(os: TargetOs) {
    os.Linux? || os.Dragonfly? || os.FreeBsd? || os.NetBsd? || os.OpenBsd?
  }

  /**
   * `DispatchLoaderInstance`. An entry whose `cfg` gate excludes the target
   * does not exist there; it is `None` here and no lookup ever fills it.
   */
  class DispatchLoaderInstance {
    var getInstanceProcAddr: Option<ffi.InstanceProcAddr>
    var enumerateInstanceVersion: Option<ffi.Addr>
    var createInstance: Option<ffi.Addr>
    var destroyInstance: Option<ffi.Addr>
    var enumeratePhysicalDevices: Option<ffi.Addr>
    var createXcbSurface: Option<ffi.Addr>
    var createXlibSurface: Option<ffi.Addr>
    var createWin32Surface: Option<ffi.Addr>
    var destroySurface: Option<ffi.Addr>

    /**
     * `DispatchLoaderInstance::new(gipa)`: keeps the resolver, looks up the
     * two global entry points with the null context, leaves the rest empty.
     */
    constructor (gipa: ffi.InstanceProcAddr)
      ensures getInstanceProcAddr == Some(gipa)
      ensures enumerateInstanceVersion == gipa(NULL, "vkEnumerateInstanceVersion")
      ensures createInstance == gipa(NULL, "vkCreateInstance")
      ensures destroyInstance.None? && enumeratePhysicalDevices.None? && destroySurface.None?
      ensures createXcbSurface.None? && createXlibSurface.None? && createWin32Surface.None?
    {
      getInstanceProcAddr := Some(gipa);
      enumerateInstanceVersion := gipa(NULL, "vkEnumerateInstanceVersion");
      createInstance := gipa(NULL, "vkCreateInstance");
      destroyInstance := None;
      enumeratePhysicalDevices := None;
      createXcbSurface := None;
      createXlibSurface := None;
      createWin32Surface := None;
      destroySurface := None;
    }

    /**
     * The state after `new(gipa)` and `load(instance)` on target `os`: the two
     * global entries looked up with the null context, every instance-scope
     * entry the target has looked up with `instance`, the others absent.
     */
    ghost predicate Loaded(gipa: ffi.InstanceProcAddr, os: TargetOs, instance: ffi.Handle)
      reads this
    {
      && getInstanceProcAddr == Some(gipa)
      && enumerateInstanceVersion == gipa(NULL, "vkEnumerateInstanceVersion")
      && createInstance == gipa(NULL, "vkCreateInstance")
      && destroyInstance == gipa(instance, "vkDestroyInstance")
      && enumeratePhysicalDevices == gipa(instance, "vkEnumeratePhysicalDevices")
      && createXcbSurface == (if HasXlibSurfaces(os) then gipa(instance, "vkCreateXcbSurfaceKHR") else None)
      && createXlibSurface == (if HasXlibSurfaces(os) then gipa(instance, "vkCreateXlibSurfaceKHR") else None)
      && createWin32Surface == (if os == Windows then gipa(instance, "vkCreateWin32SurfaceKHR") else None)
      && destroySurface == gipa(instance, "vkDestroySurfaceKHR")
    }

    /**
     * `load(instance)`: unwraps the resolver, then fills the instance-scope
     * entries by looking them up with the instance handle; the surface-creation
     * entries are looked up only where their `cfg` gate admits the target.
     */
    method Load(os: TargetOs, instance: ffi.Handle) returns (r: Run<()>)
      modifies this
      ensures r.Aborts? <==> old(getInstanceProcAddr).None?
      ensures r.Aborts? ==> r.reason == UnwrapNone && unchanged(this)
      ensures r.Returns? ==> getInstanceProcAddr == old(getInstanceProcAddr) && getInstanceProcAddr.Some?
      ensures r.Returns? && getInstanceProcAddr.Some? ==>
        var gipa := getInstanceProcAddr.value;
        && enumerateInstanceVersion == old(enumerateInstanceVersion)
        && createInstance == old(createInstance)
        && destroyInstance == gipa(instance, "vkDestroyInstance")
        && enumeratePhysicalDevices == gipa(instance, "vkEnumeratePhysicalDevices")
        && createXcbSurface ==
             (if HasXlibSurfaces(os) then gipa(instance, "vkCreateXcbSurfaceKHR") else old(createXcbSurface))
        && createXlibSurface ==
             (if HasXlibSurfaces(os) then gipa(instance, "vkCreateXlibSurfaceKHR") else old(createXlibSurface))
        && createWin32Surface ==
             (if os == Windows then gipa(instance, "vkCreateWin32SurfaceKHR") else old(createWin32Surface))
        && destroySurface == gipa(instance, "vkDestroySurfaceKHR")
    {
      if getInstanceProcAddr.None? {
        return Aborts(UnwrapNone);
      }
      var gipa := getInstanceProcAddr.value;
      destroyInstance := gipa(instance, "vkDestroyInstance");
      enumeratePhysicalDevices := gipa(instance, "vkEnumeratePhysicalDevices");
      if HasXlibSurfaces(os) {
        createXcbSurface := gipa(instance, "vkCreateXcbSurfaceKHR");
        createXlibSurface := gipa(instance, "vkCreateXlibSurfaceKHR");
      }
      if os == Windows {
        createWin32Surface := gipa(instance, "vkCreateWin32SurfaceKHR");
      }
      destroySurface := gipa(instance, "vkDestroySurfaceKHR");
      r := Returns(());
    }
  }

  /** The entry points a physical-device table cannot do without. */
  const PHYSICAL_DEVICE_CORE: seq<string> := [
    "vkGetPhysicalDeviceProperties",
    "vkGetPhysicalDeviceQueueFamilyProperties",
    "vkCreateDevice",
    "vkGetDeviceProcAddr"]

  /** The surface queries of `VK_KHR_surface`, absent when the extension is. */
  const PHYSICAL_DEVICE_SURFACE: seq<string> := [
    "vkGetPhysicalDeviceSurfaceCapabilitiesKHR",
    "vkGetPhysicalDeviceSurfaceFormatsKHR",
    "vkGetPhysicalDeviceSurfacePresentModesKHR"]

  datatype DispatchLoaderPhysicalDevice = DispatchLoaderPhysicalDevice(
    getPhysicalDeviceProperties: ffi.Addr,
    getPhysicalDeviceQueueFamilyProperties: ffi.Addr,
    createDevice: ffi.Addr,
    getDeviceProcAddr: ffi.Addr,
    getSurfaceCapabilities: Option<ffi.Addr>,
    getSurfaceFormats: Option<ffi.Addr>,
    getSurfacePresentModes: Option<ffi.Addr>)
  {
    /** The mandatory entries, in the order of `PHYSICAL_DEVICE_CORE`. */
    function Core(): seq<ffi.Addr> {
      [getPhysicalDeviceProperties, getPhysicalDeviceQueueFamilyProperties, createDevice, getDeviceProcAddr]
    }

    /** The optional entries, in the order of `PHYSICAL_DEVICE_SURFACE`. */
    function Surface(): seq<Option<ffi.Addr>> {
      [getSurfaceCapabilities, getSurfaceFormats, getSurfacePresentModes]
    }
  }

  /**
   * `DispatchLoaderPhysicalDevice::new(instance)`: the instance's resolver,
   * applied with the instance handle.
   */
  function PhysicalDeviceTable(gipa: Option<ffi.InstanceProcAddr>, instance: ffi.Handle)
    : (r: Run<DispatchLoaderPhysicalDevice>)
    ensures r.Aborts? <==>
      gipa.None? ||
      exists i :: 0 <= i < |PHYSICAL_DEVICE_CORE| && gipa.value(instance, PHYSICAL_DEVICE_CORE[i]).None?
    ensures r.Aborts? ==> r.reason == UnwrapNone
    ensures r.Returns? ==>
      && (forall i :: 0 <= i < |PHYSICAL_DEVICE_CORE| ==>
            gipa.value(instance, PHYSICAL_DEVICE_CORE[i]) == Some(r.value.Core()[i]))
      && (forall j :: 0 <= j < |PHYSICAL_DEVICE_SURFACE| ==>
            r.value.Surface()[j] == gipa.value(instance, PHYSICAL_DEVICE_SURFACE[j]))
  {
    var resolve :- Unwrap(gipa);
    var properties :- Unwrap(resolve(instance, PHYSICAL_DEVICE_CORE[0]));
    var queueFamilyProperties :- Unwrap(resolve(instance, PHYSICAL_DEVICE_CORE[1]));
    var createDevice :- Unwrap(resolve(instance, PHYSICAL_DEVICE_CORE[2]));
    var getDeviceProcAddr :- Unwrap(resolve(instance, PHYSICAL_DEVICE_CORE[3]));
    Returns(DispatchLoaderPhysicalDevice(
      properties, queueFamilyProperties, createDevice, getDeviceProcAddr,
      resolve(instance, PHYSICAL_DEVICE_SURFACE[0]),
      resolve(instance, PHYSICAL_DEVICE_SURFACE[1]),
      resolve(instance, PHYSICAL_DEVICE_SURFACE[2])))
  }

  /** The device-level entry points a device table cannot do without. */
  const DEVICE_CORE: seq<string> := [
    "vkDestroyDevice",
    "vkGetDeviceQueue",
    "vkCreateCommandPool",
    "vkDestroyCommandPool",
    "vkAllocateCommandBuffers",
    "vkCreateSemaphore",
    "vkDestroySemaphore",
    "vkCreateImageView",
    "vkDestroyImageView"]

  /** The swap-chain entry points of `VK_KHR_swapchain`, absent when the extension is. */
  const DEVICE_SWAPCHAIN: seq<string> := [
    "vkCreateSwapchainKHR",
    "vkDestroySwapchainKHR",
    "vkGetSwapchainImagesKHR"]

  datatype DispatchLoaderDevice = DispatchLoaderDevice(
    destroyDevice: ffi.Addr,
    getDeviceQueue: ffi.Addr,
    createCommandPool: ffi.Addr,
    destroyCommandPool: ffi.Addr,
    allocateCommandBuffers: ffi.Addr,
    createSemaphore: ffi.Addr,
    destroySemaphore: ffi.Addr,
    createSwapchain: Option<ffi.Addr>,
    destroySwapchain: Option<ffi.Addr>,
    getSwapchainImages: Option<ffi.Addr>,
    createImageView: ffi.Addr,
    destroyImageView: ffi.Addr)
  {
    /** The mandatory entries, in the order of `DEVICE_CORE`. */
    function Core(): seq<ffi.Addr> {
      [destroyDevice, getDeviceQueue, createCommandPool, destroyCommandPool, allocateCommandBuffers,
       createSemaphore, destroySemaphore, createImageView, destroyImageView]
    }

    /** The optional entries, in the order of `DEVICE_SWAPCHAIN`. */
    function Swapchain(): seq<Option<ffi.Addr>> {
      [createSwapchain, destroySwapchain, getSwapchainImages]
    }
  }

  /** `DispatchLoaderDevice::new(gdpa, device)`: every lookup uses the device handle. */
  function DeviceTable(gdpa: ffi.DeviceProcAddr, device: ffi.Handle): (r: Run<DispatchLoaderDevice>)
    ensures r.Aborts? <==> exists i :: 0 <= i < |DEVICE_CORE| && gdpa(device, DEVICE_CORE[i]).None?
    ensures r.Aborts? ==> r.reason == UnwrapNone
    ensures r.Returns? ==>
      && (forall i :: 0 <= i < |DEVICE_CORE| ==> gdpa(device, DEVICE_CORE[i]) == Some(r.value.Core()[i]))
      && (forall j :: 0 <= j < |DEVICE_SWAPCHAIN| ==> r.value.Swapchain()[j] == gdpa(device, DEVICE_SWAPCHAIN[j]))
  {
    var destroyDevice :- Unwrap(gdpa(device, DEVICE_CORE[0]));
    var getDeviceQueue :- Unwrap(gdpa(device, DEVICE_CORE[1]));
    var createCommandPool :- Unwrap(gdpa(device, DEVICE_CORE[2]));
    var destroyCommandPool :- Unwrap(gdpa(device, DEVICE_CORE[3]));
    var allocateCommandBuffers :- Unwrap(gdpa(device, DEVICE_CORE[4]));
    var createSemaphore :- Unwrap(gdpa(device, DEVICE_CORE[5]));
    var destroySemaphore :- Unwrap(gdpa(device, DEVICE_CORE[6]));
    var createSwapchain := gdpa(device, DEVICE_SWAPCHAIN[0]);
    var destroySwapchain := gdpa(device, DEVICE_SWAPCHAIN[1]);
    var getSwapchainImages := gdpa(device, DEVICE_SWAPCHAIN[2]);
    var createImageView :- Unwrap(gdpa(device, DEVICE_CORE[7]));
    var destroyImageView :- Unwrap(gdpa(device, DEVICE_CORE[8]));
    Returns(DispatchLoaderDevice(
      destroyDevice, getDeviceQueue, createCommandPool, destroyCommandPool, allocateCommandBuffers,
      createSemaphore, destroySemaphore, createSwapchain, destroySwapchain, getSwapchainImages,
      createImageView, destroyImageView))
  }
}
