/**
 * The renderer bookkeeping of src/renderer.cpp: layer and extension registration,
 * physical-device selection, the frame counter, the reference count with its deferred
 * shutdown, the unpacking of Vulkan version numbers and the choice of the main camera.
 * Every Vulkan query is replaced by its answer, passed in as a parameter.
 */
module Renderer {
  import opened Wrappers
  import Util

  /** `renderer::max_frame_count`. */
  const MaxFrameCount: nat := 2

  const UnsupportedLayer: string := "attempted to add unsupported layer!"
  const UnavailableInstanceExtension: string := "the requested instance extension is not available!"
  const NoGpus: string := "no GPUs are installed on this system with Vulkan support!"
  const NoSuitableGpu: string := "no suitable GPU was found!"

  /** `VK_QUEUE_GRAPHICS_BIT`. */
  const QueueGraphicsBit: bv32 := 1

  // ---------------------------------------------------------------- version numbers

  /** `VK_MAKE_VERSION`: major in bits 22-31, minor in bits 12-21, patch in bits 0-11. */
  function MakeVersion(major: bv32, minor: bv32, patch: bv32): (v: bv32)
    requires major < 1024 && minor < 1024 && patch < 4096
    ensures v >> 22 == major
  {
    (major << 22) | (minor << 12) | patch
  }

  /** `expand_vulkan_version`: the three fields of a packed version number. */
  method ExpandVulkanVersion(version: bv32) returns (major: bv32, minor: bv32, patch: bv32)
    ensures major < 1024 && minor < 1024 && patch < 4096
    ensures MakeVersion(major, minor, patch) == version
  {
    var minorMask := Util.CreateMask(22 - 12);
    var patchMask := Util.CreateMask(12);
    major := version >> 22;
    minor := (version >> 12) & minorMask;
    patch := version & patchMask;
    JoinFields(version);
  }

  lemma JoinFields(version: bv32)
    ensures version >> 22 < 1024
    ensures ((version >> 22) << 22) | ((((version >> 12) & 0x3FF)) << 12) | (version & 0xFFF) == version
  {
  }

  /** Unpacking a packed version gives back the fields it was packed from. */
  lemma ExpandMakeVersion(major: bv32, minor: bv32, patch: bv32)
    requires major < 1024 && minor < 1024 && patch < 4096
    ensures MakeVersion(major, minor, patch) >> 22 == major
    ensures (MakeVersion(major, minor, patch) >> 12) & 0x3FF == minor
    ensures MakeVersion(major, minor, patch) & 0xFFF == patch
  {
  }

  // ---------------------------------------------------------------- physical devices

  /** What `vkGetPhysicalDeviceQueueFamilyProperties` and the surface-support query report for one queue family. */
  datatype QueueFamily = QueueFamily(queueFlags: bv32, presentSupport: bool)

  predicate HasGraphics(family: QueueFamily)
  {
    family.queueFlags & QueueGraphicsBit != 0
  }

  /** `queue_family_indices`, with the graphics and present families the .cpp uses. */
  datatype QueueFamilyIndices = QueueFamilyIndices(graphicsFamily: Option<nat>, presentFamily: Option<nat>)
  {
    predicate Complete()
    {
      graphicsFamily.Some? && presentFamily.Some?
    }
  }

  /**
   * `find_queue_families`: the families are scanned in order, each graphics family and each
   * presenting family overwriting the index found before, until both are known. So the
   * indices are complete exactly when some family has graphics and some family presents,
   * and every index found names a family with that capability.
   */
  method FindQueueFamilies(families: seq<QueueFamily>) returns (indices: QueueFamilyIndices)
    ensures indices.Complete() <==> (exists i :: 0 <= i < |families| && HasGraphics(families[i])) &&
                                    (exists i :: 0 <= i < |families| && families[i].presentSupport)
    ensures indices.graphicsFamily.Some? ==>
      indices.graphicsFamily.value < |families| && HasGraphics(families[indices.graphicsFamily.value])
    ensures indices.presentFamily.Some? ==>
      indices.presentFamily.value < |families| && families[indices.presentFamily.value].presentSupport
    ensures (exists i :: 0 <= i < |families| && HasGraphics(families[i])) ==> indices.graphicsFamily.Some?
    ensures (exists i :: 0 <= i < |families| && families[i].presentSupport) ==> indices.presentFamily.Some?
  {
    indices := QueueFamilyIndices(None, None);
    var i := 0;
    while i < |families|
      invariant 0 <= i <= |families|
      invariant indices.graphicsFamily.Some? <==> exists j :: 0 <= j < i && HasGraphics(families[j])
      invariant indices.presentFamily.Some? <==> exists j :: 0 <= j < i && families[j].presentSupport
      invariant indices.graphicsFamily.Some? ==>
        indices.graphicsFamily.value < i && HasGraphics(families[indices.graphicsFamily.value])
      invariant indices.presentFamily.Some? ==>
        indices.presentFamily.value < i && families[indices.presentFamily.value].presentSupport
    {
      if HasGraphics(families[i]) {
        indices := indices.(graphicsFamily := Some(i));
      }
      if families[i].presentSupport {
        indices := indices.(presentFamily := Some(i));
      }
      if indices.Complete() {
        break;
      }
      i := i + 1;
    }
  }

  /** What the device queries of `is_device_suitable` report for one physical device. */
  datatype Device = Device(
    families: seq<QueueFamily>,
    extensions: seq<string>,
    formatCount: nat,
    presentModeCount: nat)

  /** Every required extension is among the available ones. */
  predicate ExtensionsSupported(required: set<string>, available: seq<string>)
  {
    forall e :: e in required ==> e in available
  }

  /**
   * The suitability rule: complete queue families, every registered device extension
   * available, and at least one surface format and one present mode. (The present modes
   * are only read when there are formats.)
   */
  predicate Suitable(required: set<string>, device: Device)
  {
    (exists i :: 0 <= i < |device.families| && HasGraphics(device.families[i])) &&
    (exists i :: 0 <= i < |device.families| && device.families[i].presentSupport) &&
    ExtensionsSupported(required, device.extensions) &&
    device.formatCount > 0 && device.presentModeCount > 0
  }

  /** The global `renderer_data`, with the fields the bookkeeping touches. */
  class RendererData {
    var layerNames: set<string>
    var instanceExtensions: set<string>
    var deviceExtensions: set<string>
    var physicalDevice: Option<nat>
    var currentFrame: nat
    var refCount: nat
    var shouldShutdown: bool
    /** How many times `shutdown_renderer` has run. */
    var teardowns: nat

    constructor ()
      ensures layerNames == {} && instanceExtensions == {} && deviceExtensions == {}
      ensures physicalDevice == None && currentFrame == 0 && refCount == 0
      ensures !shouldShutdown && teardowns == 0
      ensures Valid()
    {
      layerNames := {};
      instanceExtensions := {};
      deviceExtensions := {};
      physicalDevice := None;
      currentFrame := 0;
      refCount := 0;
      shouldShutdown := false;
      teardowns := 0;
    }

    /** Teardown has run once exactly when shutdown was requested and no reference is left. */
    predicate Valid()
      reads this
    {
      currentFrame < MaxFrameCount &&
      teardowns == (if shouldShutdown && refCount == 0 then 1 else 0)
    }

    /**
     * `add_layer`: a registered name is left alone; an unavailable one is refused
     * with the C++ exception's message; otherwise it is registered.
     */
    method AddLayer(name: string, availableLayers: seq<string>) returns (r: Result<()>)
      modifies this
      ensures r.Ok? <==> name in old(layerNames) || name in availableLayers
      ensures r.Err? ==> r.message == UnsupportedLayer
      ensures layerNames == if r.Ok? then old(layerNames) + {name} else old(layerNames)
      ensures instanceExtensions == old(instanceExtensions) && deviceExtensions == old(deviceExtensions)
      ensures physicalDevice == old(physicalDevice) && currentFrame == old(currentFrame)
      ensures refCount == old(refCount) && shouldShutdown == old(shouldShutdown) && teardowns == old(teardowns)
    {
      if name in layerNames {
        return Ok(());
      }
      var found := Contains(availableLayers, name);
      if !found {
        return Err(UnsupportedLayer);
      }
      layerNames := layerNames + {name};
      r := Ok(());
    }

    /** `add_instance_extension`: as `AddLayer`, against the available instance extensions. */
    method AddInstanceExtension(name: string, availableExtensions: seq<string>) returns (r: Result<()>)
      modifies this
      ensures r.Ok? <==> name in old(instanceExtensions) || name in availableExtensions
      ensures r.Err? ==> r.message == UnavailableInstanceExtension
      ensures instanceExtensions == if r.Ok? then old(instanceExtensions) + {name} else old(instanceExtensions)
      ensures layerNames == old(layerNames) && deviceExtensions == old(deviceExtensions)
      ensures physicalDevice == old(physicalDevice) && currentFrame == old(currentFrame)
      ensures refCount == old(refCount) && shouldShutdown == old(shouldShutdown) && teardowns == old(teardowns)
    {
      if name in instanceExtensions {
        return Ok(());
      }
      var found := Contains(availableExtensions, name);
      if !found {
        return Err(UnavailableInstanceExtension);
      }
      instanceExtensions := instanceExtensions + {name};
      r := Ok(());
    }

    /** `add_device_extension`: inserted without any check (there is no device yet). */
    method AddDeviceExtension(name: string)
      modifies this
      ensures deviceExtensions == old(deviceExtensions) + {name}
      ensures layerNames == old(layerNames) && instanceExtensions == old(instanceExtensions)
      ensures physicalDevice == old(physicalDevice) && currentFrame == old(currentFrame)
      ensures refCount == old(refCount) && shouldShutdown == old(shouldShutdown) && teardowns == old(teardowns)
    {
      deviceExtensions := deviceExtensions + {name};
    }

    /**
     * `check_device_extension_support`: each available extension is struck off a copy of
     * the registered set; the device qualifies when nothing remains.
     */
    method CheckDeviceExtensionSupport(available: seq<string>) returns (supported: bool)
      ensures supported <==> ExtensionsSupported(deviceExtensions, available)
    {
      var remaining := deviceExtensions;
      var i := 0;
      while i < |available|
        invariant 0 <= i <= |available|
        invariant remaining == deviceExtensions - set j | 0 <= j < i :: available[j]
      {
        remaining := remaining - {available[i]};
        i := i + 1;
      }
      supported := remaining == {};
      if supported {
        forall e | e in deviceExtensions
          ensures e in available
        {
          assert e !in remaining;
          var j :| 0 <= j < i && available[j] == e;
        }
      } else {
        var e := Util.Element(remaining);
        assert e in deviceExtensions && e !in available;
      }
    }

    /** `is_device_suitable`. */
    method IsDeviceSuitable(device: Device) returns (suitable: bool)
      ensures suitable <==> Suitable(deviceExtensions, device)
    {
      var extensionsSupported := CheckDeviceExtensionSupport(device.extensions);
      var swapchainAdequate := false;
      if extensionsSupported {
        swapchainAdequate := device.formatCount > 0 && device.presentModeCount > 0;
      }
      var indices := FindQueueFamilies(device.families);
      suitable := indices.Complete() && extensionsSupported && swapchainAdequate;
    }

    /**
     * `pick_physical_device`: no device at all is an error, and so is a list without a
     * suitable device; otherwise the first suitable device in enumeration order is chosen.
     */
    method PickPhysicalDevice(devices: seq<Device>) returns (r: Result<()>)
      modifies this
      ensures |devices| == 0 ==> r == Err(NoGpus)
      ensures r.Ok? <==> exists i :: 0 <= i < |devices| && Suitable(deviceExtensions, devices[i])
      ensures |devices| > 0 && r.Err? ==> r.message == NoSuitableGpu
      ensures r.Ok? ==> physicalDevice.Some? && physicalDevice.value < |devices|
      ensures r.Ok? ==> Suitable(deviceExtensions, devices[physicalDevice.value])
      ensures r.Ok? ==> forall j :: 0 <= j < physicalDevice.value ==> !Suitable(deviceExtensions, devices[j])
      ensures r.Err? ==> physicalDevice == old(physicalDevice)
      ensures layerNames == old(layerNames) && instanceExtensions == old(instanceExtensions)
      ensures deviceExtensions == old(deviceExtensions) && currentFrame == old(currentFrame)
      ensures refCount == old(refCount) && shouldShutdown == old(shouldShutdown) && teardowns == old(teardowns)
    {
      if |devices| == 0 {
        return Err(NoGpus);
      }
      var i := 0;
      while i < |devices|
        invariant 0 <= i <= |devices|
        invariant forall j :: 0 <= j < i ==> !Suitable(deviceExtensions, devices[j])
        invariant unchanged(this)
      {
        var suitable := IsDeviceSuitable(devices[i]);
        if suitable {
          physicalDevice := Some(i);
          return Ok(());
        }
        i := i + 1;
      }
      r := Err(NoSuitableGpu);
    }

    /** `new_frame`: the frame index cycles through the in-flight frames. */
    method NewFrame()
      modifies this
      ensures currentFrame == (old(currentFrame) + 1) % MaxFrameCount
      ensures currentFrame < MaxFrameCount
      ensures old(Valid()) ==> Valid()
      ensures layerNames == old(layerNames) && instanceExtensions == old(instanceExtensions)
      ensures deviceExtensions == old(deviceExtensions) && physicalDevice == old(physicalDevice)
      ensures refCount == old(refCount) && shouldShutdown == old(shouldShutdown) && teardowns == old(teardowns)
    {
      currentFrame := (currentFrame + 1) % MaxFrameCount;
    }

    /**
     * `shutdown`: dropping the camera buffer and the white texture first returns the
     * references of whatever they were the last owner of (`released`, one `remove_ref`
     * each); then the request is recorded, and teardown runs now if nothing holds a
     * reference. Called once (as the application does), it keeps `Valid`.
     */
    method Shutdown(released: nat)
      requires released <= refCount
      modifies this
      ensures shouldShutdown
      ensures refCount == old(refCount) - released
      ensures teardowns == old(teardowns) + (if old(shouldShutdown) && released > 0 && refCount == 0 then 1 else 0) +
                                            (if refCount == 0 then 1 else 0)
      ensures old(Valid()) && !old(shouldShutdown) ==> Valid()
      ensures currentFrame == old(currentFrame)
      ensures layerNames == old(layerNames) && instanceExtensions == old(instanceExtensions)
      ensures deviceExtensions == old(deviceExtensions) && physicalDevice == old(physicalDevice)
    {
      for i := 0 to released
        invariant refCount == old(refCount) - i
        invariant shouldShutdown == old(shouldShutdown)
        invariant teardowns == old(teardowns) + (if old(shouldShutdown) && i > 0 && refCount == 0 then 1 else 0)
        invariant old(Valid()) && !old(shouldShutdown) ==> Valid()
        invariant currentFrame == old(currentFrame)
        invariant layerNames == old(layerNames) && instanceExtensions == old(instanceExtensions)
        invariant deviceExtensions == old(deviceExtensions) && physicalDevice == old(physicalDevice)
      {
        RemoveRef();
      }
      shouldShutdown := true;
      if refCount == 0 {
        teardowns := teardowns + 1;
      }
    }

    /** `add_ref`. References are taken only before shutdown is requested, which keeps `Valid`. */
    method AddRef()
      modifies this
      ensures refCount == old(refCount) + 1
      ensures old(Valid()) && !shouldShutdown ==> Valid()
      ensures shouldShutdown == old(shouldShutdown) && teardowns == old(teardowns) && currentFrame == old(currentFrame)
      ensures layerNames == old(layerNames) && instanceExtensions == old(instanceExtensions)
      ensures deviceExtensions == old(deviceExtensions) && physicalDevice == old(physicalDevice)
    {
      refCount := refCount + 1;
    }

    /** `remove_ref`: dropping the last reference after a shutdown request runs teardown. */
    method RemoveRef()
      requires refCount > 0
      modifies this
      ensures refCount == old(refCount) - 1
      ensures teardowns == old(teardowns) + (if refCount == 0 && shouldShutdown then 1 else 0)
      ensures old(Valid()) ==> Valid()
      ensures shouldShutdown == old(shouldShutdown) && currentFrame == old(currentFrame)
      ensures layerNames == old(layerNames) && instanceExtensions == old(instanceExtensions)
      ensures deviceExtensions == old(deviceExtensions) && physicalDevice == old(physicalDevice)
    {
      refCount := refCount - 1;
      if refCount == 0 && shouldShutdown {
        teardowns := teardowns + 1;
      }
    }
  }

  /** A linear search by name, as the availability loops do. */
  method Contains(names: seq<string>, name: string) returns (found: bool)
    ensures found <==> name in names
  {
    found := false;
    var i := 0;
    while i < |names|
      invariant 0 <= i <= |names|
      invariant !found <==> name !in names[..i]
    {
      if names[i] == name {
        found := true;
        break;
      }
      i := i + 1;
    }
    assert !found ==> names[..i] == names;
  }

  // ---------------------------------------------------------------- main camera

  /**
   * The main-camera choice of `update_camera_buffer`: the first camera flagged primary,
   * otherwise the first camera, and none when the scene has no camera.
   */
  method ChooseMainCamera(primary: seq<bool>) returns (chosen: Option<nat>)
    ensures chosen.None? <==> |primary| == 0
    ensures chosen.Some? ==> chosen.value < |primary|
    ensures chosen.Some? && primary[chosen.value] ==> forall j :: 0 <= j < chosen.value ==> !primary[j]
    ensures chosen.Some? && !primary[chosen.value] ==> chosen.value == 0 && forall j :: 0 <= j < |primary| ==> !primary[j]
  {
    if |primary| == 0 {
      return None;
    }
    chosen := None;
    var i := 0;
    while i < |primary|
      invariant 0 <= i <= |primary|
      invariant forall j :: 0 <= j < i ==> !primary[j]
    {
      if primary[i] {
        chosen := Some(i);
        break;
      }
      i := i + 1;
    }
    if chosen.None? {
      chosen := Some(0);
    }
  }
}
