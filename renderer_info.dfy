/**
 * The "Renderer info" window of src/menus/renderer_info.cpp, without its drawing: the
 * "Reload shaders" button's walk over the shader library and the device description it
 * shows (API version, vendor and device type by name).
 */
module RendererInfo {
  import Shader
  import Renderer

  /** PCI vendor ids the window knows by name. */
  const VendorAmd: nat := 0x1002
  const VendorNvidia: nat := 0x10DE
  const VendorIntel: nat := 0x8086
  const VendorArm: nat := 0x13B5

  /** `VkPhysicalDeviceType` values, from the Vulkan API specification. */
  const DeviceTypeOther: nat := 0
  const DeviceTypeIntegratedGpu: nat := 1
  const DeviceTypeDiscreteGpu: nat := 2
  const DeviceTypeVirtualGpu: nat := 3
  const DeviceTypeCpu: nat := 4

  /** The vendor shown for a vendor id. */
  function VendorName(vendorId: nat): (name: string)
    ensures name == "unknown" <==> vendorId !in {VendorAmd, VendorNvidia, VendorIntel, VendorArm}
    ensures vendorId == VendorNvidia ==> name == "NVIDIA"
  {
    if vendorId == VendorAmd then "AMD"
    else if vendorId == VendorNvidia then "NVIDIA"
    else if vendorId == VendorIntel then "Intel"
    else if vendorId == VendorArm then "ARM"
    else "unknown"
  }

  /** Different known vendors are shown by different names. */
  lemma VendorNamesDistinct(a: nat, b: nat)
    requires a in {VendorAmd, VendorNvidia, VendorIntel, VendorArm} && a != b
    ensures VendorName(a) != VendorName(b)
  {
    var x, y := VendorName(a), VendorName(b);
    assert |x| != |y| || x[0] != y[0] || x[1] != y[1];
  }

  /** The device type shown for a `VkPhysicalDeviceType`. */
  function DeviceTypeName(deviceType: nat): (name: string)
    ensures |name| >= 3
    ensures name == "unknown/other" <==> deviceType !in {DeviceTypeCpu, DeviceTypeDiscreteGpu, DeviceTypeIntegratedGpu, DeviceTypeVirtualGpu}
    ensures deviceType in {DeviceTypeDiscreteGpu, DeviceTypeIntegratedGpu, DeviceTypeVirtualGpu} ==> name[|name| - 3..] == "GPU"
  {
    if deviceType == DeviceTypeCpu then "CPU"
    else if deviceType == DeviceTypeDiscreteGpu then "discrete GPU"
    else if deviceType == DeviceTypeIntegratedGpu then "integrated GPU"
    else if deviceType == DeviceTypeVirtualGpu then "virtual GPU"
    else "unknown/other"
  }

  /** Different known device types are shown by different names. */
  lemma DeviceTypeNamesDistinct(a: nat, b: nat)
    requires a in {DeviceTypeCpu, DeviceTypeDiscreteGpu, DeviceTypeIntegratedGpu, DeviceTypeVirtualGpu} && a != b
    ensures DeviceTypeName(a) != DeviceTypeName(b)
  {
    var x, y := DeviceTypeName(a), DeviceTypeName(b);
    assert x[0] != y[0] || |x| != |y|;
  }

  /** What `vkGetPhysicalDeviceProperties` reports that the window shows. */
  datatype DeviceProperties = DeviceProperties(deviceName: string, apiVersion: bv32, vendorId: nat, deviceType: nat)

  /** The "Device info" lines: the API version split into its fields, the vendor and the device type. */
  datatype DeviceInfo = DeviceInfo(deviceName: string, major: bv32, minor: bv32, patch: bv32, vendor: string, deviceType: string)

  /** The "Device info" section's contents. */
  method Describe(properties: DeviceProperties) returns (info: DeviceInfo)
    ensures info.deviceName == properties.deviceName
    ensures info.major < 1024 && info.minor < 1024 && info.patch < 4096
    ensures Renderer.MakeVersion(info.major, info.minor, info.patch) == properties.apiVersion
    ensures info.vendor == VendorName(properties.vendorId) && info.deviceType == DeviceTypeName(properties.deviceType)
  {
    var major, minor, patch := Renderer.ExpandVulkanVersion(properties.apiVersion);
    info := DeviceInfo(properties.deviceName, major, minor, patch, VendorName(properties.vendorId), DeviceTypeName(properties.deviceType));
  }

  /**
   * "Reload shaders": every name of the library, once each, and the shader under it, whose
   * `reload` is called. The order of the names is left open.
   */
  method ReloadShaders(library: Shader.ShaderLibrary) returns (names: seq<string>, reloaded: seq<Shader.ShaderObject>)
    ensures |reloaded| == |names|
    ensures forall i, j :: 0 <= i < j < |names| ==> names[i] != names[j]
    ensures forall i :: 0 <= i < |names| ==> names[i] in library.shaders && reloaded[i] == library.shaders[names[i]]
    ensures forall n :: n in library.shaders ==> n in names
  {
    var remaining := library.shaders.Keys;
    names, reloaded := [], [];
    while remaining != {}
      invariant remaining <= library.shaders.Keys
      invariant |reloaded| == |names|
      invariant forall i, j :: 0 <= i < j < |names| ==> names[i] != names[j]
      invariant forall i :: 0 <= i < |names| ==> names[i] in library.shaders && names[i] !in remaining && reloaded[i] == library.shaders[names[i]]
      invariant forall n :: n in library.shaders ==> n in names || n in remaining
      decreases remaining
    {
      var n :| n in remaining;
      names := names + [n];
      reloaded := reloaded + [library.shaders[n]];
      remaining := remaining - {n};
    }
  }
}
