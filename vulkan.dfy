/**
 * The Vulkan enumerants and value types the modelled code passes around, with the
 * numeric values of the Vulkan headers.
 */
module Vulkan {
  /** `VkExtent2D`. */
  datatype Extent = Extent(width: nat, height: nat)

  /** `VkFormat` values. */
  const FormatR8G8B8Srgb: nat := 29
  const FormatR8G8B8A8Unorm: nat := 37
  const FormatR8G8B8A8Srgb: nat := 43
  const FormatD32Sfloat: nat := 126
  const FormatD24UnormS8Uint: nat := 129
  const FormatD32SfloatS8Uint: nat := 130

  /** `VkImageLayout` values. */
  const LayoutUndefined: nat := 0
  const LayoutGeneral: nat := 1
  const LayoutColorAttachment: nat := 2
  const LayoutDepthStencilAttachment: nat := 3
  const LayoutShaderReadOnly: nat := 5
  const LayoutTransferSrc: nat := 6
  const LayoutTransferDst: nat := 7

  /** `VkImageAspectFlagBits`. */
  const AspectColor: bv32 := 1
  const AspectDepth: bv32 := 2
  const AspectStencil: bv32 := 4

  /** `VkImageUsageFlagBits`. */
  const UsageTransferSrc: bv32 := 0x1
  const UsageTransferDst: bv32 := 0x2
  const UsageSampled: bv32 := 0x4
  const UsageColorAttachment: bv32 := 0x10
  const UsageDepthStencilAttachment: bv32 := 0x20
}
