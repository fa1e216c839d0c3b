/** The Vulkan enumerants and flag bits that the example program names, with the values
    the Vulkan headers (`vulkan_core.h`) give them. */
module Vk {
  import opened Types

  // VkPhysicalDeviceType
  const PHYSICAL_DEVICE_TYPE_DISCRETE_GPU: u32 := 2

  // VkQueueFlagBits
  const QUEUE_GRAPHICS_BIT: Flags := 0x1

  // VkImageTiling
  const IMAGE_TILING_OPTIMAL: u32 := 0
  const IMAGE_TILING_LINEAR: u32 := 1

  // VkFormat
  const FORMAT_D32_SFLOAT: u32 := 126
  const FORMAT_D24_UNORM_S8_UINT: u32 := 129
  const FORMAT_D32_SFLOAT_S8_UINT: u32 := 130

  // VkFormatFeatureFlagBits
  const FORMAT_FEATURE_DEPTH_STENCIL_ATTACHMENT_BIT: Flags := 0x200

  // VkPipelineStageFlagBits
  const PIPELINE_STAGE_TOP_OF_PIPE_BIT: Flags := 0x1
  const PIPELINE_STAGE_VERTEX_INPUT_BIT: Flags := 0x4
  const PIPELINE_STAGE_VERTEX_SHADER_BIT: Flags := 0x8
  const PIPELINE_STAGE_GEOMETRY_SHADER_BIT: Flags := 0x40
  const PIPELINE_STAGE_FRAGMENT_SHADER_BIT: Flags := 0x80
  const PIPELINE_STAGE_EARLY_FRAGMENT_TESTS_BIT: Flags := 0x100
  const PIPELINE_STAGE_LATE_FRAGMENT_TESTS_BIT: Flags := 0x200
  const PIPELINE_STAGE_COLOR_ATTACHMENT_OUTPUT_BIT: Flags := 0x400
  const PIPELINE_STAGE_COMPUTE_SHADER_BIT: Flags := 0x800
  const PIPELINE_STAGE_TRANSFER_BIT: Flags := 0x1000
  const PIPELINE_STAGE_BOTTOM_OF_PIPE_BIT: Flags := 0x2000
  const PIPELINE_STAGE_ALL_COMMANDS_BIT: Flags := 0x10000

  // VkAccessFlagBits
  const ACCESS_VERTEX_ATTRIBUTE_READ_BIT: Flags := 0x4
  const ACCESS_UNIFORM_READ_BIT: Flags := 0x8
  const ACCESS_SHADER_READ_BIT: Flags := 0x20
  const ACCESS_COLOR_ATTACHMENT_WRITE_BIT: Flags := 0x100
  const ACCESS_DEPTH_STENCIL_ATTACHMENT_READ_BIT: Flags := 0x200
  const ACCESS_DEPTH_STENCIL_ATTACHMENT_WRITE_BIT: Flags := 0x400
  const ACCESS_TRANSFER_READ_BIT: Flags := 0x800
  const ACCESS_TRANSFER_WRITE_BIT: Flags := 0x1000
  const ACCESS_MEMORY_READ_BIT: Flags := 0x8000
  const ACCESS_MEMORY_WRITE_BIT: Flags := 0x10000

  // VkImageLayout
  const IMAGE_LAYOUT_UNDEFINED: u32 := 0
  const IMAGE_LAYOUT_GENERAL: u32 := 1
  const IMAGE_LAYOUT_COLOR_ATTACHMENT_OPTIMAL: u32 := 2
  const IMAGE_LAYOUT_DEPTH_STENCIL_ATTACHMENT_OPTIMAL: u32 := 3
  const IMAGE_LAYOUT_DEPTH_STENCIL_READ_ONLY_OPTIMAL: u32 := 4
  const IMAGE_LAYOUT_SHADER_READ_ONLY_OPTIMAL: u32 := 5
  const IMAGE_LAYOUT_TRANSFER_SRC_OPTIMAL: u32 := 6
  const IMAGE_LAYOUT_TRANSFER_DST_OPTIMAL: u32 := 7
  const IMAGE_LAYOUT_PREINITIALIZED: u32 := 8
  const IMAGE_LAYOUT_PRESENT_SRC_KHR: u32 := 1000001002

  // VkDescriptorType
  const DESCRIPTOR_TYPE_SAMPLER: u32 := 0
  const DESCRIPTOR_TYPE_COMBINED_IMAGE_SAMPLER: u32 := 1
  const DESCRIPTOR_TYPE_SAMPLED_IMAGE: u32 := 2
  const DESCRIPTOR_TYPE_STORAGE_IMAGE: u32 := 3
  const DESCRIPTOR_TYPE_UNIFORM_TEXEL_BUFFER: u32 := 4
  const DESCRIPTOR_TYPE_STORAGE_TEXEL_BUFFER: u32 := 5
  const DESCRIPTOR_TYPE_UNIFORM_BUFFER: u32 := 6
  const DESCRIPTOR_TYPE_STORAGE_BUFFER: u32 := 7
  const DESCRIPTOR_TYPE_UNIFORM_BUFFER_DYNAMIC: u32 := 8
  const DESCRIPTOR_TYPE_STORAGE_BUFFER_DYNAMIC: u32 := 9
  const DESCRIPTOR_TYPE_INPUT_ATTACHMENT: u32 := 10

  // VkDescriptorPoolCreateFlagBits
  const DESCRIPTOR_POOL_CREATE_FREE_DESCRIPTOR_SET_BIT: Flags := 0x1

  // VkShaderStageFlagBits
  const SHADER_STAGE_ALL: Flags := 0x7FFF_FFFF

  // VkExternalSemaphoreHandleTypeFlagBits / VkExternalMemoryHandleTypeFlagBits
  const EXTERNAL_SEMAPHORE_HANDLE_TYPE_OPAQUE_FD_BIT: Flags := 0x1
  const EXTERNAL_MEMORY_HANDLE_TYPE_OPAQUE_FD_BIT: Flags := 0x1

  /** VK_MAX_MEMORY_TYPES: the length of the memory-type array a device reports. */
  const MAX_MEMORY_TYPES: nat := 32
}
