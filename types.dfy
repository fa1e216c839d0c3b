/** Fixed-width integer types of the example program (its `types.h` aliases) and the
    result type that stands for the fatal `PANIC_AND_EXIT` paths. */
module Types {

  const U32_MODULUS: int := 0x1_0000_0000
  const I32_MIN: int := -0x8000_0000
  const I32_MAX: int := 0x7FFF_FFFF

  /** `uint32` / GLSL `uint` */
  type u32 = x: int | 0 <= x < 0x1_0000_0000
  /** `int32` / C `int` / GLSL `int` */
  type i32 = x: int | -0x8000_0000 <= x < 0x8000_0000
  /** `uint64`, also `VkDeviceSize` */
  type u64 = x: int | 0 <= x < 0x1_0000_0000_0000_0000
  type byte = x: int | 0 <= x < 0x100

  /** Vulkan flag masks (`VkFlags` is a 32-bit unsigned integer). */
  type Flags = bv32

  /** A non-dispatchable Vulkan handle; `VK_NULL_HANDLE` is 0. */
  type Handle = u64
  const NULL_HANDLE: Handle := 0

  predicate InI32(x: int) {
    I32_MIN <= x <= I32_MAX
  }

  /** The outcome of an operation whose failure path aborts the process. */
  datatype Result<+T, +E> = Ok(value: T) | Fatal(error: E)
}
