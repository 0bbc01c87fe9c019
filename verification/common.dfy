/**
 Option and Result types used throughout the model. A C++ `assert`, a
 thrown exception or a `VK_NULL_HANDLE` left in place all become `None` or
 `Failure` here.
 */
module Wrappers {

  datatype Option<+T> = None | Some(value: T)

  datatype Result<+R, +E> = Success(value: R) | Failure(error: E)
}

/** Small pieces of the Vulkan API shared by several components. */
module VkCommon {

  /** Largest `uint32_t`; also the "undefined extent" sentinel of the WSI chapter. */
  const U32Max: int := 0xFFFF_FFFF

  /** Number of distinct `uint32_t` values. */
  const U32Modulus: int := 0x1_0000_0000

  /** `uint32_t`. */
  type U32 = x: int | 0 <= x <= U32Max

  /** `VkSharingMode`. */
  datatype SharingMode = Exclusive | Concurrent
}
