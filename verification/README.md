# NewRender Vulkan core, modelled in Dafny

This project models the decision logic of the NewRender Vulkan renderer, with
the Vulkan queries replaced by plain input data. It covers three pieces:

- **Memory-type selection and the raw `Buffer` lifecycle** (`memory_types.dfy`,
  `buffer.dfy`):
  - `Buffer::findMemoryType` is modelled as a loop over the shifting
    `memoryTypeBits` mask, together with a recursive reference definition.
  - The constructor and destructor are modelled as the sequence of Vulkan
    calls they make.
  - An interpreter replays such a sequence against the usage rules of the
    "Resource Creation" and "Device Memory" chapters of the Vulkan
    specification.
- **Device selection** (`queue_families.dfy`, `physical_device.dfy`,
  `swapchain.dfy`):
  - `checkDeviceExtensionSupport`.
  - `findQueueFamilies` in both modes.
  - `pickPhysicalDevice`.
  - The swapchain choices of `createSwapchain`: surface format, present mode,
    extent, image count and image sharing mode.
  - The family of the logical device's single queue.
- **The `Executor` lifecycle** (`executor.dfy`):
  - The constructor is modelled as a trace of create events.
  - `destroy()` is modelled as a trace of release events.
  - An interpreter tracks the multiset of live objects the traces act on.

Conventions:
- A thrown exception is a `Failure` result. So are a failed `assert` and an
  unset `std::optional` read with `value()`.
- `VK_NULL_HANDLE`, the "nothing picked" value of `Device::physicalDevice`,
  is a `None` or `Failure` result.
- Bitmasks of property flags and queue flags are sets of flags. The source's
  `(flags & mask) == mask` is therefore `mask <= flags`.
- `memoryTypeBits` is a `uint32_t` value that the model halves once per
  step, as the source's `>>= 1` does.

## Model

| member | source | states |
|---|---|---|
| MemoryTypes.FindMemoryType | src/renderer/buffer.cpp:54-72 | The loop keeps the current mask equal to the original shifted right by i. A returned index is below `memoryTypeCount` and its bit is set in `typeBits`. Its flags contain every requested flag. No lower index qualifies. `None` (the failed assertion) is returned exactly when no index qualifies. |
| MemoryTypes.FirstSuitable | src/renderer/buffer.cpp:59-69 | The reference definition of the search: the least suitable index at or after `from`, or `None` when every index from there on is unsuitable. |
| MemoryTypes.EmptyMaskPicksLowestAllowed | src/renderer/buffer.cpp:61-63 | With an empty requirements mask the chosen type is the lowest one whose bit is set. There is none exactly when no bit below `memoryTypeCount` is set. |
| Buffers.Construct | src/renderer/buffer.cpp:7-46 | The constructor fails exactly when no memory type is suitable. Otherwise its first call creates an exclusive buffer of `size` bytes with the given usage, and its last call binds memory at offset 0. Its third call allocates the reported requirement size from the lowest suitable memory type, the one `findMemoryType` returns. |
| Buffers.Write | src/renderer/buffer.cpp:31 | `memcpy` into mapped memory: exactly the bytes in `[offset, offset + len)` are written, each byte equals the source byte, and every other byte is unchanged. |
| Buffers.ConstructedBufferIsBound | src/renderer/buffer.cpp:19-35 | Suppose the type `findMemoryType` selects is host-visible whenever `data` is non-null, since the source maps that memory. Then the constructor's calls obey the usage rules. Afterwards the buffer exists and is bound at offset 0 to an allocation of the requirement size whose type is the lowest suitable one, with nothing mapped. The memory holds exactly the first `size` bytes of `data` at offsets 0..size-1 when `data` is non-null, and holds nothing otherwise. |
| Buffers.LifetimeReleasesEverything | src/renderer/buffer.cpp:48-52 | The constructor followed by the destructor obeys the usage rules and leaves nothing behind. The buffer is destroyed exactly once and the memory freed exactly once. |
| Buffers.Destruct | src/renderer/buffer.cpp:48-52 | The destructor releases the buffer and its memory once each, and destroys the buffer before freeing the memory. |
| Buffers.DestructReleases | src/renderer/buffer.cpp:48-52 | The destructor destroys the buffer and then frees the memory. From any state with a buffer, memory and no mapping, it reaches the empty state. |
| QueueFamilies.LastCapable | src/renderer/device.cpp:407-427 | A role's index is the largest index below n whose family can serve that role. No later index below n can serve it. `None` means no index below n can. |
| QueueFamilies.FindQueueFamilies | src/renderer/device.cpp:395-439 | Without graphics, the graphics and present roles are never set, and the compute role is the lowest compute-capable family or unset when there is none. |
| QueueFamilies.ScanCompute | src/renderer/device.cpp:406-436 | The compute-only loop from family i returns the first compute-capable family at or after i. It returns `None` exactly when no family from i on is compute-capable. |
| QueueFamilies.ScanGraphics | src/renderer/device.cpp:406-438 | The graphics-mode loop from family i fails only if some family from i on has a failed surface query, and succeeds when none does. Each role in the result is either the one it entered with or a later family that can serve that role. A complete entry stays complete. |
| QueueFamilies.GraphicsScanSpec | src/renderer/device.cpp:406-438 | The graphics-mode scan succeeds exactly when every failed surface query comes after a prefix that already fills all roles. It stops after the shortest prefix that fills every role, or after all families. Each role holds the last capable index in that prefix. The result is complete exactly when all the families together fill every role. |
| QueueFamilies.ScanGraphicsSpec | src/renderer/device.cpp:406-438 | The graphics-mode loop entered at family i with the roles of the first i families: the same characterisation as above, by induction on the remaining families. |
| QueueFamilies.FilledMonotone | src/renderer/device.hpp:34-38 | Once a prefix fills every role (`isComplete()`), every longer prefix does too. |
| QueueFamilies.LaterFamilyOverwritesGraphics | src/renderer/device.cpp:413-415 | A concrete scan in which a later graphics-capable family overwrites the first one. The result is graphics 1, present 1, compute 2. |
| QueueFamilies.DeviceQueueFamily | src/renderer/device.cpp:39-40 | The device queue's family is the graphics role with a surface and the compute role without one. It is missing (the `value()` exception) exactly when that role is unset. A complete set of roles with a surface always yields a family. |
| QueueFamilies.DeviceQueueFamilyIsCapable | src/renderer/device.cpp:38-42 | Suppose the scan ran in the mode matching the surface and found what that mode needs. Then the single device queue's family exists: a graphics-capable family with a surface, and a compute-capable family without one. |
| PhysicalDevices.EraseAvailable | src/renderer/device.cpp:385-390 | Erasing every available name from the set of required names leaves exactly the required names that are not available. |
| PhysicalDevices.CheckDeviceExtensionSupport | src/renderer/device.cpp:374-393 | True if and only if every required extension name is among the available names. Duplicates do not matter, and an empty requirement list is always supported. |
| PhysicalDevices.DeviceSuitable | src/renderer/device.cpp:455-473 | The test fails exactly when the device's queue-family scan fails. Otherwise the device is suitable if and only if it supports every required extension and, in addition: with graphics, it reports formats and present modes and its families fill all three roles; without graphics, it has a compute family. |
| PhysicalDevices.ScanDevices | src/renderer/device.cpp:454-478 | From position i, the loop returns the first suitable device with all earlier devices unsuitable, or `None` when all are unsuitable. A failure comes from the earliest device whose queue-family scan fails. |
| PhysicalDevices.PickPhysicalDevice | src/renderer/device.cpp:441-483 | It fails on an empty device list. Success returns the first suitable device, where suitability is the source's rule over extensions, swapchain adequacy and queue families. It fails with "no suitable device" exactly when the list is non-empty and every device is unsuitable. A scan failure is reported only when it comes before any suitable device. |
| PhysicalDevices.DefaultPickSupportsPresentation | src/renderer/device.hpp:60-61 | With the default `graphicsRequired` the picked device supports every required extension. It reports formats and present modes, and its queue families fill all three roles. |
| PhysicalDevices.ComputePickHasComputeFamily | src/renderer/device.cpp:469-473 | Without graphics the picked device supports every required extension and has a compute-capable queue family. |
| PhysicalDevices.ComputeSuitabilityIgnoresSurface | src/renderer/device.cpp:458-467 | Without graphics, suitability does not depend on surface formats or present modes. |
| Swapchains.ChooseSwapSurfaceFormat | src/renderer/device.cpp:323-335 | It returns B8G8R8A8_SRGB with SRGB_NONLINEAR when listed, and otherwise the first listed format. The result is always a listed format. |
| Swapchains.ChooseSwapPresentMode | src/renderer/device.cpp:337-347 | MAILBOX if and only if it is listed, and FIFO otherwise. |
| Swapchains.ToU32 | src/renderer/device.cpp:359-360 | `static_cast<uint32_t>` of an `int`: non-negative values are unchanged and negative ones wrap by 2^32. |
| Swapchains.Clamp | src/renderer/device.cpp:362-367 | `std::clamp`: the result lies in [lo, hi] and is the point of that range nearest the input. |
| Swapchains.ChooseSwapExtent | src/renderer/device.cpp:349-372 | It returns the current extent unless its width is the 0xFFFFFFFF sentinel. With the sentinel, each dimension of the window size (cast to uint32) lies within [min, max]. A dimension already in range is kept, one below the minimum becomes the minimum, and one above the maximum becomes the maximum. |
| Swapchains.ImageCount | src/renderer/device.cpp:232-237 | The count is minImageCount + 1 in uint32 arithmetic and never exceeds a non-zero maxImageCount. It is exactly minImageCount + 1 when that fits below the maximum, or when there is no maximum. It is lowered to a non-zero maximum that is at most minImageCount. It is at least minImageCount when min <= max. It wraps to 0 for min = 0xFFFFFFFF, whatever the maximum. |
| Swapchains.ChooseImageSharing | src/renderer/device.cpp:254-261 | Sharing is concurrent over the two distinct graphics and present families when they differ, and exclusive with no indices when they are equal. It fails exactly when one role is set and the other is not. |
| Swapchains.ChooseSwapchainParameters | src/renderer/device.cpp:221-264 | The swapchain parameters fail exactly when the queue-family scan or the sharing choice fails. On success the format is the preferred B8G8R8A8_SRGB/SRGB_NONLINEAR when listed and the first listed format otherwise. The present mode is MAILBOX if it is listed and FIFO otherwise. The minimum image count is the `ImageCount` choice. There is one array layer. The extent is the chosen one. The sharing mode is the `ChooseImageSharing` result for the graphics-mode scan. |
| Swapchains.SharingAfterCompleteScan | src/renderer/device.cpp:254-261 | After a complete graphics-mode scan the sharing choice cannot fail. Concurrent sharing names a graphics-capable family and a present-capable family. |
| Executors.Construct | src/renderer/executor.cpp:3-20 | Creates the executor as written, with an empty pipeline map and `queueFamilyIndex` left at 0 whatever family is passed. The trace gets the queue and creates a reset-command-buffer pool for the given family. It allocates exactly one descriptor set per allocation and one primary command buffer. |
| Executors.ConstructIntended | src/renderer/executor.hpp:33 | The corrected constructor records the queue family it was given and makes the same calls. |
| Executors.QueueFamilyIndexNotRecorded | src/renderer/executor.cpp:3-20 | For family 1 the as-written constructor leaves `queueFamilyIndex` at 0, while the corrected one records 1. |
| Executors.ConstructOrder | src/renderer/executor.cpp:10-19 | The constructor's six calls, in order: set layout, descriptor set, pipeline layout, device queue, command pool, command buffer. |
| Executors.ConstructionDependencies | src/renderer/executor.cpp:10-19 | The usage rules reject allocating the descriptor set or creating the pipeline layout before the set layout, and allocating the command buffer before its pool. |
| Executors.ConstructionIsValid | src/renderer/executor.cpp:10-19 | No step of the constructor's trace breaks a usage rule. Afterwards one of each object is live, including exactly one descriptor set and one command buffer. |
| Executors.Destroy | src/renderer/executor.cpp:60-78 | `destroy()` leaves the pipeline map empty. It makes one call per pipeline plus four, and destroys every pipeline of the map. |
| Executors.DistinctEnumerationSize | src/renderer/executor.cpp:65-67 | An iteration order that lists every key of the map once has as many entries as the map has keys. |
| Executors.DestroyOrder | src/renderer/executor.cpp:65-75 | Every pipeline is destroyed before anything else. The last four calls release the pipeline layout, the descriptor-set layout, the command buffer and the command pool, in that order. |
| Executors.DestroyReleasesEachOnce | src/renderer/executor.cpp:65-75 | `destroy()` releases each pipeline once, and the pipeline layout, the descriptor-set layout, the command buffer and the pool once each. The descriptor set is never freed individually. |
| Executors.CreatingPipelinesIsValid | src/renderer/executor.hpp:29 | Adding pipelines under distinct names to a live pipeline layout obeys the usage rules and adds exactly those pipelines. |
| Executors.DestroyingPipelinesIsValid | src/renderer/executor.cpp:65-67 | Destroying the pipelines in any iteration order releases exactly those pipelines and leaves the rest alone. |
| Executors.LifetimeReleasesOnce | src/renderer/executor.cpp:55-78 | Construction, the caller's pipelines, then `destroy()` from the destructor, in any iteration order of the map. The whole trace obeys the usage rules. Only the descriptor set, which goes with its pool, and the device's queue are left. |
| Executors.SecondDestroyRejected | src/renderer/executor.cpp:55-58 | Running the teardown a second time breaks a usage rule, so `destroy()` must run once. |
| Executors.FreeAfterPoolDestroyedRejected | src/renderer/executor.cpp:74-75 | Freeing the command buffer after destroying its pool breaks a usage rule, while the source's order is accepted. |

## Left out

- All actual Vulkan calls: instance and device creation, `getMemoryProperties`, surface queries, swapchain and image-view creation, and `createGraphicsPipeline`'s fixed pipeline state (src/renderer/device.cpp:108-219). They are foreign API calls. The model keeps only their inputs, the enumerated properties, and the selection outputs.
- Vulkan errors other than the ones the logic branches on. These are `vk::SystemError` and the other exceptions the buffer constructor turns into `exit(-1)`. The model has no failing Vulkan calls.
- The `Device` constructor wiring. It calls `pickPhysicalDevice` and `findQueueFamilies` with the default `graphicsRequired` even without a surface, and the header and source signatures of `createSwapchain` and `getImageViews` disagree. The selection functions take an explicit `graphicsRequired` instead.
- QueueFamilies.DeviceQueueFamilyIsCapable: states the device-queue choice for a scan in the mode matching the surface. It does not cover the constructor's default-mode scan without a surface, which dereferences a null surface.
- The window size comes from `SDL_GetWindowSizeInPixels`. It is an input to `ChooseSwapExtent`.
- In a release build (`NDEBUG`) `findMemoryType` returns 0xFFFFFFFF instead of asserting. The model stops at the assertion (`None`) in both builds.
- Buffers.Construct: requires that `data`, when non-null, holds at least `size` bytes. Reading past the end of the caller's buffer is undefined behaviour that the model does not represent.
- Swapchains.ChooseSwapSurfaceFormat: requires a non-empty format list, because the source reads element 0 unguarded. Such a device is not picked in graphics mode.
- Swapchains.ChooseSwapExtent: requires min <= max per dimension when the sentinel is present, because `std::clamp` is undefined otherwise.
- The iteration order of the `unordered_map` of pipelines is a parameter, and every statement holds for any order.
- Executors.Destroy: pipelines are identified by their name in the map, and the `vk::Pipeline` handles are not modelled. "Each pipeline is released once" therefore assumes that distinct names hold distinct handles. The source does not enforce this.
- Swapchains.ChooseImageSharing: in the source, the `queueFamilyIndices` array at src/renderer/device.cpp:256-257 is local to the `if` block. `createSwapchainKHR` reads it through `pQueueFamilyIndices` at line 263, after its lifetime has ended, which is undefined behaviour. The model returns the two indices by value, i.e. the evidently intended behaviour, and does not represent the dangling pointer.
- The VMA-backed buffers (`src/renderer/buffers/`), `compute.cpp`, the shader, window, validation and `main` code are not part of this model. They are I/O or thin wrappers.
- GPU dispatch, barriers, fences and queue submission are asynchronous and are left out.
- The graphics-mode queue-family scan keeps the last capable index for each role, not the first. The model follows the code.

## Findings

| source | as written | input that shows it | evidently intended | confidence | as-written member | corrected member |
|---|---|---|---|---|---|---|
| src/renderer/executor.cpp:3-20 with src/renderer/executor.hpp:33 | The constructor takes `queueFamilyIndex` and uses it for the queue and the command pool, but never stores it. The public field keeps its in-class default of 0. | An executor constructed for queue family 1 | The field holds the family the executor's queue and pool belong to | not executed | Executors.QueueFamilyIndexNotRecorded | Executors.ConstructIntended |
