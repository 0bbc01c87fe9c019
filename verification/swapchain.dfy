/**
 The swapchain parameters `Device::createSwapchain` derives from what the
 surface reports: surface format, present mode, extent, image count and
 image sharing mode.
 */
module Swapchains {
  import opened Wrappers
  import opened VkCommon
  import opened QueueFamilies

  /** `VK_FORMAT_B8G8R8A8_SRGB`. */
  const FormatB8G8R8A8Srgb: nat := 50
  /** `VK_COLOR_SPACE_SRGB_NONLINEAR_KHR`. */
  const ColorSpaceSrgbNonlinear: nat := 0

  /** `VkSurfaceFormatKHR`, with the format and colour space as their enumerant values. */
  datatype SurfaceFormat = SurfaceFormat(format: nat, colorSpace: nat)

  const PreferredFormat: SurfaceFormat := SurfaceFormat(FormatB8G8R8A8Srgb, ColorSpaceSrgbNonlinear)

  /** `VkPresentModeKHR`. */
  datatype PresentMode = Immediate | Mailbox | Fifo | FifoRelaxed | SharedDemandRefresh | SharedContinuousRefresh

  /** `VkExtent2D`. */
  datatype Extent2D = Extent2D(width: U32, height: U32)

  /** The fields of `VkSurfaceCapabilitiesKHR` the renderer reads. */
  datatype SurfaceCapabilities = SurfaceCapabilities(
    minImageCount: U32, maxImageCount: U32,
    currentExtent: Extent2D, minImageExtent: Extent2D, maxImageExtent: Extent2D)

  /** `Device::SwapChainSupportDetails`. */
  datatype SwapChainSupportDetails = SwapChainSupportDetails(
    capabilities: SurfaceCapabilities, formats: seq<SurfaceFormat>, presentModes: seq<PresentMode>)

  /**
   `chooseSwapSurfaceFormat`: the first reported format that is 8-bit BGRA sRGB
   in the non-linear sRGB colour space, otherwise the first reported format.
   The source reads element 0 unguarded, so the list must not be empty.
   */
  method ChooseSwapSurfaceFormat(availableFormats: seq<SurfaceFormat>) returns (r: SurfaceFormat)
    requires |availableFormats| > 0
    ensures r in availableFormats
    ensures PreferredFormat in availableFormats ==> r == PreferredFormat
    ensures PreferredFormat !in availableFormats ==> r == availableFormats[0]
  {
    var i := 0;
    while i < |availableFormats|
      invariant 0 <= i <= |availableFormats|
      invariant PreferredFormat !in availableFormats[..i]
    {
      var f := availableFormats[i];
      if f.format == FormatB8G8R8A8Srgb && f.colorSpace == ColorSpaceSrgbNonlinear {
        return f;
      }
      i := i + 1;
    }
    assert availableFormats[..i] == availableFormats;
    return availableFormats[0];
  }

  /**
   `chooseSwapPresentMode`: MAILBOX when reported, otherwise FIFO, which the
   WSI chapter of the Vulkan specification requires every surface to support.
   */
  method ChooseSwapPresentMode(availablePresentModes: seq<PresentMode>) returns (r: PresentMode)
    ensures r == Mailbox <==> Mailbox in availablePresentModes
    ensures r != Mailbox ==> r == Fifo
    ensures Fifo in availablePresentModes ==> r in availablePresentModes
  {
    var i := 0;
    while i < |availablePresentModes|
      invariant 0 <= i <= |availablePresentModes|
      invariant Mailbox !in availablePresentModes[..i]
    {
      if availablePresentModes[i] == Mailbox {
        return availablePresentModes[i];
      }
      i := i + 1;
    }
    assert availablePresentModes[..i] == availablePresentModes;
    return Fifo;
  }

  /** `int`, the type SDL reports the window size in. */
  type Int32 = x: int | -0x8000_0000 <= x < 0x8000_0000

  /** `static_cast<uint32_t>` of an `int`: two's-complement reinterpretation. */
  function ToU32(x: Int32): (r: U32)
    ensures x >= 0 ==> r == x
    ensures x < 0 ==> r == x + U32Modulus
  {
    x % U32Modulus
  }

  function Distance(a: int, b: int): nat {
    if a <= b then b - a else a - b
  }

  /** `std::clamp(v, lo, hi)`; the standard leaves `lo > hi` undefined. */
  function Clamp(v: int, lo: int, hi: int): (r: int)
    requires lo <= hi
    ensures lo <= r <= hi
    ensures forall x :: lo <= x <= hi ==> Distance(r, v) <= Distance(x, v)
  {
    if v < lo then lo else if hi < v then hi else v
  }

  /**
   `chooseSwapExtent`: the surface's current extent unless its width is the
   0xFFFFFFFF "size decided by the swapchain" sentinel; then the window's
   pixel size, each dimension clamped independently into the surface's
   [min, max] image extent, which must then be a non-empty range.
   */
  function ChooseSwapExtent(capabilities: SurfaceCapabilities, windowWidth: Int32, windowHeight: Int32): (r: Extent2D)
    requires capabilities.currentExtent.width == U32Max ==>
      && capabilities.minImageExtent.width <= capabilities.maxImageExtent.width
      && capabilities.minImageExtent.height <= capabilities.maxImageExtent.height
    ensures capabilities.currentExtent.width != U32Max ==> r == capabilities.currentExtent
    ensures capabilities.currentExtent.width == U32Max ==>
      && capabilities.minImageExtent.width <= r.width <= capabilities.maxImageExtent.width
      && capabilities.minImageExtent.height <= r.height <= capabilities.maxImageExtent.height
    ensures capabilities.currentExtent.width == U32Max ==>
      && (capabilities.minImageExtent.width <= ToU32(windowWidth) <= capabilities.maxImageExtent.width ==> r.width == ToU32(windowWidth))
      && (capabilities.minImageExtent.height <= ToU32(windowHeight) <= capabilities.maxImageExtent.height ==> r.height == ToU32(windowHeight))
    ensures capabilities.currentExtent.width == U32Max ==>
      && (ToU32(windowWidth) < capabilities.minImageExtent.width ==> r.width == capabilities.minImageExtent.width)
      && (ToU32(windowWidth) > capabilities.maxImageExtent.width ==> r.width == capabilities.maxImageExtent.width)
      && (ToU32(windowHeight) < capabilities.minImageExtent.height ==> r.height == capabilities.minImageExtent.height)
      && (ToU32(windowHeight) > capabilities.maxImageExtent.height ==> r.height == capabilities.maxImageExtent.height)
  {
    if capabilities.currentExtent.width != U32Max then capabilities.currentExtent
    else
      var lo, hi := capabilities.minImageExtent, capabilities.maxImageExtent;
      Extent2D(Clamp(ToU32(windowWidth), lo.width, hi.width), Clamp(ToU32(windowHeight), lo.height, hi.height))
  }

  /**
   The swapchain image count: one more than the minimum, in `uint32_t`
   arithmetic, lowered to the maximum only when a maximum is reported
   (non-zero) and exceeded.
   */
  function ImageCount(capabilities: SurfaceCapabilities): (r: U32)
    ensures capabilities.maxImageCount > 0 ==> r <= capabilities.maxImageCount
    ensures capabilities.minImageCount < U32Max && (capabilities.maxImageCount == 0 || capabilities.minImageCount < capabilities.maxImageCount)
      ==> r == capabilities.minImageCount + 1
    ensures capabilities.minImageCount < U32Max && capabilities.minImageCount <= capabilities.maxImageCount
      ==> capabilities.minImageCount <= r
    ensures capabilities.minImageCount == U32Max ==> r == 0
    ensures 0 < capabilities.maxImageCount <= capabilities.minImageCount < U32Max ==> r == capabilities.maxImageCount
  {
    var imageCount := (capabilities.minImageCount + 1) % U32Modulus;
    if capabilities.maxImageCount > 0 && imageCount > capabilities.maxImageCount then capabilities.maxImageCount
    else imageCount
  }

  /** The image sharing part of `VkSwapchainCreateInfoKHR`. */
  datatype ImageSharing = ImageSharing(mode: SharingMode, queueFamilyIndices: seq<nat>)

  /** `std::bad_optional_access` from `value()` on an unset role. */
  datatype SharingError = UnsetQueueFamily

  /**
   Image sharing: concurrent between the graphics and present families when
   they differ, exclusive when they are equal. Comparing two optionals treats
   two unset roles as equal; one unset role makes `value()` throw.
   */
  function ChooseImageSharing(indices: QueueFamilyIndices): (r: Result<ImageSharing, SharingError>)
    ensures r.Failure? <==> indices.graphicsFamily.Some? != indices.presentFamily.Some?
    ensures r.Success? && r.value.mode == Concurrent ==>
      indices.graphicsFamily.Some? && indices.presentFamily.Some? &&
      r.value.queueFamilyIndices == [indices.graphicsFamily.value, indices.presentFamily.value]
      && r.value.queueFamilyIndices[0] != r.value.queueFamilyIndices[1]
    ensures r.Success? && r.value.mode == Exclusive ==>
      r.value.queueFamilyIndices == [] && indices.graphicsFamily == indices.presentFamily
  {
    if indices.graphicsFamily != indices.presentFamily then
      if indices.graphicsFamily.Some? && indices.presentFamily.Some? then
        Success(ImageSharing(Concurrent, [indices.graphicsFamily.value, indices.presentFamily.value]))
      else Failure(UnsetQueueFamily)
    else Success(ImageSharing(Exclusive, []))
  }

  /** The parameters of the `VkSwapchainCreateInfoKHR` the renderer fills. */
  datatype SwapchainCreateInfo = SwapchainCreateInfo(
    minImageCount: U32, surfaceFormat: SurfaceFormat, imageExtent: Extent2D,
    imageArrayLayers: nat, sharing: ImageSharing, presentMode: PresentMode)

  datatype SwapchainError = QueueFamilyError(queueError: QueueError) | SharingFailed(sharingError: SharingError)

  /**
   The parameter choices of `Device::createSwapchain` for a physical device's
   surface support and queue families and the window's pixel size. It
   re-runs the graphics-mode queue-family scan, whose failure propagates.
   */
  method ChooseSwapchainParameters(
    support: SwapChainSupportDetails, queueFamilies: seq<QueueFamily>, windowWidth: Int32, windowHeight: Int32)
    returns (r: Result<SwapchainCreateInfo, SwapchainError>)
    requires |support.formats| > 0
    requires support.capabilities.currentExtent.width == U32Max ==>
      && support.capabilities.minImageExtent.width <= support.capabilities.maxImageExtent.width
      && support.capabilities.minImageExtent.height <= support.capabilities.maxImageExtent.height
    ensures r.Failure? <==> (
      || FindQueueFamilies(queueFamilies, true).Failure?
      || ChooseImageSharing(FindQueueFamilies(queueFamilies, true).value).Failure?)
    ensures r.Success? ==> r.value.surfaceFormat in support.formats
    ensures r.Success? && PreferredFormat in support.formats ==> r.value.surfaceFormat == PreferredFormat
    ensures r.Success? && PreferredFormat !in support.formats ==> r.value.surfaceFormat == support.formats[0]
    ensures r.Success? ==> (r.value.presentMode == Mailbox <==> Mailbox in support.presentModes)
    ensures r.Success? && r.value.presentMode != Mailbox ==> r.value.presentMode == Fifo
    ensures r.Success? ==> r.value.minImageCount == ImageCount(support.capabilities)
    ensures r.Success? && support.capabilities.maxImageCount > 0 ==> r.value.minImageCount <= support.capabilities.maxImageCount
    ensures r.Success? ==>
      && FindQueueFamilies(queueFamilies, true).Success?
      && ChooseImageSharing(FindQueueFamilies(queueFamilies, true).value).Success?
      && r.value.sharing == ChooseImageSharing(FindQueueFamilies(queueFamilies, true).value).value
    ensures r.Success? ==> r.value.imageArrayLayers == 1
    ensures r.Success? ==> r.value.imageExtent == ChooseSwapExtent(support.capabilities, windowWidth, windowHeight)
  {
    var surfaceFormat := ChooseSwapSurfaceFormat(support.formats);
    var presentMode := ChooseSwapPresentMode(support.presentModes);
    var extent := ChooseSwapExtent(support.capabilities, windowWidth, windowHeight);
    var imageCount := ImageCount(support.capabilities);
    var indices := FindQueueFamilies(queueFamilies, true);
    if indices.Failure? {
      return Failure(QueueFamilyError(indices.error));
    }
    var sharing := ChooseImageSharing(indices.value);
    if sharing.Failure? {
      return Failure(SharingFailed(sharing.error));
    }
    return Success(SwapchainCreateInfo(imageCount, surfaceFormat, extent, 1, sharing.value, presentMode));
  }

  /**
   After a successful graphics-mode scan that filled every role, choosing the
   image sharing cannot fail; when it is concurrent, the two families it names
   exist, differ, and serve graphics and presentation respectively.
   */
  lemma SharingAfterCompleteScan(fs: seq<QueueFamily>, indices: QueueFamilyIndices)
    requires FindQueueFamilies(fs, true) == Success(indices)
    requires indices.IsComplete()
    ensures ChooseImageSharing(indices).Success?
    ensures var sharing := ChooseImageSharing(indices).value;
      sharing.mode == Concurrent ==>
        && |sharing.queueFamilyIndices| == 2
        && sharing.queueFamilyIndices[0] < |fs| && Capable(fs[sharing.queueFamilyIndices[0]], GraphicsRole)
        && sharing.queueFamilyIndices[1] < |fs| && Capable(fs[sharing.queueFamilyIndices[1]], PresentRole)
  {
    GraphicsScanSpec(fs);
    var n :| 0 <= n <= |fs| && StopsAt(fs, n) && indices == RolesUpTo(fs, n);
  }
}
