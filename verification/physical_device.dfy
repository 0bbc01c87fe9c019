/**
 Physical-device selection of `Device::pickPhysicalDevice`, with the
 device-extension check it relies on, over the enumerated devices given as
 plain data.
 */
module PhysicalDevices {
  import opened Wrappers
  import opened QueueFamilies
  import opened Swapchains

  /** What enumeration reports about one physical device. */
  datatype PhysicalDevice = PhysicalDevice(
    extensionNames: seq<string>,
    queueFamilies: seq<QueueFamily>,
    formats: seq<SurfaceFormat>,
    presentModes: seq<PresentMode>)

  /**
   The required names still missing after erasing, one by one, every name in
   `available` from `required`, as the source does with a `std::set`.
   */
  function EraseAvailable(required: set<string>, available: seq<string>): (r: set<string>)
    ensures forall n :: n in r <==> n in required && n !in available
  {
    if available == [] then required
    else EraseAvailable(required - {available[0]}, available[1..])
  }

  /**
   `checkDeviceExtensionSupport`: every required name is among the available
   ones. Duplicates in either list do not matter and an empty requirement
   list is always supported.
   */
  function CheckDeviceExtensionSupport(available: seq<string>, required: seq<string>): (r: bool)
    ensures r <==> forall n :: n in required ==> n in available
  {
    var missing := EraseAvailable((set n | n in required), available);
    assert (forall n :: n in required ==> n in available) ==> missing == {};
    missing == {}
  }

  /**
   The suitability test of one device, or the queue-family scan's error,
   which escapes `pickPhysicalDevice` whatever the device's extensions. The
   swapchain is adequate trivially without graphics, and otherwise when the
   extensions are supported and formats and present modes are reported. A
   compute-only device needs a compute family; a graphics device needs all
   three roles and a usable swapchain.
   */
  function DeviceSuitable(device: PhysicalDevice, deviceExtensions: seq<string>, graphicsRequired: bool): (r: Result<bool, QueueError>)
    ensures r.Failure? <==> FindQueueFamilies(device.queueFamilies, graphicsRequired).Failure?
    ensures r.Success? ==> (r.value <==>
      && (forall n :: n in deviceExtensions ==> n in device.extensionNames)
      && if graphicsRequired
         then |device.formats| > 0 && |device.presentModes| > 0 && FindQueueFamilies(device.queueFamilies, true).value.IsComplete()
         else FindQueueFamilies(device.queueFamilies, false).value.computeFamily.Some?)
  {
    var extensionsSupported := CheckDeviceExtensionSupport(device.extensionNames, deviceExtensions);
    var swapChainAdequate := !graphicsRequired || (extensionsSupported && |device.formats| > 0 && |device.presentModes| > 0);
    match FindQueueFamilies(device.queueFamilies, graphicsRequired)
    case Failure(e) => Failure(e)
    case Success(indices) =>
      Success(
        && ((indices.IsComplete() && swapChainAdequate)
            || (!graphicsRequired && indices.computeFamily.Some?))
        && extensionsSupported)
  }

  /**
   The device loop from position `i` on: the position of the first suitable
   device, or `None` (the handle stays `VK_NULL_HANDLE`) when no device
   qualifies.
   */
  function ScanDevices(devices: seq<PhysicalDevice>, deviceExtensions: seq<string>, graphicsRequired: bool, i: nat): (r: Result<Option<nat>, QueueError>)
    requires i <= |devices|
    decreases |devices| - i
    ensures r.Success? && r.value.Some? ==>
      && i <= r.value.value < |devices|
      && DeviceSuitable(devices[r.value.value], deviceExtensions, graphicsRequired) == Success(true)
      && forall j :: i <= j < r.value.value ==> DeviceSuitable(devices[j], deviceExtensions, graphicsRequired) == Success(false)
    ensures r.Success? && r.value.None? ==>
      forall j :: i <= j < |devices| ==> DeviceSuitable(devices[j], deviceExtensions, graphicsRequired) == Success(false)
    ensures r.Failure? ==> exists k ::
      && i <= k < |devices|
      && DeviceSuitable(devices[k], deviceExtensions, graphicsRequired).Failure?
      && (forall j :: i <= j < k ==> DeviceSuitable(devices[j], deviceExtensions, graphicsRequired) == Success(false))
  {
    if i == |devices| then Success(None)
    else match DeviceSuitable(devices[i], deviceExtensions, graphicsRequired)
      case Failure(e) => Failure(e)
      case Success(suitable) =>
        if suitable then Success(Some(i)) else ScanDevices(devices, deviceExtensions, graphicsRequired, i + 1)
  }

  datatype PickError = NoVulkanDevices | NoSuitableDevice | QueueFamilyQueryFailed(error: QueueError)

  /**
   `pickPhysicalDevice`: the position of the first suitable device. It fails
   when there are no devices, when no device is suitable (the handle is still
   null after the loop), and when a queue-family scan fails before a suitable
   device is reached.
   */
  function PickPhysicalDevice(devices: seq<PhysicalDevice>, deviceExtensions: seq<string>, graphicsRequired: bool): (r: Result<nat, PickError>)
    ensures |devices| == 0 <==> r == Failure(NoVulkanDevices)
    ensures r.Success? ==>
      && r.value < |devices|
      && DeviceSuitable(devices[r.value], deviceExtensions, graphicsRequired) == Success(true)
      && forall j :: 0 <= j < r.value ==> DeviceSuitable(devices[j], deviceExtensions, graphicsRequired) == Success(false)
    ensures r == Failure(NoSuitableDevice) <==>
      |devices| > 0 && forall j :: 0 <= j < |devices| ==> DeviceSuitable(devices[j], deviceExtensions, graphicsRequired) == Success(false)
    ensures r.Failure? && r.error.QueueFamilyQueryFailed? ==> exists k ::
      && 0 <= k < |devices|
      && DeviceSuitable(devices[k], deviceExtensions, graphicsRequired).Failure?
      && (forall j :: 0 <= j < k ==> DeviceSuitable(devices[j], deviceExtensions, graphicsRequired) == Success(false))
  {
    if |devices| == 0 then Failure(NoVulkanDevices)
    else match ScanDevices(devices, deviceExtensions, graphicsRequired, 0)
      case Failure(e) => Failure(QueueFamilyQueryFailed(e))
      case Success(None) => Failure(NoSuitableDevice)
      case Success(Some(k)) => Success(k)
  }

  /**
   With the header's default `graphicsRequired` the picked device supports
   every required extension, reports surface formats and present modes, and
   its queue-family scan fills the graphics, present and compute roles.
   */
  lemma DefaultPickSupportsPresentation(devices: seq<PhysicalDevice>, deviceExtensions: seq<string>, k: nat)
    requires PickPhysicalDevice(devices, deviceExtensions, DefaultGraphicsRequired) == Success(k)
    ensures k < |devices|
    ensures forall n :: n in deviceExtensions ==> n in devices[k].extensionNames
    ensures |devices[k].formats| > 0 && |devices[k].presentModes| > 0
    ensures FindQueueFamilies(devices[k].queueFamilies, true).Success?
    ensures FindQueueFamilies(devices[k].queueFamilies, true).value.IsComplete()
  {
  }

  /**
   Without graphics the picked device supports every required extension and
   has a compute-capable queue family; swapchain support is not consulted.
   */
  lemma ComputePickHasComputeFamily(devices: seq<PhysicalDevice>, deviceExtensions: seq<string>, k: nat)
    requires PickPhysicalDevice(devices, deviceExtensions, false) == Success(k)
    ensures k < |devices|
    ensures forall n :: n in deviceExtensions ==> n in devices[k].extensionNames
    ensures exists j :: 0 <= j < |devices[k].queueFamilies| && Compute in devices[k].queueFamilies[j].queueFlags
  {
    var c := FindQueueFamilies(devices[k].queueFamilies, false).value.computeFamily.value;
    assert Compute in devices[k].queueFamilies[c].queueFlags;
  }

  /**
   Without graphics, suitability ignores surface formats and present modes:
   two devices that differ only there are equally suitable.
   */
  lemma ComputeSuitabilityIgnoresSurface(device: PhysicalDevice, other: PhysicalDevice, deviceExtensions: seq<string>)
    requires device.extensionNames == other.extensionNames
    requires device.queueFamilies == other.queueFamilies
    ensures DeviceSuitable(device, deviceExtensions, false) == DeviceSuitable(other, deviceExtensions, false)
  {
  }
}
