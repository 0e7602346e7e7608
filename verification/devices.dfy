/** The older selection-plus-device variant (`Devices`): suitability needs
    only complete queue family indices, the best device is taken from the
    score multimap, and the logical device is created with no device
    extensions. */
module Devices {
  import opened Common
  import opened VulkanTypes
  import opened QueueFamilies
  import opened Candidates
  import PhysicalDevices
  import LogicalDevices
  import ObjectsInstance

  type PhysicalDevice = PhysicalDevices.PhysicalDevice

  /** `Devices::isPhysicalDeviceSuitable`: only the queue families matter;
      the score is the same as in `PhysicalDevice`. */
  function IsPhysicalDeviceSuitable(d: PhysicalDevice): (r: Rating)
    ensures r.suitable <==> Offers(d.queueFamilies, Graphics) && Offers(d.queueFamilies, Present)
    ensures r.suitable ==> r.score == PhysicalDevices.Score(d)
    ensures !r.suitable ==> r.score == 0
  {
    FindQueueFamiliesCorrect(d.queueFamilies);
    if FindQueueFamilies(d.queueFamilies).IsComplete() then Rating(true, PhysicalDevices.Score(d))
    else Rating(false, 0)
  }

  /** The per-device body of the candidate loop, rated by this variant's
      queue-family-only check; `PhysicalDevices.Ratings` uses the stricter
      check, which is why the two lists differ. */
  function Ratings(devices: seq<PhysicalDevice>): (r: seq<Rating>)
    ensures |r| == |devices|
    ensures forall i :: 0 <= i < |devices| ==> r[i] == IsPhysicalDeviceSuitable(devices[i])
  {
    seq(|devices|, i requires 0 <= i < |devices| => IsPhysicalDeviceSuitable(devices[i]))
  }

  /** Some enumerated device is suitable, so the multimap is not empty and
      `candidates.rbegin()` may be dereferenced. */
  ghost predicate SomeSuitable(devices: seq<PhysicalDevice>) {
    exists i :: 0 <= i < |devices| && Ratings(devices)[i].suitable
  }

  datatype DevicesError =
    | NoVulkanDevice         // "aucune carte graphique ne supporte Vulkan!"
    | NoDeviceCanRun         // "aucun GPU ne peut executer ce programme!"
    | NoSuitableDevice       // not raised by the code as written; see SelectAsWritten
    | LogicalDeviceFailed    // "échec lors de la création d'un logical device!"

  /** The selection as written: after the device-count check it reads
      `candidates.rbegin()` without checking that the multimap holds
      anything, which is undefined behaviour when no device is suitable;
      that case is excluded by the precondition. */
  function SelectAsWritten(devices: seq<PhysicalDevice>): (r: Result<nat, DevicesError>)
    requires |devices| == 0 || SomeSuitable(devices)
    ensures r == Err(NoVulkanDevice) <==> |devices| == 0
    ensures r.Ok? <==> exists b: nat :: IsBest(Ratings(devices), b) && PhysicalDevices.Score(devices[b]) > 0
    ensures r.Ok? ==> IsBest(Ratings(devices), r.value) && PhysicalDevices.Score(devices[r.value]) > 0
    ensures r == Err(NoDeviceCanRun) <==>
      exists b: nat :: IsBest(Ratings(devices), b) && PhysicalDevices.Score(devices[b]) <= 0
    ensures r != Err(NoSuitableDevice) && r != Err(LogicalDeviceFailed)
  {
    if |devices| == 0 then Err(NoVulkanDevice)
    else
      var top := Top(Ratings(devices));
      if top.None? then
        assert false;
        Err(NoSuitableDevice)
      else
        BestIsTop(devices, top.value.value);
        if top.value.key > 0 then Ok(top.value.value)
        else Err(NoDeviceCanRun)
  }

  /** The best device is unique, so it is the one `rbegin()` names. */
  lemma BestIsTop(devices: seq<PhysicalDevice>, b: nat)
    requires IsBest(Ratings(devices), b)
    ensures forall b': nat :: IsBest(Ratings(devices), b') <==> b' == b
    ensures PhysicalDevices.Score(devices[b]) == Ratings(devices)[b].score
  {
    forall b': nat | IsBest(Ratings(devices), b') ensures b' == b {
      BestIsUnique(Ratings(devices), b, b');
    }
  }

  /** A device whose only queue family can present but not draw is not
      suitable, so a machine with just that device reaches the unchecked
      `rbegin()`. */
  lemma UnsuitableOnlyReachesEmptyRBegin()
    ensures var d := PhysicalDevices.PhysicalDevice(DiscreteGpu, 4096, [QueueFamily(false, true)], [], true, true);
      |[d]| > 0 && !SomeSuitable([d])
  {
    var d := PhysicalDevices.PhysicalDevice(DiscreteGpu, 4096, [QueueFamily(false, true)], [], true, true);
    assert !Offers(d.queueFamilies, Graphics) by {
      assert !Has(d.queueFamilies[0], Graphics);
    }
  }

  /** The selection with the missing emptiness check added, as
      `PhysicalDevice` does it: no suitable device is an error of its own. */
  function Select(devices: seq<PhysicalDevice>): (r: Result<nat, DevicesError>)
    ensures r == Err(NoVulkanDevice) <==> |devices| == 0
    ensures r == Err(NoSuitableDevice) <==> |devices| > 0 && !SomeSuitable(devices)
    ensures r.Ok? <==> exists b: nat :: IsBest(Ratings(devices), b) && PhysicalDevices.Score(devices[b]) > 0
    ensures r.Ok? ==> IsBest(Ratings(devices), r.value) && PhysicalDevices.Score(devices[r.value]) > 0
    ensures r == Err(NoDeviceCanRun) <==>
      exists b: nat :: IsBest(Ratings(devices), b) && PhysicalDevices.Score(devices[b]) <= 0
    ensures r != Err(LogicalDeviceFailed)
  {
    if |devices| == 0 then Err(NoVulkanDevice)
    else
      var top := Top(Ratings(devices));
      if top.None? then
        assert forall b: nat :: !IsBest(Ratings(devices), b);
        Err(NoSuitableDevice)
      else
        BestIsTop(devices, top.value.value);
        if top.value.key > 0 then Ok(top.value.value)
        else Err(NoDeviceCanRun)
  }

  /** Wherever the code as written is defined, the corrected selection
      gives the same answer. */
  lemma SelectAgreesWhereDefined(devices: seq<PhysicalDevice>)
    requires |devices| == 0 || SomeSuitable(devices)
    ensures Select(devices) == SelectAsWritten(devices)
  {
  }

  datatype DevicesObject = DevicesObject(
    physicalDevice: nat,
    createInfo: LogicalDevices.DeviceCreateInfo,
    graphicsQueue: LogicalDevices.QueueRef,
    presentQueue: LogicalDevices.QueueRef)

  /** The `Devices` constructor: selection, then the logical device of the
      selected device. */
  function CreateDevices(devices: seq<PhysicalDevice>, enableValidation: bool, createResult: VkResult)
    : (r: Result<DevicesObject, DevicesError>)
    ensures r == Err(NoVulkanDevice) <==> |devices| == 0
    ensures r == Err(NoSuitableDevice) <==> |devices| > 0 && !SomeSuitable(devices)
    ensures r == Err(NoDeviceCanRun) <==>
      exists b: nat :: IsBest(Ratings(devices), b) && PhysicalDevices.Score(devices[b]) <= 0
    ensures r == Err(LogicalDeviceFailed) <==>
      (exists b: nat :: IsBest(Ratings(devices), b) && PhysicalDevices.Score(devices[b]) > 0)
      && createResult != Success
    ensures r.Ok? <==>
      (exists b: nat :: IsBest(Ratings(devices), b) && PhysicalDevices.Score(devices[b]) > 0)
      && createResult == Success
    ensures r.Ok? ==>
      && IsBest(Ratings(devices), r.value.physicalDevice)
      && PhysicalDevices.Score(devices[r.value.physicalDevice]) > 0
      && createResult == Success
      && var indices := FindQueueFamilies(devices[r.value.physicalDevice].queueFamilies);
      && indices.IsComplete()
      && r.value.createInfo.queueCreateInfos
           == LogicalDevices.UniqueQueueCreateInfos(indices.graphicsFamily.value, indices.presentFamily.value)
      && r.value.createInfo.enabledExtensions == []
      && r.value.createInfo.enabledLayers == (if enableValidation then ObjectsInstance.ValidationLayers else [])
      && r.value.graphicsQueue == LogicalDevices.QueueRef(indices.graphicsFamily.value, 0)
      && r.value.presentQueue == LogicalDevices.QueueRef(indices.presentFamily.value, 0)
  {
    match Select(devices)
    case Err(e) => Err(e)
    case Ok(b) =>
      var indices := FindQueueFamilies(devices[b].queueFamilies);
      assert indices.IsComplete() by {
        assert Ratings(devices)[b].suitable;
        FindQueueFamiliesCorrect(devices[b].queueFamilies);
      }
      var g := indices.graphicsFamily.value;
      var p := indices.presentFamily.value;
      var createInfo := LogicalDevices.DeviceCreateInfo(
        LogicalDevices.UniqueQueueCreateInfos(g, p),
        [],
        if enableValidation then ObjectsInstance.ValidationLayers else []);
      if createResult != Success then Err(LogicalDeviceFailed)
      else Ok(DevicesObject(b, createInfo, LogicalDevices.QueueRef(g, 0), LogicalDevices.QueueRef(p, 0)))
  }
}
