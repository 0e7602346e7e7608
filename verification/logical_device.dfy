/** Logical device creation (`LogicalDevice`): one queue create info per
    distinct queue family, the enabled extensions and layers, and the two
    queues fetched afterwards. */
module LogicalDevices {
  import opened Common
  import opened VulkanTypes
  import opened QueueFamilies
  import PhysicalDevices
  import ObjectsInstance

  /** A `VkDeviceQueueCreateInfo`: the family and how many of its queues to
      create (the priority, a float, is left out). */
  datatype QueueCreateInfo = QueueCreateInfo(queueFamilyIndex: nat, queueCount: nat)

  /** The parts of `VkDeviceCreateInfo` the code fills. */
  datatype DeviceCreateInfo = DeviceCreateInfo(
    queueCreateInfos: seq<QueueCreateInfo>,
    enabledExtensions: seq<string>,
    enabledLayers: seq<string>)

  /** The loop over `std::set<uint32_t>{graphics, present}`: the set holds
      each family once and is visited in ascending order, and each family
      asks for one queue. */
  function UniqueQueueCreateInfos(graphics: nat, present: nat): (r: seq<QueueCreateInfo>)
    ensures |r| == (if graphics == present then 1 else 2)
    ensures forall i :: 0 <= i < |r| ==> r[i].queueCount == 1
    ensures forall i, j :: 0 <= i < j < |r| ==> r[i].queueFamilyIndex < r[j].queueFamilyIndex
    ensures (set i | 0 <= i < |r| :: r[i].queueFamilyIndex) == {graphics, present}
  {
    if graphics == present then
      var r := [QueueCreateInfo(graphics, 1)];
      assert (set i | 0 <= i < |r| :: r[i].queueFamilyIndex) == {graphics} by {
        assert r[0].queueFamilyIndex in (set i | 0 <= i < |r| :: r[i].queueFamilyIndex);
      }
      r
    else
      var (low, high) := if graphics < present then (graphics, present) else (present, graphics);
      var r := [QueueCreateInfo(low, 1), QueueCreateInfo(high, 1)];
      assert (set i | 0 <= i < |r| :: r[i].queueFamilyIndex) == {low, high} by {
        assert r[0].queueFamilyIndex in (set i | 0 <= i < |r| :: r[i].queueFamilyIndex);
        assert r[1].queueFamilyIndex in (set i | 0 <= i < |r| :: r[i].queueFamilyIndex);
      }
      r
  }

  /** A queue obtained with `vkGetDeviceQueue(device, family, index)`. */
  datatype QueueRef = QueueRef(family: nat, index: nat)

  datatype LogicalDevice = LogicalDevice(createInfo: DeviceCreateInfo, graphicsQueue: QueueRef, presentQueue: QueueRef)

  datatype LogicalDeviceError =
    | BadOptionalAccess   // `.value()` on an empty family index throws std::bad_optional_access
    | CreationFailed      // "failure to create a logical device !"

  /** The `LogicalDevice` constructor, given the physical device's stored
      indices, the validation switch and what `vkCreateDevice` returns. */
  function CreateLogicalDevice(indices: QueueFamilyIndices, enableValidation: bool, createResult: VkResult)
    : (r: Result<LogicalDevice, LogicalDeviceError>)
    ensures r == Err(BadOptionalAccess) <==> !indices.IsComplete()
    ensures r == Err(CreationFailed) <==> indices.IsComplete() && createResult != Success
    ensures r.Ok? ==>
      && var g := indices.graphicsFamily.value;
      && var p := indices.presentFamily.value;
      && r.value.createInfo.queueCreateInfos == UniqueQueueCreateInfos(g, p)
      && r.value.createInfo.enabledExtensions == PhysicalDevices.NeededDeviceExtensions
      && r.value.createInfo.enabledLayers == (if enableValidation then ObjectsInstance.ValidationLayers else [])
      && r.value.graphicsQueue == QueueRef(g, 0)
      && r.value.presentQueue == QueueRef(p, 0)
  {
    if indices.graphicsFamily.None? || indices.presentFamily.None? then Err(BadOptionalAccess)
    else
      var g := indices.graphicsFamily.value;
      var p := indices.presentFamily.value;
      var createInfo := DeviceCreateInfo(
        UniqueQueueCreateInfos(g, p),
        PhysicalDevices.NeededDeviceExtensions,
        if enableValidation then ObjectsInstance.ValidationLayers else []);
      if createResult != Success then Err(CreationFailed)
      else Ok(LogicalDevice(createInfo, QueueRef(g, 0), QueueRef(p, 0)))
  }

  /** A device built from a successfully selected physical device never
      fails on the family indices, and each queue comes from a family that
      has the needed capability. */
  lemma SelectedDeviceHasBothQueues(devices: seq<PhysicalDevices.PhysicalDevice>, enableValidation: bool)
    requires PhysicalDevices.SelectPhysicalDevice(devices).Ok?
    ensures var s := PhysicalDevices.SelectPhysicalDevice(devices).value;
      var r := CreateLogicalDevice(s.queueFamilyIndices, enableValidation, Success);
      && r.Ok?
      && r.value.graphicsQueue.family < |s.device.queueFamilies|
      && s.device.queueFamilies[r.value.graphicsQueue.family].graphics
      && r.value.presentQueue.family < |s.device.queueFamilies|
      && s.device.queueFamilies[r.value.presentQueue.family].presentSupport
  {
    var s := PhysicalDevices.SelectPhysicalDevice(devices).value;
    FindQueueFamiliesCorrect(s.device.queueFamilies);
  }
}
