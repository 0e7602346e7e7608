/** Adapter selection (`PhysicalDevice`): every enumerated device is checked
    for suitability and scored; the suitable devices go into a multimap keyed
    by score and the one under `rbegin()` is kept, together with its queue
    family indices. */
module PhysicalDevices {
  import opened Common
  import opened VulkanTypes
  import opened QueueFamilies
  import opened NameLists
  import opened Multimap
  import opened Candidates

  /** `PhysicalDevice::neededDeviceExtensions`. */
  const NeededDeviceExtensions: seq<string> := [SwapchainExtensionName]

  /** What the Vulkan queries report about one device: its type, the
      `maxImageDimension2D` limit, its queue families (with their support
      for the program's surface), the names of its device extensions, and
      whether the surface reports at least one format and at least one
      present mode for it. */
  datatype PhysicalDevice = PhysicalDevice(
    deviceType: PhysicalDeviceType,
    maxImageDimension2D: Uint32,
    queueFamilies: seq<QueueFamily>,
    extensions: seq<string>,
    hasSurfaceFormats: bool,
    hasPresentModes: bool)

  /** `checkDeviceExtensionSupport`: every needed extension is available. */
  function CheckDeviceExtensionSupport(d: PhysicalDevice): (r: bool)
    ensures r <==> SwapchainExtensionName in d.extensions
  {
    AllFound(NeededDeviceExtensions, d.extensions)
  }

  /** The conversion of an unsigned 32-bit value back to `int`: the value in
      [-2^31, 2^31) congruent to `x` modulo 2^32. */
  function ToInt32(x: int): (r: int)
    ensures -0x8000_0000 <= r < 0x8000_0000
    ensures (x - r) % 0x1_0000_0000 == 0
    ensures 0 <= x < 0x8000_0000 ==> r == x
  {
    var u := x % 0x1_0000_0000;
    if u < 0x8000_0000 then u else u - 0x1_0000_0000
  }

  /** The score of a suitable device. The `int` score is added to the
      `uint32_t` limit, so the addition is unsigned and wraps modulo 2^32,
      and the sum is converted back to `int`. */
  function Score(d: PhysicalDevice): (s: int)
    ensures -0x8000_0000 <= s < 0x8000_0000
    ensures d.maxImageDimension2D < 0x8000_0000 - 1000 ==>
      s == (if d.deviceType == DiscreteGpu then 1000 else 0) + d.maxImageDimension2D
  {
    var base := if d.deviceType == DiscreteGpu then 1000 else 0;
    ToInt32(base + d.maxImageDimension2D)
  }

  /** A device is suitable when it has a graphics family, a family
      that can present to the surface, the swapchain extension, and at least
      one surface format and one present mode. */
  ghost predicate Suitable(d: PhysicalDevice) {
    && Offers(d.queueFamilies, Graphics)
    && Offers(d.queueFamilies, Present)
    && SwapchainExtensionName in d.extensions
    && d.hasSurfaceFormats
    && d.hasPresentModes
  }

  /** `isPhysicalDeviceSuitable` with its score out-parameter (left at the
      caller's 0 for an unsuitable device). The surface is only queried for
      formats and present modes once the extensions are known to be there. */
  function IsPhysicalDeviceSuitable(d: PhysicalDevice): (r: Rating)
    ensures r.suitable <==> Suitable(d)
    ensures r.suitable ==> r.score == Score(d)
    ensures !r.suitable ==> r.score == 0
  {
    var indices := FindQueueFamilies(d.queueFamilies);
    FindQueueFamiliesCorrect(d.queueFamilies);
    var extensionsSupported := CheckDeviceExtensionSupport(d);
    var swapChainAdequate := if extensionsSupported then d.hasSurfaceFormats && d.hasPresentModes else false;
    if indices.IsComplete() && extensionsSupported && swapChainAdequate then Rating(true, Score(d))
    else Rating(false, 0)
  }

  /** The per-device body of the candidate loop: each enumerated device
      rated by this variant's suitability check. `Devices.Ratings` is the
      same loop over the older variant's check. */
  function Ratings(devices: seq<PhysicalDevice>): (r: seq<Rating>)
    ensures |r| == |devices|
    ensures forall i :: 0 <= i < |devices| ==> r[i] == IsPhysicalDeviceSuitable(devices[i])
  {
    seq(|devices|, i requires 0 <= i < |devices| => IsPhysicalDeviceSuitable(devices[i]))
  }

  /** The device the constructor keeps: suitable, of maximal score among the
      suitable devices, and the last enumerated among those of equal score. */
  ghost predicate IsBestDevice(devices: seq<PhysicalDevice>, b: nat) {
    && b < |devices| && Suitable(devices[b])
    && forall j :: 0 <= j < |devices| && Suitable(devices[j]) ==>
         Score(devices[j]) < Score(devices[b]) || (Score(devices[j]) == Score(devices[b]) && j <= b)
  }

  lemma BestRatingIsBestDevice(devices: seq<PhysicalDevice>, b: nat)
    ensures IsBest(Ratings(devices), b) <==> IsBestDevice(devices, b)
  {
    var ratings := Ratings(devices);
    if IsBest(ratings, b) {
      forall j | 0 <= j < |devices| && Suitable(devices[j])
        ensures Score(devices[j]) < Score(devices[b]) || (Score(devices[j]) == Score(devices[b]) && j <= b)
      {
        assert ratings[j].suitable;
      }
    }
    if IsBestDevice(devices, b) {
      forall j | 0 <= j < |ratings| && ratings[j].suitable
        ensures ratings[j].score < ratings[b].score || (ratings[j].score == ratings[b].score && j <= b)
      {
        assert Suitable(devices[j]);
      }
    }
  }

  datatype SelectionError =
    | NoVulkanDevice     // "No graphics card support the Vulkan API"
    | NoSuitableDevice   // "No suitable graphics card found"
    | NoDeviceCanRun     // "No graphics card can run this program"

  /** A constructed `PhysicalDevice` object: the selected device (its
      position in the enumeration and what was queried about it) and the
      queue family indices stored for it. */
  datatype Selected = Selected(index: nat, device: PhysicalDevice, queueFamilyIndices: QueueFamilyIndices)

  /** The `PhysicalDevice` constructor, given the enumerated devices. */
  function SelectPhysicalDevice(devices: seq<PhysicalDevice>): (r: Result<Selected, SelectionError>)
    ensures r == Err(NoVulkanDevice) <==> |devices| == 0
    ensures r == Err(NoSuitableDevice) <==>
      |devices| > 0 && forall i :: 0 <= i < |devices| ==> !Suitable(devices[i])
    ensures r == Err(NoDeviceCanRun) <==>
      exists b: nat :: IsBestDevice(devices, b) && Score(devices[b]) <= 0
    ensures r.Ok? ==>
      && IsBestDevice(devices, r.value.index)
      && Score(devices[r.value.index]) > 0
      && r.value.device == devices[r.value.index]
      && r.value.queueFamilyIndices == FindQueueFamilies(r.value.device.queueFamilies)
      && r.value.queueFamilyIndices.IsComplete()
  {
    if |devices| == 0 then Err(NoVulkanDevice)
    else
      var top := Top(Ratings(devices));
      if top.Some? then
        var b := top.value.value;
        BestRatingIsBestDevice(devices, b);
        FindQueueFamiliesCorrect(devices[b].queueFamilies);
        if top.value.key > 0 then
          Ok(Selected(b, devices[b], FindQueueFamilies(devices[b].queueFamilies)))
        else
          assert forall b' :: IsBestDevice(devices, b') ==> b' == b by {
            forall b' | IsBestDevice(devices, b') ensures b' == b {
              BestRatingIsBestDevice(devices, b');
              BestIsUnique(Ratings(devices), b, b');
            }
          }
          Err(NoDeviceCanRun)
      else
        assert forall i :: 0 <= i < |devices| ==> !Suitable(devices[i]) by {
          forall i | 0 <= i < |devices| ensures !Suitable(devices[i]) {
            assert !Ratings(devices)[i].suitable;
          }
        }
        Err(NoSuitableDevice)
  }

  /** A discrete GPU with 8192-texel images wins over an integrated GPU with
      4096-texel images (scores 9192 and 4096). */
  lemma DiscreteBeatsIntegrated()
    ensures
      var both := [QueueFamily(true, true)];
      var integrated := PhysicalDevice(IntegratedGpu, 4096, both, [SwapchainExtensionName], true, true);
      var discrete := PhysicalDevice(DiscreteGpu, 8192, both, [SwapchainExtensionName], true, true);
      SelectPhysicalDevice([integrated, discrete]).Ok?
      && SelectPhysicalDevice([integrated, discrete]).value.index == 1
      && Score(discrete) == 9192 && Score(integrated) == 4096
  {
    var both := [QueueFamily(true, true)];
    var integrated := PhysicalDevice(IntegratedGpu, 4096, both, [SwapchainExtensionName], true, true);
    var discrete := PhysicalDevice(DiscreteGpu, 8192, both, [SwapchainExtensionName], true, true);
    var devices := [integrated, discrete];
    assert Suitable(integrated) by { assert Has(both[0], Graphics) && Has(both[0], Present); }
    assert Suitable(discrete) by { assert Has(both[0], Graphics) && Has(both[0], Present); }
    assert IsBestDevice(devices, 1);
    var r := SelectPhysicalDevice(devices);
    forall b: nat | IsBestDevice(devices, b) ensures Score(devices[b]) > 0 {
      assert devices[b] == integrated || devices[b] == discrete;
    }
    assert IsBestDevice(devices, r.value.index);
  }

  /** Two suitable devices that score the same, such as a discrete GPU with
      4096-texel images and an integrated one with 5096: the one enumerated
      last is taken. */
  lemma TieGoesToLastEnumerated(d1: PhysicalDevice, d2: PhysicalDevice)
    requires Suitable(d1) && Suitable(d2) && Score(d1) == Score(d2) > 0
    ensures SelectPhysicalDevice([d1, d2]) == Ok(Selected(1, d2, FindQueueFamilies(d2.queueFamilies)))
  {
    var ds := [d1, d2];
    assert Suitable(ds[0]) && Suitable(ds[1]);
    var r := SelectPhysicalDevice(ds);
    assert IsBestDevice(ds, 1);
    forall b: nat | IsBestDevice(ds, b) ensures Score(ds[b]) > 0 {
      assert ds[b] == d1 || ds[b] == d2;
    }
    assert !IsBestDevice(ds, 0) by { assert Suitable(ds[1]); }
    assert r.Ok? && IsBestDevice(ds, r.value.index);
  }

}
