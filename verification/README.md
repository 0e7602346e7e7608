# learnVulkan decision logic in Dafny

This project models the parts of the learnVulkan renderer that make
decisions, with every Vulkan and GLFW call replaced by the value it reports.
The parts are:

- **Adapter selection.** `PhysicalDevice`, and the older `Devices` variant.
  `PhysicalDevice` checks every enumerated device for suitability: complete
  queue family indices, the swapchain extension, and at least one surface
  format and one present mode. `Devices` checks only that the queue family
  indices are complete. In both variants a suitable device is scored 1000 if it is a discrete GPU,
  plus its `maxImageDimension2D`, with the 32-bit wrap of the `int` score
  made explicit. The suitable devices are inserted into a
  `std::multimap<int, VkPhysicalDevice>`, and the device under `rbegin()` is
  selected: the highest score, and among equal scores the device enumerated
  last. The multimap is modelled as a key-ordered sequence with upper-bound
  insertion (`Multimap`, `Candidates`).
- **Queue family discovery.** The scan that stops early, compared against a
  declarative description: the last graphics family and the last presenting
  family within the shortest prefix that offers both (`QueueFamilies`).
- **Logical device creation.** One queue create info per distinct family, in
  ascending order, each asking for one queue. The enabled extensions and
  layers are fixed, and the graphics and present queues are fetched
  afterwards (`LogicalDevices`, `Devices.CreateDevices`).
- **Instance bootstrap, in both variants.**
  - The `vulkanObjects::Instance` variant: the layer and extension checks,
    the list of needed extensions, the order of the checks, and the debug
    messenger (`ObjectsInstance`).
  - The `Vulkan::Instance` variant: the minimum-version check, the throwing
    checks that name the first missing layer or extension, the device list,
    and the check order (`VulkanInstance`).
  - Both variants use a shared name-lookup helper (`NameLists`).
- **The frame loop of `Vulkan::Application`.** An `AppState` records:
  - whether a device is set;
  - the swapchain's image count;
  - the sizes of the semaphore, fence, framebuffer and command-buffer
    collections;
  - the current frame slot;
  - the resize flag;
  - the requested wireframe setting and the pipeline's wireframe setting.

  `DrawFrame` takes the acquire, submit and present results as inputs. It
  returns the next state, the ordered steps it performed, and an outcome:
  `Recreated`, `Advanced` or `Failed`.
- **The `toString` tables and `operator<<`** (`Strings`). Each table has a
  reader that maps a label back to its value. The round trips show that the
  labels are pairwise distinct and differ from the default label.

Two behaviours of the code are kept as they are written:

- `RecreateSwapChain` does not reset the frame slot. After a rebuild, the
  loop's invariant holds exactly when the new image count exceeds the old
  slot (`Application.DrawFrameKeepsFrameSlotInRange`).
  `Application.ShrinkingRebuildStrandsFrameSlot` gives a concrete rebuild
  that leaves the slot out of range.
- A pending resize turns any present result into a rebuild, including a
  fatal one (`Application.PendingResizeSwallowsPresentFailure`).

Assumptions about code whose body is not part of this model:

- `Vulkan::Check` is taken to throw exactly when the result is not
  `VK_SUCCESS`.
- `Window::GetRequiredInstanceExtensions` is an input of its own, separate
  from `glfwGetRequiredInstanceExtensions`.
- `VK_API_VERSION_1_1` is packed as defined in the "Version Numbers" section
  of the Vulkan specification: major·2^22 + minor·2^12 + patch.

## Model

| member | source | states |
|---|---|---|
| NameLists.AllFound | src/vulkanObjects/PhysicalDevice.cpp:151-159 | the early-exit lookup is true exactly when every needed name is among the available names |
| NameLists.FirstMissing | src/Vulkan/Instance.cpp:89-97 | no name is reported exactly when all are available; a reported name is missing, and every name before it is available |
| NameLists.AllFoundIffNothingMissing | src/vulkanObjects/Instance.cpp:131-148 | the boolean check and the throwing check agree on every input |
| QueueFamilies.DefaultIndicesIncomplete | src/vulkanObjects/PhysicalDevice.hpp:11-16 | default-constructed indices are not complete; completeness does not require the two indices to differ |
| QueueFamilies.ScanFromMeetsReference | src/vulkanObjects/PhysicalDevice.cpp:110-128 | a scan resumed at position i stops at the shortest prefix holding a graphics and a presenting family, with that prefix's last indices, or runs to the end with neither complete |
| QueueFamilies.FindQueueFamilies | src/vulkanObjects/PhysicalDevice.cpp:101-131 | each index `findQueueFamilies` reports names a family with the needed capability: the graphics index a family with the graphics bit, the present index a family that supports presentation |
| QueueFamilies.FindQueueFamiliesMeetsReference | src/vulkanObjects/PhysicalDevice.cpp:101-131 | `findQueueFamilies` returns the indices of the shortest covering prefix when complete, and the whole list's last indices otherwise |
| QueueFamilies.FindQueueFamiliesCorrect | src/vulkanObjects/PhysicalDevice.cpp:110-130 | complete iff some family has the graphics bit and some supports presentation; the indices then name such families and lie inside the shortest covering prefix, whose last family supplies one of them |
| Multimap.UpperBound | src/vulkanObjects/PhysicalDevice.cpp:40 | the insertion point follows every entry with a key not greater than the new key and precedes the first greater key |
| Multimap.Insert | src/vulkanObjects/PhysicalDevice.cpp:40 | insertion adds exactly the new entry to the multiset of entries |
| Multimap.InsertAfterEqualKeys | src/vulkanObjects/PhysicalDevice.cpp:40 | in a key-ordered multimap, the new entry lands after all entries with smaller or equal keys and before all entries with greater keys |
| Multimap.InsertKeepsOrder | src/vulkanObjects/PhysicalDevice.cpp:40 | insertion keeps the entries in key order |
| Multimap.RBegin | src/vulkanObjects/PhysicalDevice.cpp:45-47 | `rbegin()` is the last entry of the multimap, and in a key-ordered multimap it carries the greatest key, so among equal greatest keys the one inserted last wins |
| Candidates.Fill | src/vulkanObjects/PhysicalDevice.cpp:37-42 | after the loop has visited n devices, the multimap is in key order, holds at most n entries, and each entry names one of the visited devices |
| Candidates.FillInvariant | src/vulkanObjects/PhysicalDevice.cpp:37-42 | after the loop has visited n devices, the multimap holds exactly one entry per suitable device among them, under its score, ordered by score and then by enumeration position |
| Candidates.BestIsUnique | src/vulkanObjects/PhysicalDevice.cpp:45-47 | at most one device is best: suitable, of maximal score, and last among equal scores |
| Candidates.Top | src/vulkanObjects/PhysicalDevice.cpp:35-47 | the multimap is empty exactly when no device is suitable; otherwise `rbegin()` is the best device, under its own score |
| PhysicalDevices.CheckDeviceExtensionSupport | src/vulkanObjects/PhysicalDevice.cpp:133-159 | true iff the swapchain extension, the only needed device extension, is among the device's extensions |
| PhysicalDevices.ToInt32 | src/vulkanObjects/PhysicalDevice.cpp:93 | the conversion back to `int` lands in the int32 range, is congruent to its input modulo 2^32, and is the identity on non-negative int32 values |
| PhysicalDevices.Score | src/vulkanObjects/PhysicalDevice.cpp:87-93 | the score is an int32, and it is 1000 for a discrete GPU plus `maxImageDimension2D` whenever that sum does not wrap |
| PhysicalDevices.IsPhysicalDeviceSuitable | src/vulkanObjects/PhysicalDevice.cpp:71-99 | suitable iff a graphics family, a presenting family, the swapchain extension, a surface format and a present mode all exist; a suitable device carries its score, an unsuitable one 0 |
| PhysicalDevices.BestRatingIsBestDevice | src/vulkanObjects/PhysicalDevice.cpp:37-47 | the best entry among the ratings is exactly the best device by suitability and score |
| PhysicalDevices.SelectPhysicalDevice | src/vulkanObjects/PhysicalDevice.cpp:16-65 | no devices, no suitable device, and a best score ≤ 0 each give their own error, each iff its condition holds; otherwise the best device is kept with a positive score, and its stored indices are its own complete queue family indices |
| PhysicalDevices.DiscreteBeatsIntegrated | src/vulkanObjects/PhysicalDevice.cpp:89-93 | a discrete 8192 device (score 9192) is chosen over an integrated 4096 device (score 4096) |
| PhysicalDevices.TieGoesToLastEnumerated | src/vulkanObjects/PhysicalDevice.cpp:34-47 | of two suitable devices, possibly different, with the same positive score, the one enumerated last is selected, with its own queue family indices |
| Devices.IsPhysicalDeviceSuitable | src/vulkanObjects/Devices.cpp:100-121 | suitable iff some family has the graphics bit and some supports presentation, with no extension or swapchain check; the score is the same as `PhysicalDevice`'s |
| Devices.SelectAsWritten | src/vulkanObjects/Devices.cpp:15-46 | the selection as written: no devices is an error iff the list is empty; it succeeds iff a best device exists with a positive score, keeping that device; it fails with "no device can run" iff the best device scores ≤ 0; it never reports "no suitable device" or a failed logical device |
| Devices.UnsuitableOnlyReachesEmptyRBegin | src/vulkanObjects/Devices.cpp:29-37 | a device whose only family cannot draw passes the device-count check but leaves the multimap empty |
| Devices.Select | src/vulkanObjects/Devices.cpp:15-46 | the selection with the emptiness check: no devices, no suitable device, and a best score ≤ 0 are errors, each iff its condition; it succeeds iff the best device scores above 0, keeping that device; a failed logical device is never reported |
| Devices.SelectAgreesWhereDefined | src/vulkanObjects/Devices.cpp:37-46 | wherever the code as written is defined, the corrected selection gives the same result |
| Devices.CreateDevices | src/vulkanObjects/Devices.cpp:48-91 | the constructor with the emptiness check added (see Findings; it builds on `Devices.Select`, so an all-unsuitable list gives "no suitable device" where the code as written dereferences an empty multimap): the selection errors carry over, each iff its condition; `vkCreateDevice` failing is an error iff the best device scores above 0 and the call fails; otherwise the logical device is built for that device, with one create info per distinct family, no device extensions, the validation layers iff validation is on, and queue 0 of the graphics and present families |
| LogicalDevices.UniqueQueueCreateInfos | src/vulkanObjects/LogicalDevice.cpp:9-20 | one create info if the families are equal and two otherwise, in strictly ascending family order, covering exactly {graphics, present}, each asking for one queue |
| LogicalDevices.CreateLogicalDevice | src/vulkanObjects/LogicalDevice.cpp:6-50 | a missing index is `bad_optional_access`, a failed `vkCreateDevice` is its own error, each iff its condition; otherwise the create info holds the unique families, the needed device extensions, the validation layers iff enabled, and queue 0 of each family |
| LogicalDevices.SelectedDeviceHasBothQueues | src/vulkanObjects/LogicalDevice.cpp:47-48 | for a selected device the construction does not fail on the indices, and each queue comes from a family with the needed capability |
| ObjectsInstance.CheckInstanceExtensionsSupport | src/vulkanObjects/Instance.cpp:111-149 | true iff every needed extension is available |
| ObjectsInstance.CheckValidationLayerSupport | src/vulkanObjects/Instance.cpp:151-174 | true iff the Khronos validation layer is available |
| ObjectsInstance.GetNeededExtensions | src/vulkanObjects/Instance.cpp:176-189 | the GLFW list, unchanged and in order, followed by `VK_EXT_debug_utils` exactly when validation is on |
| ObjectsInstance.CreateDebugUtilsMessenger | src/vulkanObjects/Instance.cpp:87-94 | a failed function lookup yields `VK_ERROR_EXTENSION_NOT_PRESENT`; a successful lookup returns the result of the call |
| ObjectsInstance.SetupDebugMessenger | src/vulkanObjects/Instance.cpp:65-75 | without validation it does nothing; with validation it passes iff the lookup finds the function and the call succeeds; every failure is "failed to set up debug messenger!" |
| ObjectsInstance.CreateInstance | src/vulkanObjects/Instance.cpp:10-54 | checks run in order: layers, then extensions, then creation, then the messenger. Each error holds iff its own check fails after the earlier ones pass. On success the enabled extensions are the needed ones, all available; the enabled layers are `validationLayers` when validation is on and empty otherwise |
| VulkanInstance.MakeApiVersion | src/Vulkan/Instance.cpp:17 | a packed version decodes back to its major, minor and patch numbers |
| VulkanInstance.ApiVersionOrder | src/Vulkan/Instance.cpp:76 | packed API versions compare as their (major, minor, patch) triples do |
| VulkanInstance.Check | src/Vulkan/Instance.cpp:47 | passes iff the result is `VK_SUCCESS`; the failure names the operation and the result |
| VulkanInstance.CheckVulkanMinimumVersion | src/Vulkan/Instance.cpp:72-83 | passes iff the version query succeeds and reports at least the minimum; a failed query fails through `Check` for "query instance version"; a low version fails naming both versions |
| VulkanInstance.CheckVulkanValidationLayerSupport | src/Vulkan/Instance.cpp:85-98 | passes iff every requested layer is available; otherwise the error names the first missing layer |
| VulkanInstance.InstanceExtensions | src/Vulkan/Instance.cpp:22-28 | the window's extensions in order, with `VK_EXT_debug_utils` appended exactly when the layer list is non-empty |
| VulkanInstance.CheckVulkanInstanceExtensionsSupport | src/Vulkan/Instance.cpp:100-122 | passes iff debug-utils and every GLFW extension are available, whatever the validation setting; otherwise the error names the first missing GLFW extension, or debug-utils when every GLFW extension is available |
| VulkanInstance.GetVulkanDevices | src/Vulkan/Instance.cpp:61-66 | fails iff no physical device is enumerated, and otherwise keeps the list |
| VulkanInstance.CreateInstance | src/Vulkan/Instance.cpp:12-52 | version, then layers, then creation, then devices, then extensions; each error holds iff its check is the first to fail, and the version step fails iff the query fails or reports less than the minimum. A layer or extension failure carries the error of its check, which names the first missing layer or extension. On success the enabled extensions are the window's plus debug-utils iff layers are requested, the enabled layers are the requested ones, and the device and extension lists are kept |
| VulkanInstance.DebugUtilsRequiredWithoutValidation | src/Vulkan/Instance.cpp:100-111 | with no layers, the instance is created without debug-utils, yet construction still fails naming debug-utils when it is unavailable |
| Application.ValidationLayersFor | src/Vulkan/Application.cpp:28-30 | the Khronos validation layer when validation is on, no layers otherwise |
| Application.NewApplication | src/Vulkan/Application.cpp:25-36 | fails iff instance creation with those layers fails; a new application has no device and no frame objects, frame slot 0, no pending resize and wireframe off |
| Application.CreateSwapChain | src/Vulkan/Application.cpp:86-111 | from an empty frame set it creates one image-available semaphore, one render-finished semaphore, one fence and one framebuffer per image, and as many command buffers as framebuffers; the swapchain uses the fixed present mode and the pipeline the requested wireframe setting |
| Application.DeleteSwapChain | src/Vulkan/Application.cpp:113-121 | every frame-dependent object and the swapchain are dropped; device, frame slot, resize flag and wireframe setting are kept |
| Application.RecreateSwapChain | src/Vulkan/Application.cpp:222-226 | the frame set is rebuilt complete for the new image count, while the frame slot and the resize flag are left as they were |
| Application.RecreateForgetsOldFrameSet | src/Vulkan/Application.cpp:222-226 | a rebuild's result does not depend on the frame set it replaces |
| Application.SetPhysicalDevice | src/Vulkan/Application.cpp:57-68 | fails iff a device is already set; otherwise a device and a swapchain exist afterwards, with a complete frame set when none existed, a pipeline with the requested wireframe setting, and the frame slot, resize flag, wireframe setting and present mode unchanged |
| Application.SetPhysicalDeviceIsOneShot | src/Vulkan/Application.cpp:57-59 | a second `SetPhysicalDevice` always fails |
| Application.Run | src/Vulkan/Application.cpp:70-74 | fails iff no device is set; otherwise only the frame slot changes, to 0 |
| Application.OnFramebufferSize | src/Vulkan/Application.cpp:219-221 | sets the resize flag and changes nothing else |
| Application.StartupReachesValidState | src/Vulkan/Application.cpp:57-74 | construction, then a device with at least one image, then `Run`, reaches a state the frame loop can start from |
| Application.DrawFrame | src/Vulkan/Application.cpp:123-191 | an out-of-date acquire or a wireframe mismatch rebuilds right after acquiring and keeps the resize flag. Any other acquire result than success or suboptimal fails and changes nothing. After a submit, an out-of-date or suboptimal present, or a pending resize, rebuilds and clears the flag. A failed submit, and a present failing without a pending resize, are errors each iff its condition. The frame advances the slot modulo the fence count iff no rebuild is due at acquire, the acquire succeeds or is suboptimal, submit and present succeed, and no resize is pending. A rebuild keeps the frame slot, the device, the present mode and the wireframe setting |
| Application.PresentFrame | src/Vulkan/Application.cpp:179-190 | the present step: rebuild iff out-of-date, suboptimal or resize pending, keeping the slot, device, present mode and wireframe setting; failure iff no resize is pending and the result is none of those nor success, and it changes nothing; advance iff success with no resize pending |
| Application.DrawFrameStepOrder | src/Vulkan/Application.cpp:126-167 | the slot's fence is reset iff an image was acquired for rendering, and the submit that signals it follows immediately; recording uses the acquired image; a rebuild is the last step |
| Application.ValidStateCanDraw | src/Vulkan/Application.cpp:126-128 | in a valid state the slot indexes the semaphores and fences, and any acquired image index fits the command buffers and framebuffers |
| Application.DrawFrameKeepsFrameSlotInRange | src/Vulkan/Application.cpp:181-190 | a frame that does not rebuild keeps the state valid; after a rebuild the state is valid iff the old slot is below the new image count |
| Application.ShrinkingRebuildStrandsFrameSlot | src/Vulkan/Application.cpp:222-226 | a 3-image swapchain at slot 2 rebuilt with 2 images leaves slot 2, which no longer indexes a fence |
| Application.RebuildBelowSlotStrandsIt | src/Vulkan/Application.cpp:135-138 | a rebuild at acquire to no more images than the slot number keeps the slot, and the next frame cannot start |
| Application.PendingResizeSwallowsPresentFailure | src/Vulkan/Application.cpp:181-188 | with a resize pending, every present result, fatal ones included, ends in a rebuild that clears the flag |
| Application.ResizeIsConsumedAtPresent | src/Vulkan/Application.cpp:181-185 | a resize notice followed by a fully successful frame rebuilds instead of advancing, clears the flag and keeps the slot |
| Application.ResizeSurvivesRebuildAtAcquire | src/Vulkan/Application.cpp:135-138 | a rebuild at acquire leaves a pending resize pending |
| Application.WireFrameChangeRebuildsPipeline | src/Vulkan/Application.cpp:135-138 | a wireframe mismatch rebuilds without rendering, and the new pipeline has the requested setting |
| Strings.DeviceTypeName | src/Vulkan/Strings.hpp:9-24 | the default label "UnknownDeviceType" is produced exactly for values outside the five listed types |
| Strings.DeviceTypeNameRoundTrip | src/Vulkan/Strings.hpp:11-20 | each listed device type's label reads back as that type, so the labels are distinct; the default label reads as nothing |
| Strings.VendorName | src/Vulkan/Strings.hpp:26-43 | "UnknownVendor" is produced exactly for IDs other than the six known vendors |
| Strings.VendorNameRoundTrip | src/Vulkan/Strings.hpp:28-39 | each known vendor's label reads back as its ID; "UnknownVendor" reads as nothing |
| Strings.VendorNamesDistinct | src/Vulkan/Strings.hpp:28-39 | no two known vendor IDs share a label |
| Strings.ObjectTypeName | src/Vulkan/Strings.hpp:45-90 | "unknown" is produced exactly for object types outside the table |
| Strings.ObjectTypeNameRoundTrip | src/Vulkan/Strings.hpp:47-88 | each listed object type's suffix reads back as that type, so the suffixes are distinct; "unknown" reads as nothing |
| Strings.PresentModeName | src/Vulkan/Strings.hpp:92-104 | "unknown" is produced exactly for present modes outside the six listed ones |
| Strings.PresentModeNameRoundTrip | src/Vulkan/Strings.hpp:94-102 | each listed present mode's suffix reads back as that mode; "unknown" reads as nothing |
| Strings.WriteDeviceType | src/Vulkan/Strings.hpp:106-107 | `out << deviceType` keeps what was written and appends a non-empty label, which for a listed device type reads back as that type and is "UnknownDeviceType" for any other |
| Strings.WriteObjectType | src/Vulkan/Strings.hpp:106-108 | `out << objectType` keeps what was written and appends the suffix that reads back as the object type, or "unknown" |
| Strings.WritePresentMode | src/Vulkan/Strings.hpp:106-109 | `out << presentMode` keeps what was written and appends the suffix that reads back as the present mode, or "unknown" |

## Left out

- All Vulkan and GLFW calls are inputs, not modelled calls: enumeration, property queries, object creation and destruction, acquire, submit, present and event polling. The destructors are left out with them.
- CPU/GPU synchronisation is left out: fence waits, semaphore signalling, `WaitIdle`, and the loop that waits while the window is minimised (src/Vulkan/Application.cpp:88-92). The frame loop keeps only collection sizes, indices, the order of steps and outcomes.
- `Render` (src/Vulkan/Application.cpp:193-216) records commands with float clear colours, and queue priorities are floats. Both are foreign calls or floating point.
- The swapchain's format, present-mode and extent choosers are declared in src/vulkanObjects/SwapChain.hpp but their bodies are not part of this model. The swapchain's image count is therefore an input of `SetPhysicalDevice` and of each rebuild.
- The `Window`, `Vulkan::Device`, `CommandPool`, `Surface`, `DebugUtilsMessenger`, `SwapChain`, `GraphicsPipeline`, framebuffer, semaphore, fence and `CommandBuffers` constructors used by `Application` are not part of this model and are taken to succeed. `Application.CreateSwapChain`, `Application.RecreateSwapChain` and `Application.NewApplication` beyond instance creation therefore cannot fail.
- `Run`'s window loop (src/Vulkan/Application.cpp:76-84) is not modelled: it installs the callbacks, calls `DrawFrame` on each event-loop turn until the window closes, and then waits for the device to go idle. `Application.Run` models only the device check and the slot reset; single frames are modelled by `Application.DrawFrame`.
- Progress and debug printing (the unconditional messages of src/vulkanObjects/Instance.cpp and the debug-build output under `#ifndef NDEBUG`) and the validation-layer message callback are left out: they only print.
- `populateDebugMessengerCreateInfo` only fills a Vulkan struct with flags and is left out.
- The accessors `getVkPhysicalDevice`, `getQueueFamilyIndices`, `Extensions`, `PhysicalDevices` and `HasSwapChain` are the fields of the result datatypes (`Selected`, `VulkanInstance.Instance`, `AppState`), so they return the stored values by construction.
- The hooks `OnDeviceSet`, `OnKey`, `OnCursorPosition`, `OnMouseButton` and `OnScroll` do nothing by default. `SetPhysicalDevice` and `Run` therefore have no hook effect. Installing the window callbacks in `Run` is left out.
- Header drift: src/vulkanObjects/Devices.hpp and src/vulkanObjects/Instance.hpp declare members that the .cpp files do not define. The model follows the .cpp files and the two-field `QueueFamilyIndices` of src/vulkanObjects/PhysicalDevice.hpp.
- `isPhysicalDeviceSuitable` queries the surface for formats and present modes only after the extension check passes. That query has no effect other than its answer, so the model states only the resulting verdict.
- PhysicalDevices.Score: the exact formula is stated only when `maxImageDimension2D` is below 2^31 − 1000, whatever the device type. Above that, the contract says only that the result is an int32; the body performs the modulo-2^32 wrap.
- Application.CreateSwapChain: the counts are stated only when starting from an empty frame set, the only way the code reaches it. From a non-empty set the body appends, as `emplace_back` does.
- Strings.ObjectTypeNameRoundTrip: the object-type reader is shown only to invert the table on listed types. Unlike the device-type, vendor and present-mode readers, it carries no proof that every label it accepts is the one the table prints for the result. That direction is left out because comparing 39 string literals makes it expensive to prove.
- The enumeration values of `VkPhysicalDeviceType`, `VkPresentModeKHR` and `VkObjectType` are datatype constructors, plus one catch-all per enumeration. Their numeric codes play no role in the modelled code.

## Findings

| source | as written | input that shows it | evidently intended | confidence | as-written member | corrected member |
|---|---|---|---|---|---|---|
| src/vulkanObjects/Devices.cpp:37 | `candidates.rbegin()` is dereferenced without checking that the multimap holds any entry; the device-count check only rules out zero enumerated devices | one enumerated device whose only queue family supports presentation but has no graphics bit: it is unsuitable, the multimap stays empty, and `rbegin()` is dereferenced (undefined behaviour) | report that no suitable device exists, as `PhysicalDevice` does at src/vulkanObjects/PhysicalDevice.cpp:43-63 | high; not executed | Devices.SelectAsWritten, Devices.UnsuitableOnlyReachesEmptyRBegin | Devices.Select |
