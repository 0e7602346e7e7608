/** The `toString` tables of `Vulkan/Strings.hpp` and the `operator<<`
    overloads built on them. Each table comes with a reader that maps a
    label back to the value it names; the round trips show that the labels
    of the listed values are pairwise distinct and never collide with the
    default label. */
module Strings {
  import opened Common
  import opened VulkanTypes

  // ---------------------------------------------------------------------
  // Physical device types

  /** `toString(VkPhysicalDeviceType)`. */
  function DeviceTypeName(t: PhysicalDeviceType): (r: string)
    ensures r == "UnknownDeviceType" <==> t == UnlistedDeviceType
    ensures |r| > 0
  {
    match t
    case OtherDevice => "Other"
    case IntegratedGpu => "Integrated GPU"
    case DiscreteGpu => "Discrete GPU"
    case VirtualGpu => "Virtual GPU"
    case CpuDevice => "CPU"
    case UnlistedDeviceType => "UnknownDeviceType"
  }

  /** The device type a label names, if any. */
  function DeviceTypeFromName(name: string): (r: Option<PhysicalDeviceType>)
    ensures r.Some? ==> r.value != UnlistedDeviceType && DeviceTypeName(r.value) == name
  {
    if name == "Other" then Some(OtherDevice)
    else if name == "Integrated GPU" then Some(IntegratedGpu)
    else if name == "Discrete GPU" then Some(DiscreteGpu)
    else if name == "Virtual GPU" then Some(VirtualGpu)
    else if name == "CPU" then Some(CpuDevice)
    else None
  }

  /** Reading a listed device type's label gives the device type back; the
      default label reads as nothing. */
  lemma DeviceTypeNameRoundTrip(t: PhysicalDeviceType)
    ensures t != UnlistedDeviceType ==> DeviceTypeFromName(DeviceTypeName(t)) == Some(t)
    ensures DeviceTypeFromName("UnknownDeviceType").None?
  {
  }

  // ---------------------------------------------------------------------
  // Vendors

  /** The PCI vendor IDs the vendor table names. */
  const KnownVendorIds: set<Uint32> := {0x1002, 0x1010, 0x10DE, 0x13B5, 0x5143, 0x8086}

  /** `toString(uint32_t vendorId)`. */
  function VendorName(vendorId: Uint32): (r: string)
    ensures r == "UnknownVendor" <==> vendorId !in KnownVendorIds
  {
    match vendorId
    case 0x1002 => "AMD"
    case 0x1010 => "ImgTec"
    case 0x10DE => "NVIDIA"
    case 0x13B5 => "ARM"
    case 0x5143 => "Qualcomm"
    case 0x8086 => "INTEL"
    case _ => "UnknownVendor"
  }

  /** The vendor ID a vendor label names, if any. */
  function VendorIdFromName(name: string): (r: Option<Uint32>)
    ensures r.Some? ==> r.value in KnownVendorIds && VendorName(r.value) == name
  {
    if name == "AMD" then Some(0x1002)
    else if name == "ImgTec" then Some(0x1010)
    else if name == "NVIDIA" then Some(0x10DE)
    else if name == "ARM" then Some(0x13B5)
    else if name == "Qualcomm" then Some(0x5143)
    else if name == "INTEL" then Some(0x8086)
    else None
  }

  /** Reading a known vendor's label gives its ID back; the default label
      reads as nothing. */
  lemma VendorNameRoundTrip(vendorId: Uint32)
    ensures vendorId in KnownVendorIds ==> VendorIdFromName(VendorName(vendorId)) == Some(vendorId)
    ensures VendorIdFromName("UnknownVendor").None?
  {
  }

  /** Two known vendors never share a label. */
  lemma VendorNamesDistinct(a: Uint32, b: Uint32)
    requires a in KnownVendorIds && b in KnownVendorIds
    requires VendorName(a) == VendorName(b)
    ensures a == b
  {
    VendorNameRoundTrip(a);
    VendorNameRoundTrip(b);
  }

  // ---------------------------------------------------------------------
  // Object types

  /** `toString(VkObjectType)`: the enumerator's name without the
      `VK_OBJECT_TYPE_` prefix. */
  function ObjectTypeName(t: ObjectType): (r: string)
    ensures r == "unknown" <==> t == UnlistedObjectType
  {
    match t
    case UnknownObject => "UNKNOWN"
    case InstanceObject => "INSTANCE"
    case PhysicalDeviceObject => "PHYSICAL_DEVICE"
    case DeviceObject => "DEVICE"
    case QueueObject => "QUEUE"
    case SemaphoreObject => "SEMAPHORE"
    case CommandBufferObject => "COMMAND_BUFFER"
    case FenceObject => "FENCE"
    case DeviceMemoryObject => "DEVICE_MEMORY"
    case BufferObject => "BUFFER"
    case ImageObject => "IMAGE"
    case EventObject => "EVENT"
    case QueryPoolObject => "QUERY_POOL"
    case BufferViewObject => "BUFFER_VIEW"
    case ImageViewObject => "IMAGE_VIEW"
    case ShaderModuleObject => "SHADER_MODULE"
    case PipelineCacheObject => "PIPELINE_CACHE"
    case PipelineLayoutObject => "PIPELINE_LAYOUT"
    case RenderPassObject => "RENDER_PASS"
    case PipelineObject => "PIPELINE"
    case DescriptorSetLayoutObject => "DESCRIPTOR_SET_LAYOUT"
    case SamplerObject => "SAMPLER"
    case DescriptorPoolObject => "DESCRIPTOR_POOL"
    case DescriptorSetObject => "DESCRIPTOR_SET"
    case FramebufferObject => "FRAMEBUFFER"
    case CommandPoolObject => "COMMAND_POOL"
    case SamplerYcbcrConversionObject => "SAMPLER_YCBCR_CONVERSION"
    case DescriptorUpdateTemplateObject => "DESCRIPTOR_UPDATE_TEMPLATE"
    case SurfaceKhrObject => "SURFACE_KHR"
    case SwapchainKhrObject => "SWAPCHAIN_KHR"
    case DisplayKhrObject => "DISPLAY_KHR"
    case DisplayModeKhrObject => "DISPLAY_MODE_KHR"
    case DebugReportCallbackExtObject => "DEBUG_REPORT_CALLBACK_EXT"
    case DebugUtilsMessengerExtObject => "DEBUG_UTILS_MESSENGER_EXT"
    case AccelerationStructureKhrObject => "ACCELERATION_STRUCTURE_KHR"
    case ValidationCacheExtObject => "VALIDATION_CACHE_EXT"
    case PerformanceConfigurationIntelObject => "PERFORMANCE_CONFIGURATION_INTEL"
    case DeferredOperationKhrObject => "DEFERRED_OPERATION_KHR"
    case IndirectCommandsLayoutNvObject => "INDIRECT_COMMANDS_LAYOUT_NV"
    case UnlistedObjectType => "unknown"
  }

  /** The listed object type whose suffix is `name`, if any: the core
      object types first, then those that extensions introduce, in the
      order of the table. */
  function ObjectTypeFromName(name: string): (r: Option<ObjectType>)
    ensures r.Some? ==> r.value != UnlistedObjectType
  {
    match name
    case "UNKNOWN" => Some(UnknownObject)
    case "INSTANCE" => Some(InstanceObject)
    case "PHYSICAL_DEVICE" => Some(PhysicalDeviceObject)
    case "DEVICE" => Some(DeviceObject)
    case "QUEUE" => Some(QueueObject)
    case "SEMAPHORE" => Some(SemaphoreObject)
    case "COMMAND_BUFFER" => Some(CommandBufferObject)
    case "FENCE" => Some(FenceObject)
    case "DEVICE_MEMORY" => Some(DeviceMemoryObject)
    case "BUFFER" => Some(BufferObject)
    case "IMAGE" => Some(ImageObject)
    case "EVENT" => Some(EventObject)
    case "QUERY_POOL" => Some(QueryPoolObject)
    case "BUFFER_VIEW" => Some(BufferViewObject)
    case "IMAGE_VIEW" => Some(ImageViewObject)
    case "SHADER_MODULE" => Some(ShaderModuleObject)
    case "PIPELINE_CACHE" => Some(PipelineCacheObject)
    case "PIPELINE_LAYOUT" => Some(PipelineLayoutObject)
    case "RENDER_PASS" => Some(RenderPassObject)
    case "PIPELINE" => Some(PipelineObject)
    case "DESCRIPTOR_SET_LAYOUT" => Some(DescriptorSetLayoutObject)
    case "SAMPLER" => Some(SamplerObject)
    case "DESCRIPTOR_POOL" => Some(DescriptorPoolObject)
    case "DESCRIPTOR_SET" => Some(DescriptorSetObject)
    case "FRAMEBUFFER" => Some(FramebufferObject)
    case "COMMAND_POOL" => Some(CommandPoolObject)
    case "SAMPLER_YCBCR_CONVERSION" => Some(SamplerYcbcrConversionObject)
    case "DESCRIPTOR_UPDATE_TEMPLATE" => Some(DescriptorUpdateTemplateObject)
    case _ => ExtensionObjectTypeFromName(name)
  }

  /** The object type, among those introduced by extensions, whose suffix is
      `name`, if any. */
  function ExtensionObjectTypeFromName(name: string): (r: Option<ObjectType>)
    ensures r.Some? ==> r.value != UnlistedObjectType
  {
    match name
    case "SURFACE_KHR" => Some(SurfaceKhrObject)
    case "SWAPCHAIN_KHR" => Some(SwapchainKhrObject)
    case "DISPLAY_KHR" => Some(DisplayKhrObject)
    case "DISPLAY_MODE_KHR" => Some(DisplayModeKhrObject)
    case "DEBUG_REPORT_CALLBACK_EXT" => Some(DebugReportCallbackExtObject)
    case "DEBUG_UTILS_MESSENGER_EXT" => Some(DebugUtilsMessengerExtObject)
    case "ACCELERATION_STRUCTURE_KHR" => Some(AccelerationStructureKhrObject)
    case "VALIDATION_CACHE_EXT" => Some(ValidationCacheExtObject)
    case "PERFORMANCE_CONFIGURATION_INTEL" => Some(PerformanceConfigurationIntelObject)
    case "DEFERRED_OPERATION_KHR" => Some(DeferredOperationKhrObject)
    case "INDIRECT_COMMANDS_LAYOUT_NV" => Some(IndirectCommandsLayoutNvObject)
    case _ => None
  }

  /** Reading a listed object type's suffix gives the object type back, so
      no two listed object types share a suffix; the default label reads as
      nothing. The table is checked a few entries at a time. */
  lemma ObjectTypeNameRoundTrip(t: ObjectType)
    ensures t != UnlistedObjectType ==> ObjectTypeFromName(ObjectTypeName(t)) == Some(t)
    ensures ObjectTypeFromName("unknown").None?
  {
    match t
    case UnknownObject => ObjectTypeNameRoundTrip1(t);
    case InstanceObject => ObjectTypeNameRoundTrip1(t);
    case PhysicalDeviceObject => ObjectTypeNameRoundTrip1(t);
    case DeviceObject => ObjectTypeNameRoundTrip1(t);
    case QueueObject => ObjectTypeNameRoundTrip2(t);
    case SemaphoreObject => ObjectTypeNameRoundTrip2(t);
    case CommandBufferObject => ObjectTypeNameRoundTrip2(t);
    case FenceObject => ObjectTypeNameRoundTrip2(t);
    case DeviceMemoryObject => ObjectTypeNameRoundTrip3(t);
    case BufferObject => ObjectTypeNameRoundTrip3(t);
    case ImageObject => ObjectTypeNameRoundTrip3(t);
    case EventObject => ObjectTypeNameRoundTrip3(t);
    case QueryPoolObject => ObjectTypeNameRoundTrip4(t);
    case BufferViewObject => ObjectTypeNameRoundTrip4(t);
    case ImageViewObject => ObjectTypeNameRoundTrip4(t);
    case ShaderModuleObject => ObjectTypeNameRoundTrip4(t);
    case PipelineCacheObject => ObjectTypeNameRoundTrip5(t);
    case PipelineLayoutObject => ObjectTypeNameRoundTrip5(t);
    case RenderPassObject => ObjectTypeNameRoundTrip5(t);
    case PipelineObject => ObjectTypeNameRoundTrip5(t);
    case DescriptorSetLayoutObject => ObjectTypeNameRoundTrip6(t);
    case SamplerObject => ObjectTypeNameRoundTrip6(t);
    case DescriptorPoolObject => ObjectTypeNameRoundTrip6(t);
    case DescriptorSetObject => ObjectTypeNameRoundTrip6(t);
    case FramebufferObject => ObjectTypeNameRoundTrip7(t);
    case CommandPoolObject => ObjectTypeNameRoundTrip7(t);
    case SamplerYcbcrConversionObject => ObjectTypeNameRoundTrip7(t);
    case DescriptorUpdateTemplateObject => ObjectTypeNameRoundTrip7(t);
    case SurfaceKhrObject => ObjectTypeNameRoundTrip8(t);
    case SwapchainKhrObject => ObjectTypeNameRoundTrip8(t);
    case DisplayKhrObject => ObjectTypeNameRoundTrip9(t);
    case DisplayModeKhrObject => ObjectTypeNameRoundTrip9(t);
    case DebugReportCallbackExtObject => ObjectTypeNameRoundTrip10(t);
    case DebugUtilsMessengerExtObject => ObjectTypeNameRoundTrip10(t);
    case AccelerationStructureKhrObject => ObjectTypeNameRoundTrip11(t);
    case ValidationCacheExtObject => ObjectTypeNameRoundTrip11(t);
    case PerformanceConfigurationIntelObject => ObjectTypeNameRoundTrip12(t);
    case DeferredOperationKhrObject => ObjectTypeNameRoundTrip12(t);
    case IndirectCommandsLayoutNvObject => ObjectTypeNameRoundTrip13(t);
    case UnlistedObjectType =>
  }

  lemma ObjectTypeNameRoundTrip1(t: ObjectType)
    requires t == UnknownObject || t == InstanceObject ||
      t == PhysicalDeviceObject || t == DeviceObject
    ensures ObjectTypeFromName(ObjectTypeName(t)) == Some(t)
  {
    match t
    case UnknownObject => assert ObjectTypeFromName("UNKNOWN") == Some(UnknownObject);
    case InstanceObject => assert ObjectTypeFromName("INSTANCE") == Some(InstanceObject);
    case PhysicalDeviceObject => assert ObjectTypeFromName("PHYSICAL_DEVICE") == Some(PhysicalDeviceObject);
    case DeviceObject => assert ObjectTypeFromName("DEVICE") == Some(DeviceObject);
  }

  lemma ObjectTypeNameRoundTrip2(t: ObjectType)
    requires t == QueueObject || t == SemaphoreObject ||
      t == CommandBufferObject || t == FenceObject
    ensures ObjectTypeFromName(ObjectTypeName(t)) == Some(t)
  {
    match t
    case QueueObject => assert ObjectTypeFromName("QUEUE") == Some(QueueObject);
    case SemaphoreObject => assert ObjectTypeFromName("SEMAPHORE") == Some(SemaphoreObject);
    case CommandBufferObject => assert ObjectTypeFromName("COMMAND_BUFFER") == Some(CommandBufferObject);
    case FenceObject => assert ObjectTypeFromName("FENCE") == Some(FenceObject);
  }

  lemma ObjectTypeNameRoundTrip3(t: ObjectType)
    requires t == DeviceMemoryObject || t == BufferObject ||
      t == ImageObject || t == EventObject
    ensures ObjectTypeFromName(ObjectTypeName(t)) == Some(t)
  {
    match t
    case DeviceMemoryObject => assert ObjectTypeFromName("DEVICE_MEMORY") == Some(DeviceMemoryObject);
    case BufferObject => assert ObjectTypeFromName("BUFFER") == Some(BufferObject);
    case ImageObject => assert ObjectTypeFromName("IMAGE") == Some(ImageObject);
    case EventObject => assert ObjectTypeFromName("EVENT") == Some(EventObject);
  }

  lemma ObjectTypeNameRoundTrip4(t: ObjectType)
    requires t == QueryPoolObject || t == BufferViewObject ||
      t == ImageViewObject || t == ShaderModuleObject
    ensures ObjectTypeFromName(ObjectTypeName(t)) == Some(t)
  {
    match t
    case QueryPoolObject => assert ObjectTypeFromName("QUERY_POOL") == Some(QueryPoolObject);
    case BufferViewObject => assert ObjectTypeFromName("BUFFER_VIEW") == Some(BufferViewObject);
    case ImageViewObject => assert ObjectTypeFromName("IMAGE_VIEW") == Some(ImageViewObject);
    case ShaderModuleObject => assert ObjectTypeFromName("SHADER_MODULE") == Some(ShaderModuleObject);
  }

  lemma ObjectTypeNameRoundTrip5(t: ObjectType)
    requires t == PipelineCacheObject || t == PipelineLayoutObject ||
      t == RenderPassObject || t == PipelineObject
    ensures ObjectTypeFromName(ObjectTypeName(t)) == Some(t)
  {
    match t
    case PipelineCacheObject => assert ObjectTypeFromName("PIPELINE_CACHE") == Some(PipelineCacheObject);
    case PipelineLayoutObject => assert ObjectTypeFromName("PIPELINE_LAYOUT") == Some(PipelineLayoutObject);
    case RenderPassObject => assert ObjectTypeFromName("RENDER_PASS") == Some(RenderPassObject);
    case PipelineObject => assert ObjectTypeFromName("PIPELINE") == Some(PipelineObject);
  }

  lemma ObjectTypeNameRoundTrip6(t: ObjectType)
    requires t == DescriptorSetLayoutObject || t == SamplerObject ||
      t == DescriptorPoolObject || t == DescriptorSetObject
    ensures ObjectTypeFromName(ObjectTypeName(t)) == Some(t)
  {
    match t
    case DescriptorSetLayoutObject => assert ObjectTypeFromName("DESCRIPTOR_SET_LAYOUT") == Some(DescriptorSetLayoutObject);
    case SamplerObject => assert ObjectTypeFromName("SAMPLER") == Some(SamplerObject);
    case DescriptorPoolObject => assert ObjectTypeFromName("DESCRIPTOR_POOL") == Some(DescriptorPoolObject);
    case DescriptorSetObject => assert ObjectTypeFromName("DESCRIPTOR_SET") == Some(DescriptorSetObject);
  }

  lemma ObjectTypeNameRoundTrip7(t: ObjectType)
    requires t == FramebufferObject || t == CommandPoolObject ||
      t == SamplerYcbcrConversionObject || t == DescriptorUpdateTemplateObject
    ensures ObjectTypeFromName(ObjectTypeName(t)) == Some(t)
  {
    match t
    case FramebufferObject => assert ObjectTypeFromName("FRAMEBUFFER") == Some(FramebufferObject);
    case CommandPoolObject => assert ObjectTypeFromName("COMMAND_POOL") == Some(CommandPoolObject);
    case SamplerYcbcrConversionObject => assert ObjectTypeFromName("SAMPLER_YCBCR_CONVERSION") == Some(SamplerYcbcrConversionObject);
    case DescriptorUpdateTemplateObject => assert ObjectTypeFromName("DESCRIPTOR_UPDATE_TEMPLATE") == Some(DescriptorUpdateTemplateObject);
  }

  lemma ObjectTypeNameRoundTrip8(t: ObjectType)
    requires t == SurfaceKhrObject || t == SwapchainKhrObject
    ensures ObjectTypeFromName(ObjectTypeName(t)) == Some(t)
  {
    match t
    case SurfaceKhrObject =>
      assert ExtensionObjectTypeFromName("SURFACE_KHR") == Some(SurfaceKhrObject);
      assert ObjectTypeFromName("SURFACE_KHR") == Some(SurfaceKhrObject);
    case SwapchainKhrObject =>
      assert ExtensionObjectTypeFromName("SWAPCHAIN_KHR") == Some(SwapchainKhrObject);
      assert ObjectTypeFromName("SWAPCHAIN_KHR") == Some(SwapchainKhrObject);
  }

  lemma ObjectTypeNameRoundTrip9(t: ObjectType)
    requires t == DisplayKhrObject || t == DisplayModeKhrObject
    ensures ObjectTypeFromName(ObjectTypeName(t)) == Some(t)
  {
    match t
    case DisplayKhrObject =>
      assert ExtensionObjectTypeFromName("DISPLAY_KHR") == Some(DisplayKhrObject);
      assert ObjectTypeFromName("DISPLAY_KHR") == Some(DisplayKhrObject);
    case DisplayModeKhrObject =>
      assert ExtensionObjectTypeFromName("DISPLAY_MODE_KHR") == Some(DisplayModeKhrObject);
      assert ObjectTypeFromName("DISPLAY_MODE_KHR") == Some(DisplayModeKhrObject);
  }

  lemma ObjectTypeNameRoundTrip10(t: ObjectType)
    requires t == DebugReportCallbackExtObject || t == DebugUtilsMessengerExtObject
    ensures ObjectTypeFromName(ObjectTypeName(t)) == Some(t)
  {
    match t
    case DebugReportCallbackExtObject =>
      assert ExtensionObjectTypeFromName("DEBUG_REPORT_CALLBACK_EXT") == Some(DebugReportCallbackExtObject);
      assert ObjectTypeFromName("DEBUG_REPORT_CALLBACK_EXT") == Some(DebugReportCallbackExtObject);
    case DebugUtilsMessengerExtObject =>
      assert ExtensionObjectTypeFromName("DEBUG_UTILS_MESSENGER_EXT") == Some(DebugUtilsMessengerExtObject);
      assert ObjectTypeFromName("DEBUG_UTILS_MESSENGER_EXT") == Some(DebugUtilsMessengerExtObject);
  }

  lemma ObjectTypeNameRoundTrip11(t: ObjectType)
    requires t == AccelerationStructureKhrObject || t == ValidationCacheExtObject
    ensures ObjectTypeFromName(ObjectTypeName(t)) == Some(t)
  {
    match t
    case AccelerationStructureKhrObject =>
      assert ExtensionObjectTypeFromName("ACCELERATION_STRUCTURE_KHR") == Some(AccelerationStructureKhrObject);
      assert ObjectTypeFromName("ACCELERATION_STRUCTURE_KHR") == Some(AccelerationStructureKhrObject);
    case ValidationCacheExtObject =>
      assert ExtensionObjectTypeFromName("VALIDATION_CACHE_EXT") == Some(ValidationCacheExtObject);
      assert ObjectTypeFromName("VALIDATION_CACHE_EXT") == Some(ValidationCacheExtObject);
  }

  lemma ObjectTypeNameRoundTrip12(t: ObjectType)
    requires t == PerformanceConfigurationIntelObject || t == DeferredOperationKhrObject
    ensures ObjectTypeFromName(ObjectTypeName(t)) == Some(t)
  {
    match t
    case PerformanceConfigurationIntelObject =>
      assert ExtensionObjectTypeFromName("PERFORMANCE_CONFIGURATION_INTEL") == Some(PerformanceConfigurationIntelObject);
      assert ObjectTypeFromName("PERFORMANCE_CONFIGURATION_INTEL") == Some(PerformanceConfigurationIntelObject);
    case DeferredOperationKhrObject =>
      assert ExtensionObjectTypeFromName("DEFERRED_OPERATION_KHR") == Some(DeferredOperationKhrObject);
      assert ObjectTypeFromName("DEFERRED_OPERATION_KHR") == Some(DeferredOperationKhrObject);
  }

  lemma ObjectTypeNameRoundTrip13(t: ObjectType)
    requires t == IndirectCommandsLayoutNvObject
    ensures ObjectTypeFromName(ObjectTypeName(t)) == Some(t)
  {
    match t
    case IndirectCommandsLayoutNvObject =>
      assert ExtensionObjectTypeFromName("INDIRECT_COMMANDS_LAYOUT_NV") == Some(IndirectCommandsLayoutNvObject);
      assert ObjectTypeFromName("INDIRECT_COMMANDS_LAYOUT_NV") == Some(IndirectCommandsLayoutNvObject);
  }

  // ---------------------------------------------------------------------
  // Present modes

  /** `toString(VkPresentModeKHR)`: the enumerator's name without the
      `VK_PRESENT_MODE_` prefix. */
  function PresentModeName(m: PresentMode): (r: string)
    ensures r == "unknown" <==> m == UnlistedPresentMode
  {
    match m
    case Immediate => "IMMEDIATE_KHR"
    case Mailbox => "MAILBOX_KHR"
    case Fifo => "FIFO_KHR"
    case FifoRelaxed => "FIFO_RELAXED_KHR"
    case SharedDemandRefresh => "SHARED_DEMAND_REFRESH_KHR"
    case SharedContinuousRefresh => "SHARED_CONTINUOUS_REFRESH_KHR"
    case UnlistedPresentMode => "unknown"
  }

  /** The present mode an enumerator suffix names, if any. */
  function PresentModeFromName(name: string): (r: Option<PresentMode>)
    ensures r.Some? ==> r.value != UnlistedPresentMode && PresentModeName(r.value) == name
  {
    if name == "IMMEDIATE_KHR" then Some(Immediate)
    else if name == "MAILBOX_KHR" then Some(Mailbox)
    else if name == "FIFO_KHR" then Some(Fifo)
    else if name == "FIFO_RELAXED_KHR" then Some(FifoRelaxed)
    else if name == "SHARED_DEMAND_REFRESH_KHR" then Some(SharedDemandRefresh)
    else if name == "SHARED_CONTINUOUS_REFRESH_KHR" then Some(SharedContinuousRefresh)
    else None
  }

  /** Reading a listed present mode's suffix gives the mode back; the
      default label reads as nothing. */
  lemma PresentModeNameRoundTrip(m: PresentMode)
    ensures m != UnlistedPresentMode ==> PresentModeFromName(PresentModeName(m)) == Some(m)
    ensures PresentModeFromName("unknown").None?
  {
  }

  // ---------------------------------------------------------------------
  // operator<<

  /** `out << deviceType`: appends the label, leaving what was written
      before untouched. */
  function WriteDeviceType(out: string, t: PhysicalDeviceType): (r: string)
    ensures |r| > |out| && r[..|out|] == out
    ensures t != UnlistedDeviceType ==> DeviceTypeFromName(r[|out|..]) == Some(t)
    ensures t == UnlistedDeviceType ==> r[|out|..] == "UnknownDeviceType"
  {
    DeviceTypeNameRoundTrip(t);
    out + DeviceTypeName(t)
  }

  /** `out << objectType`. */
  function WriteObjectType(out: string, t: ObjectType): (r: string)
    ensures |r| >= |out| && r[..|out|] == out
    ensures t != UnlistedObjectType ==> ObjectTypeFromName(r[|out|..]) == Some(t)
    ensures t == UnlistedObjectType ==> r[|out|..] == "unknown"
  {
    ObjectTypeNameRoundTrip(t);
    out + ObjectTypeName(t)
  }

  /** `out << presentMode`. */
  function WritePresentMode(out: string, m: PresentMode): (r: string)
    ensures |r| >= |out| && r[..|out|] == out
    ensures m != UnlistedPresentMode ==> PresentModeFromName(r[|out|..]) == Some(m)
    ensures m == UnlistedPresentMode ==> r[|out|..] == "unknown"
  {
    PresentModeNameRoundTrip(m);
    out + PresentModeName(m)
  }
}
