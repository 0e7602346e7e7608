/** The Vulkan enumerations and names the modelled code inspects. Only the
    values the code distinguishes are spelled out; every enumeration has a
    catch-all constructor for the values a `switch` would send to its
    `default` branch. */
module VulkanTypes {

  /** `VkResult`, restricted to the codes the frame loop and the bootstrap
      code tell apart; `OtherResult` stands for every other code. Positive
      codes (`NotReady`, `Timeout`, `SuboptimalKhr`) are not errors in the
      sense of the Vulkan specification but are not `Success` either. */
  datatype VkResult =
    | Success
    | NotReady
    | Timeout
    | SuboptimalKhr
    | ErrorOutOfHostMemory
    | ErrorOutOfDeviceMemory
    | ErrorInitializationFailed
    | ErrorDeviceLost
    | ErrorExtensionNotPresent
    | ErrorSurfaceLostKhr
    | ErrorOutOfDateKhr
    | OtherResult

  /** `VkPhysicalDeviceType`. */
  datatype PhysicalDeviceType =
    | OtherDevice
    | IntegratedGpu
    | DiscreteGpu
    | VirtualGpu
    | CpuDevice
    | UnlistedDeviceType

  /** `VkPresentModeKHR`. */
  datatype PresentMode =
    | Immediate
    | Mailbox
    | Fifo
    | FifoRelaxed
    | SharedDemandRefresh
    | SharedContinuousRefresh
    | UnlistedPresentMode

  /** `VkObjectType`: the enumerators `toString` names, and `UnlistedObjectType`
      for every other value. */
  datatype ObjectType =
    | UnknownObject
    | InstanceObject
    | PhysicalDeviceObject
    | DeviceObject
    | QueueObject
    | SemaphoreObject
    | CommandBufferObject
    | FenceObject
    | DeviceMemoryObject
    | BufferObject
    | ImageObject
    | EventObject
    | QueryPoolObject
    | BufferViewObject
    | ImageViewObject
    | ShaderModuleObject
    | PipelineCacheObject
    | PipelineLayoutObject
    | RenderPassObject
    | PipelineObject
    | DescriptorSetLayoutObject
    | SamplerObject
    | DescriptorPoolObject
    | DescriptorSetObject
    | FramebufferObject
    | CommandPoolObject
    | SamplerYcbcrConversionObject
    | DescriptorUpdateTemplateObject
    | SurfaceKhrObject
    | SwapchainKhrObject
    | DisplayKhrObject
    | DisplayModeKhrObject
    | DebugReportCallbackExtObject
    | DebugUtilsMessengerExtObject
    | AccelerationStructureKhrObject
    | ValidationCacheExtObject
    | PerformanceConfigurationIntelObject
    | DeferredOperationKhrObject
    | IndirectCommandsLayoutNvObject
    | UnlistedObjectType

  /** `VK_KHR_SWAPCHAIN_EXTENSION_NAME`. */
  const SwapchainExtensionName: string := "VK_KHR_swapchain"

  /** `VK_EXT_DEBUG_UTILS_EXTENSION_NAME`. */
  const DebugUtilsExtensionName: string := "VK_EXT_debug_utils"

  /** The Khronos validation layer both bootstrap variants request. */
  const KhronosValidationLayer: string := "VK_LAYER_KHRONOS_validation"
}
