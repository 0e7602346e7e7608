/** Instance bootstrap of the `vulkanObjects` variant (`Instance`): the
    validation-layer check, the needed instance extensions and their check,
    instance creation and the optional debug messenger. Validation is a
    build-time switch there (`enableValidationLayers`); here it is a
    parameter. */
module ObjectsInstance {
  import opened Common
  import opened VulkanTypes
  import opened NameLists

  /** `validationLayers`. */
  const ValidationLayers: seq<string> := [KhronosValidationLayer]

  /** `checkInstanceExtensionsSupport`: every needed name is among the
      available instance extensions. */
  function CheckInstanceExtensionsSupport(needed: seq<string>, available: seq<string>): (r: bool)
    ensures r <==> forall i :: 0 <= i < |needed| ==> needed[i] in available
  {
    AllFound(needed, available)
  }

  /** `checkValidationLayerSupport`: every layer of `validationLayers` is
      among the available layers. */
  function CheckValidationLayerSupport(availableLayers: seq<string>): (r: bool)
    ensures r <==> KhronosValidationLayer in availableLayers
  {
    AllFound(ValidationLayers, availableLayers)
  }

  /** `getNeededExtensions`: the extensions GLFW requires, in order, then
      the debug-utils extension when validation is on. */
  function GetNeededExtensions(glfwExtensions: seq<string>, enableValidation: bool): (r: seq<string>)
    ensures |r| == |glfwExtensions| + (if enableValidation then 1 else 0)
    ensures r[..|glfwExtensions|] == glfwExtensions
    ensures enableValidation ==> r[|glfwExtensions|] == DebugUtilsExtensionName
    ensures DebugUtilsExtensionName in r <==> enableValidation || DebugUtilsExtensionName in glfwExtensions
  {
    if enableValidation then glfwExtensions + [DebugUtilsExtensionName] else glfwExtensions
  }

  /** `CreateDebugUtilsMessengerEXT`: `lookupFound` says whether
      `vkGetInstanceProcAddr` found `vkCreateDebugUtilsMessengerEXT`, and
      `callResult` is what that function returns when called. */
  function CreateDebugUtilsMessenger(lookupFound: bool, callResult: VkResult): (r: VkResult)
    ensures r == Success ==> lookupFound
    ensures !lookupFound ==> r == ErrorExtensionNotPresent
    ensures lookupFound ==> r == callResult
  {
    if lookupFound then callResult else ErrorExtensionNotPresent
  }

  /** What the Vulkan and GLFW queries answer during construction. */
  datatype Environment = Environment(
    availableLayers: seq<string>,
    availableExtensions: seq<string>,
    glfwExtensions: seq<string>,
    createResult: VkResult,
    messengerLookupFound: bool,
    messengerResult: VkResult)

  datatype InstanceError =
    | ValidationLayersUnavailable  // "Validation layers requested, but not available!"
    | ExtensionsUnsupported        // "Needed extentions are not supported!"
    | InstanceCreationFailed       // "Fail during instance creation!"
    | DebugMessengerFailed         // "failed to set up debug messenger!"

  /** `setupDebugMessenger`: nothing to do without validation; otherwise the
      messenger must be created successfully. */
  function SetupDebugMessenger(enableValidation: bool, env: Environment): (r: Outcome<InstanceError>)
    ensures !enableValidation ==> r == Pass
    ensures enableValidation && !env.messengerLookupFound ==> r == Fail(DebugMessengerFailed)
    ensures r.Fail? ==> r.error == DebugMessengerFailed
    ensures r == Pass <==>
      !enableValidation || (env.messengerLookupFound && env.messengerResult == Success)
  {
    if !enableValidation then Pass
    else if CreateDebugUtilsMessenger(env.messengerLookupFound, env.messengerResult) != Success then
      Fail(DebugMessengerFailed)
    else Pass
  }

  /** The parts of `VkInstanceCreateInfo` the code fills from lists. */
  datatype InstanceCreateInfo = InstanceCreateInfo(enabledExtensions: seq<string>, enabledLayers: seq<string>)

  datatype CreatedInstance = CreatedInstance(createInfo: InstanceCreateInfo, hasDebugMessenger: bool)

  /** The `Instance` constructor. Its checks run in order — validation
      layers first, then extensions, then creation, then the debug
      messenger — and the first that fails decides the error. */
  function CreateInstance(env: Environment, enableValidation: bool): (r: Result<CreatedInstance, InstanceError>)
    ensures r == Err(ValidationLayersUnavailable) <==>
      enableValidation && KhronosValidationLayer !in env.availableLayers
    ensures r == Err(ExtensionsUnsupported) <==>
      && (!enableValidation || KhronosValidationLayer in env.availableLayers)
      && exists i :: 0 <= i < |GetNeededExtensions(env.glfwExtensions, enableValidation)|
           && GetNeededExtensions(env.glfwExtensions, enableValidation)[i] !in env.availableExtensions
    ensures r == Err(InstanceCreationFailed) <==>
      && (!enableValidation || KhronosValidationLayer in env.availableLayers)
      && (forall e :: e in GetNeededExtensions(env.glfwExtensions, enableValidation) ==> e in env.availableExtensions)
      && env.createResult != Success
    ensures r == Err(DebugMessengerFailed) <==>
      && enableValidation && KhronosValidationLayer in env.availableLayers
      && (forall e :: e in GetNeededExtensions(env.glfwExtensions, enableValidation) ==> e in env.availableExtensions)
      && env.createResult == Success
      && !(env.messengerLookupFound && env.messengerResult == Success)
    ensures r.Ok? ==>
      && env.createResult == Success
      && r.value.createInfo.enabledExtensions == GetNeededExtensions(env.glfwExtensions, enableValidation)
      && (forall e :: e in r.value.createInfo.enabledExtensions ==> e in env.availableExtensions)
      && |r.value.createInfo.enabledLayers| == (if enableValidation then |ValidationLayers| else 0)
      && (enableValidation ==> r.value.createInfo.enabledLayers == ValidationLayers)
      && r.value.hasDebugMessenger == enableValidation
  {
    if enableValidation && !CheckValidationLayerSupport(env.availableLayers) then
      Err(ValidationLayersUnavailable)
    else
      var neededExtensions := GetNeededExtensions(env.glfwExtensions, enableValidation);
      if !CheckInstanceExtensionsSupport(neededExtensions, env.availableExtensions) then
        Err(ExtensionsUnsupported)
      else
        var createInfo := InstanceCreateInfo(neededExtensions, if enableValidation then ValidationLayers else []);
        if env.createResult != Success then Err(InstanceCreationFailed)
        else
          match SetupDebugMessenger(enableValidation, env)
          case Fail(e) => Err(e)
          case Pass => Ok(CreatedInstance(createInfo, enableValidation))
  }
}
