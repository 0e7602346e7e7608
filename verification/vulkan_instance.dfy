/** Instance bootstrap of the `Vulkan` variant (`Vulkan::Instance`): the
    minimum-version check, the validation-layer check, instance creation,
    device enumeration and the instance-extension check, each throwing a
    message that names what is missing. */
module VulkanInstance {
  import opened Common
  import opened VulkanTypes
  import opened NameLists
  import PhysicalDevices

  /** Euclidean division is unique: a value written as `q * d + r` with
      `0 <= r < d` has quotient `q` and remainder `r`. */
  lemma DivModUnique(v: int, q: int, r: int, d: int)
    requires d > 0 && 0 <= r < d && v == q * d + r
    ensures v / d == q && v % d == r
  {
    var q' := v / d;
    var r' := v % d;
    assert (q' - q) * d == r - r' by {
      assert v == q' * d + r';
      assert (q' - q) * d == q' * d - q * d;
    }
    MultipleInsideOpenInterval(q' - q, d);
  }

  lemma MultipleInsideOpenInterval(x: int, d: int)
    requires d > 0 && -d < x * d < d
    ensures x == 0
  {
    if x >= 1 {
      PositiveMultiple(x, d);
    } else if x <= -1 {
      NegativeMultiple(x, d);
    }
  }

  lemma PositiveMultiple(x: int, d: int)
    requires x >= 1 && d > 0
    ensures x * d >= d
  {
    assert x * d == (x - 1) * d + d;
    assert (x - 1) * d >= 0;
  }

  lemma NegativeMultiple(x: int, d: int)
    requires x <= -1 && d > 0
    ensures x * d <= -d
  {
    assert x * d == (x + 1) * d - d;
    assert (x + 1) * d <= 0;
  }

  /** `VK_MAKE_API_VERSION(0, major, minor, patch)` as laid out in the
      "Version Numbers" section of the Vulkan specification: the major
      version above bit 22, the minor version in bits 12-21, the patch in
      bits 0-11. */
  function MakeApiVersion(major: nat, minor: nat, patch: nat): (v: nat)
    requires minor < 1024 && patch < 4096
    ensures v / 0x40_0000 == major && (v % 0x40_0000) / 0x1000 == minor && v % 0x1000 == patch
  {
    var low := minor * 0x1000 + patch;
    DivModUnique(low, minor, patch, 0x1000);
    DivModUnique(major * 0x40_0000 + low, major, low, 0x40_0000);
    DivModUnique(major * 0x40_0000 + low, major * 0x400 + minor, patch, 0x1000);
    major * 0x40_0000 + low
  }

  /** `VK_API_VERSION_1_1`, the version the constructor asks for. */
  const MinimumVersion: nat := MakeApiVersion(1, 1, 0)

  /** Packed versions compare as their (major, minor, patch) triples do. */
  lemma {:induction false} ApiVersionOrder(a0: nat, a1: nat, a2: nat, b0: nat, b1: nat, b2: nat)
    requires a1 < 1024 && a2 < 4096 && b1 < 1024 && b2 < 4096
    ensures MakeApiVersion(a0, a1, a2) < MakeApiVersion(b0, b1, b2) <==>
      a0 < b0 || (a0 == b0 && (a1 < b1 || (a1 == b1 && a2 < b2)))
  {
    var low1 := a1 * 0x1000 + a2;
    var low2 := b1 * 0x1000 + b2;
    assert low1 < 0x40_0000 && low2 < 0x40_0000;
    assert a1 < b1 ==> low1 < low2 by {
      if a1 < b1 { assert a1 * 0x1000 + 0x1000 <= b1 * 0x1000; }
    }
    assert b1 < a1 ==> low2 < low1 by {
      if b1 < a1 { assert b1 * 0x1000 + 0x1000 <= a1 * 0x1000; }
    }
    if a0 < b0 {
      assert a0 * 0x40_0000 + 0x40_0000 <= b0 * 0x40_0000;
    } else if b0 < a0 {
      assert b0 * 0x40_0000 + 0x40_0000 <= a0 * 0x40_0000;
    }
  }

  datatype InstanceError =
    | CheckFailed(operation: string, result: VkResult)  // thrown by `Check`
    | VersionTooOld(required: nat, found: nat)          // "minimum required version not found"
    | LayerMissing(layer: string)                       // "could not find the requested validation layer"
    | NoPhysicalDevices                                 // "found no Vulkan physical devices"
    | ExtensionMissing(extension: string)               // "could not find the requested extension"

  /** `Check(result, operation)`: passes on `VK_SUCCESS`, fails otherwise. */
  function Check(result: VkResult, operation: string): (r: Outcome<InstanceError>)
    ensures r == Pass <==> result == Success
    ensures r.Fail? ==> r.error == CheckFailed(operation, result)
  {
    if result == Success then Pass else Fail(CheckFailed(operation, result))
  }

  /** `CheckVulkanMinimumVersion`: the version query must succeed and report
      at least `minVersion` (compared as unsigned integers). */
  function CheckVulkanMinimumVersion(minVersion: nat, queryResult: VkResult, version: Uint32)
    : (r: Outcome<InstanceError>)
    ensures r == Pass <==> queryResult == Success && minVersion <= version
    ensures queryResult == Success && minVersion > version ==> r == Fail(VersionTooOld(minVersion, version))
    ensures queryResult != Success ==> r == Fail(CheckFailed("query instance version", queryResult))
  {
    match Check(queryResult, "query instance version")
    case Fail(e) => Fail(e)
    case Pass => if minVersion > version then Fail(VersionTooOld(minVersion, version)) else Pass
  }

  /** Fails on the first name of `needed` that is not available. */
  function RequireAll(needed: seq<string>, available: seq<string>, missing: string -> InstanceError)
    : (r: Outcome<InstanceError>)
    ensures r == Pass <==> forall i :: 0 <= i < |needed| ==> needed[i] in available
    ensures r.Fail? ==>
      exists k :: 0 <= k < |needed| && r.error == missing(needed[k]) && needed[k] !in available
        && forall j :: 0 <= j < k ==> needed[j] in available
  {
    match FirstMissing(needed, available)
    case None => Pass
    case Some(name) => Fail(missing(name))
  }

  /** `CheckVulkanValidationLayerSupport`: every requested layer must be
      available; the error names the first that is not. */
  function CheckVulkanValidationLayerSupport(layers: seq<string>, availableLayers: seq<string>)
    : (r: Outcome<InstanceError>)
    ensures r == Pass <==> forall i :: 0 <= i < |layers| ==> layers[i] in availableLayers
    ensures r.Fail? ==>
      exists k :: 0 <= k < |layers| && r.error == LayerMissing(layers[k]) && layers[k] !in availableLayers
        && forall j :: 0 <= j < k ==> layers[j] in availableLayers
  {
    RequireAll(layers, availableLayers, name => LayerMissing(name))
  }

  /** The extensions the instance is created with: those the window
      requires, then debug-utils when any validation layer is requested. */
  function InstanceExtensions(windowExtensions: seq<string>, layers: seq<string>): (r: seq<string>)
    ensures |r| == |windowExtensions| + (if |layers| > 0 then 1 else 0)
    ensures r[..|windowExtensions|] == windowExtensions
    ensures |layers| > 0 ==> r[|windowExtensions|] == DebugUtilsExtensionName
    ensures DebugUtilsExtensionName in r <==> |layers| > 0 || DebugUtilsExtensionName in windowExtensions
  {
    if |layers| > 0 then windowExtensions + [DebugUtilsExtensionName] else windowExtensions
  }

  /** `CheckVulkanInstanceExtensionsSupport`: the extensions GLFW requires
      and, whatever the validation setting, debug-utils must all be
      available; the error names the first that is not. */
  function CheckVulkanInstanceExtensionsSupport(glfwExtensions: seq<string>, availableExtensions: seq<string>)
    : (r: Outcome<InstanceError>)
    ensures r == Pass <==>
      DebugUtilsExtensionName in availableExtensions
      && forall i :: 0 <= i < |glfwExtensions| ==> glfwExtensions[i] in availableExtensions
    ensures r.Fail? ==>
      || (exists k :: 0 <= k < |glfwExtensions| && r.error == ExtensionMissing(glfwExtensions[k])
            && glfwExtensions[k] !in availableExtensions
            && forall j :: 0 <= j < k ==> glfwExtensions[j] in availableExtensions)
      || (&& r.error == ExtensionMissing(DebugUtilsExtensionName)
          && DebugUtilsExtensionName !in availableExtensions
          && forall j :: 0 <= j < |glfwExtensions| ==> glfwExtensions[j] in availableExtensions)
  {
    var needed := glfwExtensions + [DebugUtilsExtensionName];
    assert needed[|glfwExtensions|] == DebugUtilsExtensionName;
    assert forall i :: 0 <= i < |glfwExtensions| ==> needed[i] == glfwExtensions[i];
    RequireAll(needed, availableExtensions, name => ExtensionMissing(name))
  }

  /** `GetVulkanDevices`: the enumerated devices, which must not be none. */
  function GetVulkanDevices(devices: seq<PhysicalDevices.PhysicalDevice>)
    : (r: Result<seq<PhysicalDevices.PhysicalDevice>, InstanceError>)
    ensures r.Err? <==> |devices| == 0
    ensures r.Err? ==> r.error == NoPhysicalDevices
    ensures r.Ok? ==> r.value == devices
  {
    if |devices| == 0 then Err(NoPhysicalDevices) else Ok(devices)
  }

  /** What the Vulkan, GLFW and window queries answer during construction. */
  datatype Environment = Environment(
    versionQueryResult: VkResult,
    instanceVersion: Uint32,
    availableLayers: seq<string>,
    windowExtensions: seq<string>,
    createResult: VkResult,
    physicalDevices: seq<PhysicalDevices.PhysicalDevice>,
    availableExtensions: seq<string>,
    glfwExtensions: seq<string>)

  /** A constructed `Vulkan::Instance`: what it was created with and what
      its accessors return. */
  datatype Instance = Instance(
    enabledExtensions: seq<string>,
    enabledLayers: seq<string>,
    physicalDevices: seq<PhysicalDevices.PhysicalDevice>,
    extensions: seq<string>)

  /** The `Vulkan::Instance` constructor: version, then layers, then
      instance creation, then devices, then extensions; the first check
      that fails decides the error. */
  function CreateInstance(env: Environment, layers: seq<string>): (r: Result<Instance, InstanceError>)
    ensures CheckVulkanMinimumVersion(MinimumVersion, env.versionQueryResult, env.instanceVersion).Fail? ==>
      r == Err(CheckVulkanMinimumVersion(MinimumVersion, env.versionQueryResult, env.instanceVersion).error)
    ensures (r.Err? && (r.error.VersionTooOld? || r.error == CheckFailed("query instance version", env.versionQueryResult)))
      <==> env.versionQueryResult != Success || MinimumVersion > env.instanceVersion
    ensures (r.Err? && r.error.LayerMissing?) <==>
      && env.versionQueryResult == Success && MinimumVersion <= env.instanceVersion
      && !(forall i :: 0 <= i < |layers| ==> layers[i] in env.availableLayers)
    ensures
      && CheckVulkanMinimumVersion(MinimumVersion, env.versionQueryResult, env.instanceVersion) == Pass
      && CheckVulkanValidationLayerSupport(layers, env.availableLayers).Fail?
      ==> r == Err(CheckVulkanValidationLayerSupport(layers, env.availableLayers).error)
    ensures r == Err(CheckFailed("create instance", env.createResult)) <==>
      && env.versionQueryResult == Success && MinimumVersion <= env.instanceVersion
      && (forall i :: 0 <= i < |layers| ==> layers[i] in env.availableLayers)
      && env.createResult != Success
    ensures r == Err(NoPhysicalDevices) <==>
      && env.versionQueryResult == Success && MinimumVersion <= env.instanceVersion
      && (forall i :: 0 <= i < |layers| ==> layers[i] in env.availableLayers)
      && env.createResult == Success && |env.physicalDevices| == 0
    ensures (r.Err? && r.error.ExtensionMissing?) <==>
      && env.versionQueryResult == Success && MinimumVersion <= env.instanceVersion
      && (forall i :: 0 <= i < |layers| ==> layers[i] in env.availableLayers)
      && env.createResult == Success && |env.physicalDevices| > 0
      && !(DebugUtilsExtensionName in env.availableExtensions
           && forall i :: 0 <= i < |env.glfwExtensions| ==> env.glfwExtensions[i] in env.availableExtensions)
    ensures
      && CheckVulkanMinimumVersion(MinimumVersion, env.versionQueryResult, env.instanceVersion) == Pass
      && CheckVulkanValidationLayerSupport(layers, env.availableLayers) == Pass
      && env.createResult == Success && |env.physicalDevices| > 0
      && CheckVulkanInstanceExtensionsSupport(env.glfwExtensions, env.availableExtensions).Fail?
      ==> r == Err(CheckVulkanInstanceExtensionsSupport(env.glfwExtensions, env.availableExtensions).error)
    ensures r.Ok? <==>
      && env.versionQueryResult == Success && MinimumVersion <= env.instanceVersion
      && (forall i :: 0 <= i < |layers| ==> layers[i] in env.availableLayers)
      && env.createResult == Success
      && |env.physicalDevices| > 0
      && DebugUtilsExtensionName in env.availableExtensions
      && (forall i :: 0 <= i < |env.glfwExtensions| ==> env.glfwExtensions[i] in env.availableExtensions)
    ensures r.Ok? ==>
      && r.value.enabledExtensions == InstanceExtensions(env.windowExtensions, layers)
      && r.value.enabledLayers == layers
      && r.value.physicalDevices == env.physicalDevices
      && r.value.extensions == env.availableExtensions
  {
    match CheckVulkanMinimumVersion(MinimumVersion, env.versionQueryResult, env.instanceVersion)
    case Fail(e) => Err(e)
    case Pass =>
      match CheckVulkanValidationLayerSupport(layers, env.availableLayers)
      case Fail(e) => Err(e)
      case Pass =>
        var extensions := InstanceExtensions(env.windowExtensions, layers);
        match Check(env.createResult, "create instance")
        case Fail(e) => Err(e)
        case Pass =>
          match GetVulkanDevices(env.physicalDevices)
          case Err(e) => Err(e)
          case Ok(devices) =>
            match CheckVulkanInstanceExtensionsSupport(env.glfwExtensions, env.availableExtensions)
            case Fail(e) => Err(e)
            case Pass => Ok(Instance(extensions, layers, devices, env.availableExtensions))
  }

  /** With no validation layers the instance is created without debug-utils,
      yet construction still fails when the loader does not offer it. */
  lemma DebugUtilsRequiredWithoutValidation(env: Environment)
    requires env.versionQueryResult == Success && MinimumVersion <= env.instanceVersion
    requires env.createResult == Success && |env.physicalDevices| > 0
    requires DebugUtilsExtensionName !in env.windowExtensions
    requires forall i :: 0 <= i < |env.glfwExtensions| ==> env.glfwExtensions[i] in env.availableExtensions
    requires DebugUtilsExtensionName !in env.availableExtensions
    ensures DebugUtilsExtensionName !in InstanceExtensions(env.windowExtensions, [])
    ensures CreateInstance(env, []) == Err(ExtensionMissing(DebugUtilsExtensionName))
  {
    var needed := env.glfwExtensions + [DebugUtilsExtensionName];
    var check := CheckVulkanInstanceExtensionsSupport(env.glfwExtensions, env.availableExtensions);
    assert check == RequireAll(needed, env.availableExtensions, name => ExtensionMissing(name));
    var k :| 0 <= k < |needed| && check.error == ExtensionMissing(needed[k]) && needed[k] !in env.availableExtensions;
    assert forall i :: 0 <= i < |env.glfwExtensions| ==> needed[i] == env.glfwExtensions[i];
  }
}
