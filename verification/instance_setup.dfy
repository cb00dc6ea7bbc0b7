/**
 * The instance side of the bootstrap: whether the validation layer is
 * available, whether validation is switched on, and the extension and layer
 * lists requested from `vkCreateInstance`.
 */
module InstanceSetup {
  import opened Wrappers
  import opened Vulkan

  /**
   * What the two `vkEnumerateInstanceLayerProperties` calls report: the
   * result code of the counting call, the layer names, and the result code
   * of the listing call (made only when the count is non-zero).
   */
  datatype LayerQuery = LayerQuery(countResult: VkResult, layers: seq<string>, listResult: VkResult)

  /** The name-by-name scan over the listed layers, from position `i` on. */
  function FindValidationLayer(layers: seq<string>, i: nat): (found: bool)
    requires i <= |layers|
    ensures found <==> exists j :: i <= j < |layers| && layers[j] == VALIDATION_LAYER_NAME
    decreases |layers| - i
  {
    if i == |layers| then false
    else if layers[i] == VALIDATION_LAYER_NAME then true
    else FindValidationLayer(layers, i + 1)
  }

  /**
   * The validation layer counts as supported exactly when both enumeration
   * calls succeed and it is among the listed layers; a failed call or an
   * empty list reads as "not supported", never as an error.
   */
  function CheckValidationLayerSupport(q: LayerQuery): (supported: bool)
    ensures supported <==>
      q.countResult == SUCCESS && q.listResult == SUCCESS && VALIDATION_LAYER_NAME in q.layers
    ensures |q.layers| == 0 ==> !supported
  {
    if q.countResult != SUCCESS then false
    else if |q.layers| == 0 then false
    else if q.listResult != SUCCESS then false
    else FindValidationLayer(q.layers, 0)
  }

  /**
   * Validation is on only when Java assertions are on and the layer is
   * available; a missing layer switches it off instead of failing.
   */
  function ValidationEnabled(assertionsEnabled: bool, q: LayerQuery): (enabled: bool)
    ensures enabled ==> assertionsEnabled && VALIDATION_LAYER_NAME in q.layers
    ensures enabled <==> assertionsEnabled && CheckValidationLayerSupport(q)
  {
    if assertionsEnabled && !CheckValidationLayerSupport(q) then false
    else assertionsEnabled
  }

  const ALWAYS_INSTANCE_EXTENSIONS: set<string> := {KHR_GET_PHYSICAL_DEVICE_PROPERTIES_2}

  /** What `vkCreateInstance` is asked for (application identity reduced to its name). */
  datatype InstanceRequest = InstanceRequest(
    appName: string,
    extensions: set<string>,
    layers: seq<string>,
    chainsDebugMessengerInfo: bool)

  /**
   * The instance request. `windowed` says a window system is present, and
   * `glfwExtensions` is what it reports as required (`None` when it reports
   * nothing, which is fatal in windowed mode).
   */
  function BuildInstanceRequest(
    cfg: RenderConfig, windowed: bool, glfwExtensions: Option<seq<string>>, validation: bool
  ): (r: Result<InstanceRequest, Reason>)
    ensures r.Failure? <==> windowed && glfwExtensions.None?
    ensures r.Failure? ==> r.error == NoGlfwInstanceExtensions
    ensures r.Success? ==> forall e :: e in r.value.extensions <==>
      || e in ALWAYS_INSTANCE_EXTENSIONS
      || e in cfg.additionalInstanceExtensions
      || (windowed && glfwExtensions.Some? && e in glfwExtensions.value)
      || (validation && e == EXT_DEBUG_UTILS)
    ensures r.Success? ==> (|r.value.layers| > 0 <==> validation)
    ensures r.Success? ==> forall k :: 0 <= k < |r.value.layers| ==> r.value.layers[k] == VALIDATION_LAYER_NAME
    ensures r.Success? ==> (r.value.chainsDebugMessengerInfo <==> validation)
  {
    if windowed && glfwExtensions.None? then Failure(NoGlfwInstanceExtensions)
    else
      var fromWindow: set<string> := if windowed then set e | e in glfwExtensions.value else {};
      var extensions := ALWAYS_INSTANCE_EXTENSIONS
        + (set e | e in cfg.additionalInstanceExtensions)
        + fromWindow
        + (if validation then {EXT_DEBUG_UTILS} else {});
      Success(InstanceRequest(
        cfg.appName,
        extensions,
        if validation then [VALIDATION_LAYER_NAME] else [],
        validation))
  }

  /** Without a window system, what the window system would report is never consulted. */
  lemma HeadlessIgnoresWindowExtensions(cfg: RenderConfig, a: Option<seq<string>>, b: Option<seq<string>>, validation: bool)
    ensures BuildInstanceRequest(cfg, false, a, validation) == BuildInstanceRequest(cfg, false, b, validation)
  {
  }

  /**
   * The debug-utils extension is requested only when validation is on or
   * someone else asked for it by name.
   */
  lemma DebugUtilsOnlyWithValidation(cfg: RenderConfig, windowed: bool, glfwExtensions: Option<seq<string>>)
    requires EXT_DEBUG_UTILS !in cfg.additionalInstanceExtensions
    requires glfwExtensions.Some? ==> EXT_DEBUG_UTILS !in glfwExtensions.value
    ensures var r := BuildInstanceRequest(cfg, windowed, glfwExtensions, false);
            r.Success? ==> EXT_DEBUG_UTILS !in r.value.extensions
    ensures var r := BuildInstanceRequest(cfg, windowed, glfwExtensions, true);
            r.Success? ==> EXT_DEBUG_UTILS in r.value.extensions
  {
  }
}
