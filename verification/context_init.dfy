/**
 * The staged bootstrap and its teardown. The stages run in order (instance,
 * debug messenger, surface, physical device, queue families, logical device,
 * allocator); the first failing stage stops the run, every handle created so
 * far is destroyed in reverse creation order, and the original error is
 * reported.
 */
module ContextInit {
  import opened Wrappers
  import opened Vulkan
  import opened InstanceSetup
  import opened DeviceSelection
  import opened QueueFamilies
  import opened LogicalDevice

  /** A creating driver call: its result code, and the handle it yields when that code is `SUCCESS`. */
  datatype CallResult = CallResult(result: VkResult, handle: Handle)

  /**
   * One enumerated physical device: its handle, its properties, the flag word
   * of each queue family, and the surface-support answer for each family
   * index.
   */
  datatype PhysicalDevice = PhysicalDevice(
    handle: Handle,
    properties: DeviceProperties,
    queueFamilies: seq<QueueFlags>,
    surfaceSupport: nat -> bool)

  /**
   * Everything the bootstrap learns from outside: whether Java assertions are
   * on, whether a window system is present, and the outcome of every driver
   * and window-system call it makes. `deviceQueue` maps a family index to the
   * queue handle read back, `None` standing for a null read.
   */
  datatype Driver = Driver(
    assertionsEnabled: bool,
    windowed: bool,
    glfwInstanceExtensions: Option<seq<string>>,
    layerQuery: LayerQuery,
    createInstance: InstanceRequest -> CallResult,
    createDebugMessenger: CallResult,
    createSurface: CallResult,
    enumerateCountResult: VkResult,
    enumerateListResult: VkResult,
    physicalDevices: seq<PhysicalDevice>,
    createDevice: DeviceRequest -> CallResult,
    deviceQueue: nat -> Option<Handle>,
    createAllocator: CallResult)

  /** The handles the bootstrap creates, in creation order. */
  datatype HandleKind = InstanceHandle | DebugMessengerHandle | SurfaceHandle | DeviceHandle | AllocatorHandle

  /** One creation or destruction event. */
  datatype HandleRef = HandleRef(kind: HandleKind, handle: Handle)

  datatype Queues = Queues(graphics: Handle, present: Option<Handle>, transfer: Option<Handle>, compute: Option<Handle>)

  /**
   * The state of one initialization attempt: what has been built so far, and
   * the log of handles created, in the order of their creation.
   */
  datatype InitState = InitState(
    validation: bool,
    instance: Option<Handle>,
    debugMessenger: Option<Handle>,
    surface: Option<Handle>,
    physicalDevice: Option<nat>,
    families: Option<QueueFamilyIndices>,
    device: Option<Handle>,
    queues: Option<Queues>,
    allocator: Option<Handle>,
    created: seq<HandleRef>)

  const FRESH: InitState := InitState(false, None, None, None, None, None, None, None, None, [])

  /** A failed stage: the state it left behind and the error it raised. */
  datatype Aborted = Aborted(state: InitState, error: InitError)

  function Entry(kind: HandleKind, h: Option<Handle>): seq<HandleRef> {
    if h.Some? then [HandleRef(kind, h.value)] else []
  }

  /** The handles held, in the order the stages create them. */
  function HeldInCreationOrder(st: InitState): seq<HandleRef> {
    Entry(InstanceHandle, st.instance)
    + Entry(DebugMessengerHandle, st.debugMessenger)
    + Entry(SurfaceHandle, st.surface)
    + Entry(DeviceHandle, st.device)
    + Entry(AllocatorHandle, st.allocator)
  }

  /** The creation log lists exactly the handles held, in stage order. */
  ghost predicate Consistent(st: InitState) {
    st.created == HeldInCreationOrder(st)
  }

  /** The destroy calls of `cleanup`: each non-null handle, allocator first and instance last. */
  function Cleanup(st: InitState): (log: seq<HandleRef>)
    ensures forall k :: 0 <= k < |log| ==> Held(st, log[k].kind) == Some(log[k].handle)
    ensures forall kind :: Held(st, kind).Some? ==> HandleRef(kind, Held(st, kind).value) in log
  {
    Entry(AllocatorHandle, st.allocator)
    + Entry(DeviceHandle, st.device)
    + Entry(SurfaceHandle, st.surface)
    + Entry(DebugMessengerHandle, st.debugMessenger)
    + Entry(InstanceHandle, st.instance)
  }

  function Reverse<T>(s: seq<T>): (r: seq<T>)
    ensures |r| == |s|
    ensures forall i :: 0 <= i < |s| ==> r[i] == s[|s| - 1 - i]
  {
    if s == [] then [] else Reverse(s[1..]) + [s[0]]
  }

  lemma {:induction false} ReverseKeepsElements<T>(s: seq<T>)
    ensures multiset(Reverse(s)) == multiset(s)
  {
    if s != [] {
      ReverseKeepsElements(s[1..]);
      assert s == [s[0]] + s[1..];
    }
  }

  lemma {:induction false} ReverseAppend<T>(a: seq<T>, b: seq<T>)
    ensures Reverse(a + b) == Reverse(b) + Reverse(a)
    decreases |a|
  {
    if a == [] {
      assert a + b == b;
    } else {
      calc {
        Reverse(a + b);
        { assert (a + b)[1..] == a[1..] + b; assert (a + b)[0] == a[0]; }
        Reverse(a[1..] + b) + [a[0]];
        { ReverseAppend(a[1..], b); }
        Reverse(b) + Reverse(a[1..]) + [a[0]];
      }
    }
  }

  lemma ReverseEntry(kind: HandleKind, h: Option<Handle>)
    ensures Reverse(Entry(kind, h)) == Entry(kind, h)
  {
    if h.Some? {
      assert Entry(kind, h)[1..] == [];
    }
  }

  /** `cleanup` destroys exactly the handles held, in the reverse of their creation order. */
  lemma {:induction false} CleanupReversesCreation(st: InitState)
    ensures Cleanup(st) == Reverse(HeldInCreationOrder(st))
  {
    var i := Entry(InstanceHandle, st.instance);
    var d := Entry(DebugMessengerHandle, st.debugMessenger);
    var s := Entry(SurfaceHandle, st.surface);
    var v := Entry(DeviceHandle, st.device);
    var a := Entry(AllocatorHandle, st.allocator);
    calc {
      Reverse(HeldInCreationOrder(st));
      Reverse(i + d + s + v + a);
      { ReverseAppend(i + d + s + v, a); }
      Reverse(a) + Reverse(i + d + s + v);
      { ReverseAppend(i + d + s, v); }
      Reverse(a) + (Reverse(v) + Reverse(i + d + s));
      { ReverseAppend(i + d, s); }
      Reverse(a) + (Reverse(v) + (Reverse(s) + Reverse(i + d)));
      { ReverseAppend(i, d); }
      Reverse(a) + (Reverse(v) + (Reverse(s) + (Reverse(d) + Reverse(i))));
      { ReverseEntry(InstanceHandle, st.instance);
        ReverseEntry(DebugMessengerHandle, st.debugMessenger);
        ReverseEntry(SurfaceHandle, st.surface);
        ReverseEntry(DeviceHandle, st.device);
        ReverseEntry(AllocatorHandle, st.allocator); }
      a + (v + (s + (d + i)));
      a + v + s + d + i;
      Cleanup(st);
    }
  }

  // ---------------------------------------------------------------------------
  // Stages. Each takes the state left by the previous one; on success it adds
  // only its own part, and on failure it reports the state as it left it.

  /**
   * The state after the first `k` stages have succeeded: the creation log is
   * consistent, every handle of an earlier stage is held (the debug
   * messenger and surface only when their stage made one) and no handle of
   * a later stage is.
   */
  ghost predicate Reached(d: Driver, st: InitState, k: nat) {
    && Consistent(st)
    && (st.instance.Some? <==> k >= 1)
    && (k < 2 ==> st.debugMessenger.None?)
    && (k < 3 ==> st.surface.None?)
    && (k >= 3 ==> (st.surface.Some? <==> d.windowed))
    && (st.physicalDevice.Some? <==> k >= 4)
    && (k >= 4 ==> st.physicalDevice.value < |d.physicalDevices|)
    && (st.families.Some? <==> k >= 5)
    && (st.device.Some? <==> k >= 6)
    && (st.queues.Some? <==> k >= 6)
    && (st.allocator.Some? <==> k >= 7)
  }

  /**
   * `r` grows `st`: the validation decision is unchanged, and every handle,
   * device choice, family set and queue set `st` holds is still held,
   * unchanged.
   */
  ghost predicate Keeps(st: InitState, r: InitState) {
    && r.validation == st.validation
    && (st.instance.Some? ==> r.instance == st.instance)
    && (st.debugMessenger.Some? ==> r.debugMessenger == st.debugMessenger)
    && (st.surface.Some? ==> r.surface == st.surface)
    && (st.physicalDevice.Some? ==> r.physicalDevice == st.physicalDevice)
    && (st.families.Some? ==> r.families == st.families)
    && (st.device.Some? ==> r.device == st.device)
    && (st.queues.Some? ==> r.queues == st.queues)
    && (st.allocator.Some? ==> r.allocator == st.allocator)
  }

  /** The stage an error comes from, counting the instance stage as 0. */
  function FailingStage(e: InitError): nat {
    match e
    case RenderError(reason) =>
      (match reason
       case NoGlfwInstanceExtensions => 0
       case NoPhysicalDevice => 3
       case NoSuitablePhysicalDevice => 3
       case NoGraphicsQueueFamily => 4
       case NoPresentQueueFamily => 4)
    case VulkanError(_, operation) =>
      (match operation
       case CreatingInstance => 0
       case CreatingSurface => 2
       case EnumeratingPhysicalDevices => 3
       case CreatingDevice => 5)
    case NullQueueHandle(_) => 5
    case AllocatorError(_) => 6
  }

  /**
   * What a failed run leaves for `cleanup`: a consistent creation log, every
   * handle of the stages before the failing one, and nothing after it, except
   * that a null queue read leaves the device just created. The allocator,
   * created last, is never held.
   */
  ghost predicate FailedAt(d: Driver, a: Aborted) {
    var k := FailingStage(a.error);
    && Consistent(a.state)
    && (a.state.instance.Some? <==> k >= 1)
    && (k < 2 ==> a.state.debugMessenger.None?)
    && (k < 3 ==> a.state.surface.None?)
    && (k >= 3 ==> (a.state.surface.Some? <==> d.windowed))
    && (a.state.device.Some? <==> k >= 6 || a.error.NullQueueHandle?)
    && a.state.allocator.None?
  }

  /**
   * A run that fails after the selection stage had chosen a device, and the
   * one it chose is the best-ranked.
   */
  ghost predicate ChoseBest(cfg: RenderConfig, d: Driver, a: Aborted) {
    FailingStage(a.error) >= 4 ==>
      && a.state.physicalDevice.Some?
      && IsBest(Ranks(d.physicalDevices, cfg.physicalDeviceRanker), a.state.physicalDevice.value)
  }

  /** The instance request for this driver, with validation decided from its assertions flag and layer list. */
  function InstanceRequestFor(cfg: RenderConfig, d: Driver): Result<InstanceRequest, Reason> {
    BuildInstanceRequest(cfg, d.windowed, d.glfwInstanceExtensions, ValidationEnabled(d.assertionsEnabled, d.layerQuery))
  }

  /**
   * Decides validation (assertions on and the layer available), builds the
   * instance request and creates the instance.
   */
  function CreateInstanceStage(cfg: RenderConfig, d: Driver): (r: Result<InitState, Aborted>)
    ensures r.Success? <==>
      InstanceRequestFor(cfg, d).Success? && d.createInstance(InstanceRequestFor(cfg, d).value).result == SUCCESS
    ensures InstanceRequestFor(cfg, d).Failure? ==> r.Failure? && r.error.error == RenderError(InstanceRequestFor(cfg, d).error)
    ensures InstanceRequestFor(cfg, d).Success? && r.Failure? ==>
      r.error.error == VulkanError(d.createInstance(InstanceRequestFor(cfg, d).value).result, CreatingInstance)
    ensures r.Success? ==> r.value.instance == Some(d.createInstance(InstanceRequestFor(cfg, d).value).handle)
    ensures r.Success? ==> Reached(d, r.value, 1) && r.value.created == [HandleRef(InstanceHandle, r.value.instance.value)]
    ensures r.Success? ==> r.value.validation == ValidationEnabled(d.assertionsEnabled, d.layerQuery)
    ensures r.Failure? ==> FailedAt(d, r.error) && r.error.state.created == []
    ensures d.windowed && d.glfwInstanceExtensions.None? ==> r.Failure? && r.error.error == RenderError(NoGlfwInstanceExtensions)
  {
    var st := FRESH.(validation := ValidationEnabled(d.assertionsEnabled, d.layerQuery));
    match InstanceRequestFor(cfg, d)
    case Failure(reason) => Failure(Aborted(st, RenderError(reason)))
    case Success(request) =>
      var call := d.createInstance(request);
      if call.result != SUCCESS then Failure(Aborted(st, VulkanError(call.result, CreatingInstance)))
      else Success(st.(instance := Some(call.handle), created := [HandleRef(InstanceHandle, call.handle)]))
  }

  /**
   * Installs the debug messenger when validation is on. A failure to install
   * it is not fatal, so the stage cannot fail: the handle simply stays absent.
   */
  function SetupDebugMessengerStage(d: Driver, st: InitState): (r: InitState)
    requires Reached(d, st, 1)
    ensures Reached(d, r, 2)
    ensures r.debugMessenger == (if st.validation && d.createDebugMessenger.result == SUCCESS then Some(d.createDebugMessenger.handle) else None)
    ensures Keeps(st, r) && r.created == st.created + Entry(DebugMessengerHandle, r.debugMessenger)
  {
    if !st.validation then st.(debugMessenger := None)
    else
      var call := d.createDebugMessenger;
      if call.result != SUCCESS then st.(debugMessenger := None)
      else st.(debugMessenger := Some(call.handle), created := st.created + [HandleRef(DebugMessengerHandle, call.handle)])
  }

  /** Creates the window surface in windowed mode; headless, the stage is skipped. */
  function CreateSurfaceStage(d: Driver, st: InitState): (r: Result<InitState, Aborted>)
    requires Reached(d, st, 2)
    ensures r.Failure? <==> d.windowed && d.createSurface.result != SUCCESS
    ensures r.Failure? ==> r.error == Aborted(st, VulkanError(d.createSurface.result, CreatingSurface))
    ensures r.Failure? ==> FailedAt(d, r.error)
    ensures r.Success? ==> Reached(d, r.value, 3) && r.value.validation == st.validation
    ensures r.Success? ==> r.value.surface == (if d.windowed then Some(d.createSurface.handle) else None)
    ensures r.Success? ==> Keeps(st, r.value) && r.value.created == st.created + Entry(SurfaceHandle, r.value.surface)
  {
    if !d.windowed then Success(st.(surface := None))
    else
      var call := d.createSurface;
      if call.result != SUCCESS then Failure(Aborted(st, VulkanError(call.result, CreatingSurface)))
      else Success(st.(surface := Some(call.handle), created := st.created + [HandleRef(SurfaceHandle, call.handle)]))
  }

  /** The families held are what `build`'s resolver reports for the chosen device. */
  ghost predicate ResolvedFor(build: Build, cfg: RenderConfig, d: Driver, st: InitState) {
    && st.physicalDevice.Some? && st.physicalDevice.value < |d.physicalDevices|
    && st.families.Some?
    && var device := d.physicalDevices[st.physicalDevice.value];
       Resolve(build, device.queueFamilies, Options(cfg, d), device.surfaceSupport) == Success(st.families.value)
  }

  /** A queue handle is held for exactly the roles that have a family. */
  ghost predicate QueuesMatch(q: QueueFamilyIndices, queues: Queues) {
    && (queues.present.Some? <==> q.present.Some?)
    && (queues.transfer.Some? <==> q.transfer.Some?)
    && (queues.compute.Some? <==> q.compute.Some?)
  }

  /** The caller's rank for every enumerated device, in enumeration order. */
  function Ranks(devices: seq<PhysicalDevice>, ranker: DeviceProperties -> int32): (ranks: seq<int32>)
    ensures |ranks| == |devices|
    ensures forall k :: 0 <= k < |devices| ==> ranks[k] == ranker(devices[k].properties)
  {
    seq(|devices|, k requires 0 <= k < |devices| => ranker(devices[k].properties))
  }

  /** The selection over this driver's devices, ranked by the caller's ranker. */
  function Pick(cfg: RenderConfig, d: Driver): Result<nat, InitError> {
    PickPhysicalDevice(d.enumerateCountResult, d.enumerateListResult, Ranks(d.physicalDevices, cfg.physicalDeviceRanker))
  }

  function PickPhysicalDeviceStage(cfg: RenderConfig, d: Driver, st: InitState): (r: Result<InitState, Aborted>)
    requires Reached(d, st, 3)
    ensures r.Success? <==> Pick(cfg, d).Success?
    ensures r.Success? ==> r.value.physicalDevice == Some(Pick(cfg, d).value)
    ensures r.Failure? ==> r.error.error == Pick(cfg, d).error
    ensures r.Success? ==> Reached(d, r.value, 4) && r.value.validation == st.validation
    ensures r.Success? ==> Keeps(st, r.value) && r.value.created == st.created
    ensures r.Success? ==> IsBest(Ranks(d.physicalDevices, cfg.physicalDeviceRanker), r.value.physicalDevice.value)
    ensures r.Failure? ==> r.error.state == st && FailedAt(d, r.error)
  {
    match Pick(cfg, d)
    case Failure(e) => Failure(Aborted(st, e))
    case Success(k) => Success(st.(physicalDevice := Some(k)))
  }

  function Options(cfg: RenderConfig, d: Driver): ResolveOptions {
    ResolveOptions(d.windowed, cfg.noTransferQueue, cfg.noComputeQueue)
  }

  /** `build`'s resolver applied to the `k`-th enumerated device. */
  function ResolveOn(build: Build, cfg: RenderConfig, d: Driver, k: nat): Result<QueueFamilyIndices, Reason>
    requires k < |d.physicalDevices|
  {
    var device := d.physicalDevices[k];
    Resolve(build, device.queueFamilies, Options(cfg, d), device.surfaceSupport)
  }

  /** The queue families of the chosen device, resolved by `build`'s rules. */
  function FindQueueFamiliesStage(build: Build, cfg: RenderConfig, d: Driver, st: InitState): (r: Result<InitState, Aborted>)
    requires Reached(d, st, 4)
    ensures r.Success? <==> ResolveOn(build, cfg, d, st.physicalDevice.value).Success?
    ensures r.Failure? ==> r.error.error == RenderError(ResolveOn(build, cfg, d, st.physicalDevice.value).error)
    ensures r.Success? ==> Reached(d, r.value, 5) && r.value.validation == st.validation && r.value.physicalDevice == st.physicalDevice
    ensures r.Success? ==> ResolvedFor(build, cfg, d, r.value)
    ensures r.Success? ==> Keeps(st, r.value) && r.value.created == st.created
    ensures r.Failure? ==> r.error.state == st && FailedAt(d, r.error)
  {
    match ResolveOn(build, cfg, d, st.physicalDevice.value)
    case Failure(reason) => Failure(Aborted(st, RenderError(reason)))
    case Success(q) => Success(st.(families := Some(q)))
  }

  /** The role has a family and reading its queue back gives null. */
  predicate ReadsNull(d: Driver, family: Option<nat>) {
    family.Some? && d.deviceQueue(family.value).None?
  }

  /** Some resolved role's queue reads back as null. */
  predicate SomeQueueNull(d: Driver, q: QueueFamilyIndices) {
    ReadsNull(d, Some(q.graphics)) || ReadsNull(d, q.present) || ReadsNull(d, q.transfer) || ReadsNull(d, q.compute)
  }

  /** Reads back the queue of one role; `None` when the role has no family. */
  function FetchQueue(d: Driver, family: Option<nat>): (r: Result<Option<Handle>, InitError>)
    ensures r.Failure? <==> ReadsNull(d, family)
    ensures r.Failure? ==> r.error == NullQueueHandle(family.value)
    ensures r.Success? ==> (r.value.Some? <==> family.Some?)
    ensures r.Success? && family.Some? ==> r.value == d.deviceQueue(family.value)
  {
    if family.None? then Success(None)
    else match d.deviceQueue(family.value)
      case None => Failure(NullQueueHandle(family.value))
      case Some(h) => Success(Some(h))
  }

  function FetchQueues(d: Driver, q: QueueFamilyIndices): (r: Result<Queues, InitError>)
    ensures r.Success? ==> (r.value.present.Some? <==> q.present.Some?)
    ensures r.Success? ==> (r.value.transfer.Some? <==> q.transfer.Some?)
    ensures r.Success? ==> (r.value.compute.Some? <==> q.compute.Some?)
    ensures r.Failure? <==> SomeQueueNull(d, q)
    ensures r.Failure? ==> r.error.NullQueueHandle? && d.deviceQueue(r.error.family).None?
    ensures ReadsNull(d, Some(q.graphics)) ==> r == Failure(NullQueueHandle(q.graphics))
    ensures r.Success? ==> d.deviceQueue(q.graphics) == Some(r.value.graphics)
    ensures r.Success? && q.present.Some? ==> r.value.present == d.deviceQueue(q.present.value)
    ensures r.Success? && q.transfer.Some? ==> r.value.transfer == d.deviceQueue(q.transfer.value)
    ensures r.Success? && q.compute.Some? ==> r.value.compute == d.deviceQueue(q.compute.value)
  {
    var graphics :- FetchQueue(d, Some(q.graphics));
    var present :- FetchQueue(d, q.present);
    var transfer :- FetchQueue(d, q.transfer);
    var compute :- FetchQueue(d, q.compute);
    Success(Queues(graphics.value, present, transfer, compute))
  }

  /** The result of `vkCreateDevice` for the request this state leads to. */
  function DeviceCall(build: Build, cfg: RenderConfig, d: Driver, st: InitState): CallResult
    requires st.families.Some?
  {
    d.createDevice(BuildDeviceRequest(build, cfg, st.families.value, st.validation))
  }

  /**
   * Creates the logical device and reads back its queues. The device handle
   * is recorded before the queues are read, so a null queue read still
   * leaves the device to be destroyed.
   */
  function CreateLogicalDeviceStage(build: Build, cfg: RenderConfig, d: Driver, st: InitState): (r: Result<InitState, Aborted>)
    requires Reached(d, st, 5)
    ensures DeviceCall(build, cfg, d, st).result != SUCCESS ==>
      r == Failure(Aborted(st, VulkanError(DeviceCall(build, cfg, d, st).result, CreatingDevice)))
    ensures DeviceCall(build, cfg, d, st).result == SUCCESS ==> r == FetchQueuesStage(d, st, DeviceCall(build, cfg, d, st).handle)
    ensures r.Failure? ==> FailedAt(d, r.error) && r.error.state.physicalDevice == st.physicalDevice
    ensures r.Success? ==> Reached(d, r.value, 6) && r.value.families == st.families && r.value.physicalDevice == st.physicalDevice
    ensures r.Success? ==> QueuesMatch(r.value.families.value, r.value.queues.value)
    ensures r.Success? ==> r.value.device == Some(DeviceCall(build, cfg, d, st).handle)
    ensures r.Success? ==> Keeps(st, r.value) && r.value.created == st.created + [HandleRef(DeviceHandle, r.value.device.value)]
  {
    var call := DeviceCall(build, cfg, d, st);
    if call.result != SUCCESS then Failure(Aborted(st, VulkanError(call.result, CreatingDevice)))
    else FetchQueuesStage(d, st, call.handle)
  }

  /** Recording the device keeps the creation log consistent. */
  lemma DeviceExtendsLog(st: InitState, h: Handle)
    requires Consistent(st) && st.device.None? && st.allocator.None?
    ensures Consistent(st.(device := Some(h), created := st.created + [HandleRef(DeviceHandle, h)]))
  {
    var front := Entry(InstanceHandle, st.instance) + Entry(DebugMessengerHandle, st.debugMessenger) + Entry(SurfaceHandle, st.surface);
    assert st.created == front;
  }

  /**
   * Records the device `h` just created, then reads back its queues; a null
   * read aborts with the device already held.
   */
  function FetchQueuesStage(d: Driver, st: InitState, h: Handle): (r: Result<InitState, Aborted>)
    requires Reached(d, st, 5)
    ensures r.Failure? ==>
      && r.error.error.NullQueueHandle?
      && r.error.state == st.(device := Some(h), created := st.created + [HandleRef(DeviceHandle, h)])
      && FailedAt(d, r.error)
    ensures r.Failure? <==> SomeQueueNull(d, st.families.value)
    ensures r.Failure? ==> r.error.error == FetchQueues(d, st.families.value).error
    ensures r.Success? ==> r.value.queues == Some(FetchQueues(d, st.families.value).value)
    ensures r.Success? ==> Reached(d, r.value, 6) && r.value.families == st.families && r.value.physicalDevice == st.physicalDevice
    ensures r.Success? ==> QueuesMatch(r.value.families.value, r.value.queues.value)
    ensures r.Success? ==> r.value.device == Some(h)
    ensures r.Success? ==> Keeps(st, r.value) && r.value.created == st.created + [HandleRef(DeviceHandle, h)]
  {
    var st1 := st.(device := Some(h), created := st.created + [HandleRef(DeviceHandle, h)]);
    DeviceExtendsLog(st, h);
    match FetchQueues(d, st.families.value)
    case Failure(e) => Failure(Aborted(st1, e))
    case Success(queues) => Success(st1.(queues := Some(queues)))
  }

  /** Creates the allocator; its handle is recorded only on success. */
  function CreateAllocatorStage(d: Driver, st: InitState): (r: Result<InitState, Aborted>)
    requires Reached(d, st, 6)
    ensures r.Failure? <==> d.createAllocator.result != SUCCESS
    ensures r.Failure? ==> r.error == Aborted(st, AllocatorError(d.createAllocator.result))
    ensures r.Failure? ==> FailedAt(d, r.error)
    ensures r.Success? ==> Reached(d, r.value, 7) && r.value.allocator == Some(d.createAllocator.handle)
    ensures r.Success? ==> r.value.families == st.families && r.value.physicalDevice == st.physicalDevice && r.value.queues == st.queues
    ensures r.Success? ==> Keeps(st, r.value) && r.value.created == st.created + [HandleRef(AllocatorHandle, d.createAllocator.handle)]
  {
    var call := d.createAllocator;
    if call.result != SUCCESS then Failure(Aborted(st, AllocatorError(call.result)))
    else Success(st.(allocator := Some(call.handle), created := st.created + [HandleRef(AllocatorHandle, call.handle)]))
  }

  /** The stages in order; the first failure stops the run. */
  function Pipeline(build: Build, cfg: RenderConfig, d: Driver): (r: Result<InitState, Aborted>)
    ensures r.Failure? ==> FailedAt(d, r.error) && ChoseBest(cfg, d, r.error)
    ensures r.Success? ==> Reached(d, r.value, 7)
    ensures r.Success? ==> IsBest(Ranks(d.physicalDevices, cfg.physicalDeviceRanker), r.value.physicalDevice.value)
    ensures r.Success? ==> ResolvedFor(build, cfg, d, r.value) && QueuesMatch(r.value.families.value, r.value.queues.value)
  {
    var s1 :- CreateInstanceStage(cfg, d);
    var s2 := SetupDebugMessengerStage(d, s1);
    var s3 :- CreateSurfaceStage(d, s2);
    var s4 :- PickPhysicalDeviceStage(cfg, d, s3);
    var s5 :- FindQueueFamiliesStage(build, cfg, d, s4);
    var s6 :- CreateLogicalDeviceStage(build, cfg, d, s5);
    CreateAllocatorStage(d, s6)
  }

  // ---------------------------------------------------------------------------
  // The whole attempt.

  /** The assembled context handed to the caller on success. */
  datatype RenderContext = RenderContext(
    config: RenderConfig,
    instance: Handle,
    debugMessenger: Option<Handle>,
    surface: Option<Handle>,
    physicalDevice: Handle,
    families: QueueFamilyIndices,
    device: Handle,
    queues: Queues,
    allocator: Handle)

  /**
   * One attempt: the context or the error rethrown, the handles created in
   * creation order, and the destroy calls `cleanup` made.
   */
  datatype InitOutcome = InitOutcome(result: Result<RenderContext, InitError>, created: seq<HandleRef>, destroyed: seq<HandleRef>)

  /** The handles a context holds, in the order the stages create them. */
  function ContextLog(c: RenderContext): seq<HandleRef> {
    [HandleRef(InstanceHandle, c.instance)]
    + Entry(DebugMessengerHandle, c.debugMessenger)
    + Entry(SurfaceHandle, c.surface)
    + [HandleRef(DeviceHandle, c.device), HandleRef(AllocatorHandle, c.allocator)]
  }

  /** The context handed out on success holds exactly the handles created, in creation order. */
  function Assemble(cfg: RenderConfig, d: Driver, st: InitState): (c: RenderContext)
    requires Reached(d, st, 7)
    ensures ContextLog(c) == st.created
    ensures c.physicalDevice == d.physicalDevices[st.physicalDevice.value].handle
    ensures c.families == st.families.value && c.queues == st.queues.value
  {
    CompletedLog(d, st);
    RenderContext(
      cfg,
      st.instance.value,
      st.debugMessenger,
      st.surface,
      d.physicalDevices[st.physicalDevice.value].handle,
      st.families.value,
      st.device.value,
      st.queues.value,
      st.allocator.value)
  }

  /**
   * Runs the stages; on a failure, `cleanup` destroys what was created, in
   * the reverse of the creation order, and the original error is reported.
   * On success nothing is destroyed.
   */
  function Init(build: Build, cfg: RenderConfig, d: Driver): (o: InitOutcome)
    ensures o.result.Failure? ==> o.destroyed == Reverse(o.created)
    ensures o.result.Success? ==> o.destroyed == []
    ensures o.created == DriverLog(build, cfg, d)
  {
    PipelineLogsDriverHandles(build, cfg, d);
    match Pipeline(build, cfg, d)
    case Success(st) =>
      InitOutcome(Success(Assemble(cfg, d, st)), st.created, [])
    case Failure(Aborted(st, e)) =>
      CleanupReversesCreation(st);
      InitOutcome(Failure(e), st.created, Cleanup(st))
  }

  /**
   * No leak and no double destroy: a failed attempt destroys every handle it
   * created exactly once and destroys nothing it did not create.
   */
  lemma FailedInitDestroysEachHandleOnce(build: Build, cfg: RenderConfig, d: Driver)
    ensures var o := Init(build, cfg, d);
      o.result.Failure? ==> multiset(o.destroyed) == multiset(DriverLog(build, cfg, d))
  {
    var o := Init(build, cfg, d);
    ReverseKeepsElements(o.created);
  }

  /** The handle of one kind the state holds. */
  function Held(st: InitState, kind: HandleKind): Option<Handle> {
    match kind
    case InstanceHandle => st.instance
    case DebugMessengerHandle => st.debugMessenger
    case SurfaceHandle => st.surface
    case DeviceHandle => st.device
    case AllocatorHandle => st.allocator
  }

  /** No event in `log` concerns a handle of `kind`. */
  ghost predicate Omits(log: seq<HandleRef>, kind: HandleKind) {
    forall k :: 0 <= k < |log| ==> log[k].kind != kind
  }

  lemma OmitsBoth(a: seq<HandleRef>, b: seq<HandleRef>, kind: HandleKind)
    requires Omits(a, kind) && Omits(b, kind)
    ensures Omits(a + b, kind)
  {
  }

  /** A consistent state whose handle of one kind is absent neither logs nor destroys one of that kind. */
  lemma AbsentKindNeverLogged(st: InitState, kind: HandleKind)
    requires Consistent(st) && Held(st, kind).None?
    ensures Omits(st.created, kind) && Omits(Cleanup(st), kind)
  {
    var i := Entry(InstanceHandle, st.instance);
    var m := Entry(DebugMessengerHandle, st.debugMessenger);
    var s := Entry(SurfaceHandle, st.surface);
    var v := Entry(DeviceHandle, st.device);
    var a := Entry(AllocatorHandle, st.allocator);
    assert Omits(i, kind) && Omits(m, kind) && Omits(s, kind) && Omits(v, kind) && Omits(a, kind);
    OmitsBoth(i, m, kind);
    OmitsBoth(i + m, s, kind);
    OmitsBoth(i + m + s, v, kind);
    OmitsBoth(i + m + s + v, a, kind);
    OmitsBoth(a, v, kind);
    OmitsBoth(a + v, s, kind);
    OmitsBoth(a + v + s, m, kind);
    OmitsBoth(a + v + s + m, i, kind);
  }

  lemma FailedHoldsNoAllocator(d: Driver, a: Aborted)
    requires FailedAt(d, a)
    ensures Omits(Cleanup(a.state), AllocatorHandle)
  {
    AbsentKindNeverLogged(a.state, AllocatorHandle);
  }

  lemma EarlyFailureHoldsNoDevice(d: Driver, a: Aborted)
    requires FailedAt(d, a) && FailingStage(a.error) < 5
    ensures Omits(a.state.created, DeviceHandle) && Omits(a.state.created, AllocatorHandle)
  {
    AbsentKindNeverLogged(a.state, DeviceHandle);
    AbsentKindNeverLogged(a.state, AllocatorHandle);
  }

  /** The allocator is created last, so `cleanup` never has one to destroy. */
  lemma AllocatorNeverDestroyed(build: Build, cfg: RenderConfig, d: Driver)
    ensures var o := Init(build, cfg, d);
      Omits(o.destroyed, AllocatorHandle)
  {
    var r := Pipeline(build, cfg, d);
    if r.Failure? {
      FailedHoldsNoAllocator(d, r.error);
      assert Init(build, cfg, d).destroyed == Cleanup(r.error.state);
    }
  }

  /** On success every created handle is in the context, in creation order. */
  lemma SuccessfulInitHoldsEveryHandle(build: Build, cfg: RenderConfig, d: Driver)
    ensures var o := Init(build, cfg, d);
      o.result.Success? ==> o.created == ContextLog(o.result.value)
  {
  }

  lemma CompletedLog(d: Driver, st: InitState)
    requires Reached(d, st, 7)
    ensures st.created ==
      [HandleRef(InstanceHandle, st.instance.value)]
      + Entry(DebugMessengerHandle, st.debugMessenger)
      + Entry(SurfaceHandle, st.surface)
      + [HandleRef(DeviceHandle, st.device.value), HandleRef(AllocatorHandle, st.allocator.value)]
  {
  }

  /**
   * A failure before the device stage (instance, surface, enumeration,
   * selection, queue families) creates and destroys no device and no
   * allocator: nothing after the failing stage runs.
   */
  lemma EarlyFailureCreatesNoDevice(build: Build, cfg: RenderConfig, d: Driver)
    ensures var o := Init(build, cfg, d);
      o.result.Failure? && FailingStage(o.result.error) < 5 ==>
        Omits(o.created, DeviceHandle) && Omits(o.created, AllocatorHandle)
  {
    var r := Pipeline(build, cfg, d);
    if r.Failure? && FailingStage(r.error.error) < 5 {
      EarlyFailureHoldsNoDevice(d, r.error);
      assert Init(build, cfg, d).created == r.error.state.created;
    }
  }

  /** After a null queue read, `cleanup` destroys the device first and the instance last. */
  lemma NullQueueCleanup(d: Driver, a: Aborted)
    requires FailedAt(d, a) && a.error.NullQueueHandle?
    ensures var log := Cleanup(a.state);
      |log| >= 2 && log[0].kind == DeviceHandle && log[|log| - 1].kind == InstanceHandle
  {
    var st := a.state;
    assert Cleanup(st) == [HandleRef(DeviceHandle, st.device.value)]
      + (Entry(SurfaceHandle, st.surface) + Entry(DebugMessengerHandle, st.debugMessenger))
      + [HandleRef(InstanceHandle, st.instance.value)];
  }

  /** A null queue read leaves the device to be destroyed first, before the surface, messenger and instance. */
  lemma NullQueueDestroysDeviceFirst(build: Build, cfg: RenderConfig, d: Driver)
    ensures var o := Init(build, cfg, d);
      o.result.Failure? && o.result.error.NullQueueHandle? ==>
        |o.destroyed| >= 2 && o.destroyed[0].kind == DeviceHandle && o.destroyed[|o.destroyed| - 1].kind == InstanceHandle
  {
    var r := Pipeline(build, cfg, d);
    if r.Failure? && r.error.error.NullQueueHandle? {
      NullQueueCleanup(d, r.error);
      assert Init(build, cfg, d).destroyed == Cleanup(r.error.state);
    }
  }

  /** Without a window system no surface is created, and the context has neither surface nor present family. */
  lemma HeadlessCreatesNoSurface(build: Build, cfg: RenderConfig, d: Driver)
    requires !d.windowed
    ensures var o := Init(build, cfg, d);
      && Omits(o.created, SurfaceHandle)
      && (o.result.Success? ==> o.result.value.surface.None? && o.result.value.families.present.None?)
      && (o.result.Success? ==> o.result.value.queues.present.None?)
  {
    match Pipeline(build, cfg, d)
    case Success(st) =>
      AbsentKindNeverLogged(st, SurfaceHandle);
      var device := d.physicalDevices[st.physicalDevice.value];
      assert Resolve(build, device.queueFamilies, Options(cfg, d), device.surfaceSupport) == Success(st.families.value);
    case Failure(a) =>
      AbsentKindNeverLogged(a.state, SurfaceHandle);
  }

  /**
   * With the per-family presentation query, the present family of a
   * successful windowed run is the first family of the chosen device that
   * supports presentation on the surface.
   */
  lemma CorrectedPresentFamilySupportsSurface(cfg: RenderConfig, d: Driver)
    requires d.windowed
    ensures var r := Pipeline(Corrected, cfg, d);
      r.Success? ==>
        var device := d.physicalDevices[r.value.physicalDevice.value];
        var present := r.value.families.value.present;
        present.Some? && device.surfaceSupport(present.value)
        && forall j: nat :: j < present.value ==> !device.surfaceSupport(j)
  {
    var r := Pipeline(Corrected, cfg, d);
    if r.Success? {
      var device := d.physicalDevices[r.value.physicalDevice.value];
      assert FirstAnswering(device.surfaceSupport, |device.queueFamilies|, r.value.families.value.present);
    }
  }

  /**
   * When the ranker rejects every device (all ranks negative), the attempt
   * fails and never creates a logical device or an allocator.
   */
  lemma NoEligibleDeviceCreatesNoDevice(build: Build, cfg: RenderConfig, d: Driver)
    requires NoneEligible(Ranks(d.physicalDevices, cfg.physicalDeviceRanker))
    ensures var o := Init(build, cfg, d);
      o.result.Failure? && FailingStage(o.result.error) <= 3
      && Omits(o.created, DeviceHandle) && Omits(o.created, AllocatorHandle)
  {
    var r := Pipeline(build, cfg, d);
    if r.Failure? {
      EarlyFailureHoldsNoDevice(d, r.error);
      assert Init(build, cfg, d).created == r.error.state.created;
    }
  }

  /**
   * The error of the first failing check from device creation on, for the
   * resolved families `q`; `None` when device, queues and allocator all
   * come up.
   */
  function DeviceError(build: Build, cfg: RenderConfig, d: Driver, q: QueueFamilyIndices, validation: bool): Option<InitError> {
    var device := d.createDevice(BuildDeviceRequest(build, cfg, q, validation));
    if device.result != SUCCESS then Some(VulkanError(device.result, CreatingDevice))
    else if SomeQueueNull(d, q) then Some(FetchQueues(d, q).error)
    else if d.createAllocator.result != SUCCESS then Some(AllocatorError(d.createAllocator.result))
    else None
  }

  /**
   * The error of the first check that fails, in stage order, read off the
   * driver's answers; `None` when every check passes. The debug messenger
   * is absent: its failure is not an error.
   */
  function FirstError(build: Build, cfg: RenderConfig, d: Driver): Option<InitError> {
    match InstanceRequestFor(cfg, d)
    case Failure(reason) => Some(RenderError(reason))
    case Success(request) =>
      if d.createInstance(request).result != SUCCESS then Some(VulkanError(d.createInstance(request).result, CreatingInstance))
      else if d.windowed && d.createSurface.result != SUCCESS then Some(VulkanError(d.createSurface.result, CreatingSurface))
      else match Pick(cfg, d)
        case Failure(e) => Some(e)
        case Success(k) =>
          match ResolveOn(build, cfg, d, k)
          case Failure(reason) => Some(RenderError(reason))
          case Success(q) => DeviceError(build, cfg, d, q, ValidationEnabled(d.assertionsEnabled, d.layerQuery))
  }

  /** The last two stages stop at the first failing check of `DeviceError`. */
  lemma DeviceStagesStopAtFirstError(build: Build, cfg: RenderConfig, d: Driver, st: InitState)
    requires Reached(d, st, 5)
    ensures var r6 := CreateLogicalDeviceStage(build, cfg, d, st);
      var r := if r6.Failure? then Failure(r6.error) else CreateAllocatorStage(d, r6.value);
      var e := DeviceError(build, cfg, d, st.families.value, st.validation);
      && (r.Failure? <==> e.Some?)
      && (r.Failure? ==> r.error.error == e.value)
  {
  }

  /** A run that fails before the device stages stops at the same check `FirstError` names. */
  lemma EarlyStagesStopAtFirstError(build: Build, cfg: RenderConfig, d: Driver)
    requires CreateInstanceStage(cfg, d).Success? ==>
      var s3 := CreateSurfaceStage(d, SetupDebugMessengerStage(d, CreateInstanceStage(cfg, d).value));
      s3.Success? ==>
        var s4 := PickPhysicalDeviceStage(cfg, d, s3.value);
        s4.Success? ==> FindQueueFamiliesStage(build, cfg, d, s4.value).Failure?
    ensures Pipeline(build, cfg, d).Failure? && FirstError(build, cfg, d) == Some(Pipeline(build, cfg, d).error.error)
  {
  }

  /** A run that reaches the device stages fails exactly where `DeviceError` says. */
  lemma LateStagesStopAtFirstError(build: Build, cfg: RenderConfig, d: Driver, st: InitState)
    requires CreateInstanceStage(cfg, d).Success?
    requires var s3 := CreateSurfaceStage(d, SetupDebugMessengerStage(d, CreateInstanceStage(cfg, d).value));
      && s3.Success?
      && var s4 := PickPhysicalDeviceStage(cfg, d, s3.value);
      && s4.Success?
      && FindQueueFamiliesStage(build, cfg, d, s4.value) == Success(st)
    ensures Reached(d, st, 5)
    ensures FirstError(build, cfg, d) == DeviceError(build, cfg, d, st.families.value, st.validation)
    ensures var r6 := CreateLogicalDeviceStage(build, cfg, d, st);
      Pipeline(build, cfg, d) == if r6.Failure? then Failure(r6.error) else CreateAllocatorStage(d, r6.value)
  {
  }

  /**
   * The stages stop at the first failing check: the run fails exactly when
   * some check fails, and with that check's error.
   */
  lemma PipelineStopsAtFirstError(build: Build, cfg: RenderConfig, d: Driver)
    ensures var r := Pipeline(build, cfg, d);
      && (r.Failure? <==> FirstError(build, cfg, d).Some?)
      && (r.Failure? ==> r.error.error == FirstError(build, cfg, d).value)
  {
    var r1 := CreateInstanceStage(cfg, d);
    if r1.Success? {
      var r3 := CreateSurfaceStage(d, SetupDebugMessengerStage(d, r1.value));
      if r3.Success? {
        var r4 := PickPhysicalDeviceStage(cfg, d, r3.value);
        if r4.Success? {
          var r5 := FindQueueFamiliesStage(build, cfg, d, r4.value);
          if r5.Success? {
            LateStagesStopAtFirstError(build, cfg, d, r5.value);
            DeviceStagesStopAtFirstError(build, cfg, d, r5.value);
            return;
          }
        }
      }
    }
    EarlyStagesStopAtFirstError(build, cfg, d);
  }

  // ---------------------------------------------------------------------------
  // The handles the driver hands out, read off its answers.

  /**
   * The handles the driver hands out from device creation on, for the
   * resolved families `q`: the device when `vkCreateDevice` succeeds, then
   * the allocator when every queue reads back and `vmaCreateAllocator`
   * succeeds.
   */
  function DeviceTail(build: Build, cfg: RenderConfig, d: Driver, q: QueueFamilyIndices, validation: bool): seq<HandleRef> {
    var device := d.createDevice(BuildDeviceRequest(build, cfg, q, validation));
    if device.result != SUCCESS then []
    else if SomeQueueNull(d, q) || d.createAllocator.result != SUCCESS then [HandleRef(DeviceHandle, device.handle)]
    else [HandleRef(DeviceHandle, device.handle), HandleRef(AllocatorHandle, d.createAllocator.handle)]
  }

  /**
   * Every handle one attempt obtains from the driver, in the order the
   * driver returns them: each creating call that is reached and succeeds
   * contributes its handle, and the attempt stops at the first failing
   * check. A failed debug-messenger call contributes nothing and stops
   * nothing.
   */
  function DriverLog(build: Build, cfg: RenderConfig, d: Driver): seq<HandleRef> {
    match InstanceRequestFor(cfg, d)
    case Failure(_) => []
    case Success(request) =>
      var instance := d.createInstance(request);
      if instance.result != SUCCESS then []
      else
        var validation := ValidationEnabled(d.assertionsEnabled, d.layerQuery);
        var messenger := if validation && d.createDebugMessenger.result == SUCCESS
          then [HandleRef(DebugMessengerHandle, d.createDebugMessenger.handle)] else [];
        var front := [HandleRef(InstanceHandle, instance.handle)] + messenger;
        if d.windowed && d.createSurface.result != SUCCESS then front
        else
          var surface := if d.windowed then [HandleRef(SurfaceHandle, d.createSurface.handle)] else [];
          front + surface +
            match Pick(cfg, d)
            case Failure(_) => []
            case Success(k) =>
              match ResolveOn(build, cfg, d, k)
              case Failure(_) => []
              case Success(q) => DeviceTail(build, cfg, d, q, validation)
  }

  /** The creation log a run leaves, whether it succeeded or failed. */
  function LogOf(r: Result<InitState, Aborted>): seq<HandleRef> {
    if r.Success? then r.value.created else r.error.state.created
  }

  /** The last two stages log exactly the handles of `DeviceTail`. */
  lemma DeviceStagesLogDriverHandles(build: Build, cfg: RenderConfig, d: Driver, st: InitState)
    requires Reached(d, st, 5)
    ensures var r6 := CreateLogicalDeviceStage(build, cfg, d, st);
      var r := if r6.Failure? then Failure(r6.error) else CreateAllocatorStage(d, r6.value);
      LogOf(r) == st.created + DeviceTail(build, cfg, d, st.families.value, st.validation)
  {
  }

  /** A run that fails before the device stages has logged exactly the handles `DriverLog` lists. */
  lemma EarlyStagesLogDriverHandles(build: Build, cfg: RenderConfig, d: Driver)
    requires CreateInstanceStage(cfg, d).Success? ==>
      var s3 := CreateSurfaceStage(d, SetupDebugMessengerStage(d, CreateInstanceStage(cfg, d).value));
      s3.Success? ==>
        var s4 := PickPhysicalDeviceStage(cfg, d, s3.value);
        s4.Success? ==> FindQueueFamiliesStage(build, cfg, d, s4.value).Failure?
    ensures LogOf(Pipeline(build, cfg, d)) == DriverLog(build, cfg, d)
  {
    EarlyStagesStopAtFirstError(build, cfg, d);
  }

  /** A run that reaches the device stages has logged the front of `DriverLog`, and `DeviceTail` is the rest. */
  lemma LateStagesLogDriverHandles(build: Build, cfg: RenderConfig, d: Driver, st: InitState)
    requires CreateInstanceStage(cfg, d).Success?
    requires var s3 := CreateSurfaceStage(d, SetupDebugMessengerStage(d, CreateInstanceStage(cfg, d).value));
      && s3.Success?
      && var s4 := PickPhysicalDeviceStage(cfg, d, s3.value);
      && s4.Success?
      && FindQueueFamiliesStage(build, cfg, d, s4.value) == Success(st)
    ensures Reached(d, st, 5)
    ensures DriverLog(build, cfg, d) == st.created + DeviceTail(build, cfg, d, st.families.value, st.validation)
  {
  }

  /**
   * The creation log of a run, failed or not, is exactly the handles the
   * driver handed out: no handle is lost, replaced or invented.
   */
  lemma PipelineLogsDriverHandles(build: Build, cfg: RenderConfig, d: Driver)
    ensures LogOf(Pipeline(build, cfg, d)) == DriverLog(build, cfg, d)
  {
    var r1 := CreateInstanceStage(cfg, d);
    if r1.Success? {
      var r3 := CreateSurfaceStage(d, SetupDebugMessengerStage(d, r1.value));
      if r3.Success? {
        var r4 := PickPhysicalDeviceStage(cfg, d, r3.value);
        if r4.Success? {
          var r5 := FindQueueFamiliesStage(build, cfg, d, r4.value);
          if r5.Success? {
            LateStagesStopAtFirstError(build, cfg, d, r5.value);
            LateStagesLogDriverHandles(build, cfg, d, r5.value);
            DeviceStagesLogDriverHandles(build, cfg, d, r5.value);
            return;
          }
        }
      }
    }
    EarlyStagesLogDriverHandles(build, cfg, d);
  }

  /** `init` rethrows the error of the first failing check, and succeeds when no check fails. */
  lemma InitReportsFirstError(build: Build, cfg: RenderConfig, d: Driver)
    ensures var o := Init(build, cfg, d);
      && (o.result.Failure? <==> FirstError(build, cfg, d).Some?)
      && (o.result.Failure? ==> o.result.error == FirstError(build, cfg, d).value)
  {
    PipelineStopsAtFirstError(build, cfg, d);
  }

  /**
   * When every driver and window-system call succeeds, some device ranks
   * non-negative, the best-ranked device's queue families resolve and no
   * queue reads back null, no check fails.
   */
  lemma NoCheckFails(build: Build, cfg: RenderConfig, d: Driver)
    requires d.windowed ==> d.glfwInstanceExtensions.Some? && d.createSurface.result == SUCCESS
    requires forall request :: d.createInstance(request).result == SUCCESS
    requires d.enumerateCountResult == SUCCESS && d.enumerateListResult == SUCCESS
    requires exists j :: 0 <= j < |d.physicalDevices| && cfg.physicalDeviceRanker(d.physicalDevices[j].properties) >= 0
    requires forall k :: 0 <= k < |d.physicalDevices| && IsBest(Ranks(d.physicalDevices, cfg.physicalDeviceRanker), k) ==>
      ResolveOn(build, cfg, d, k).Success?
    requires forall request :: d.createDevice(request).result == SUCCESS
    requires forall family: nat :: d.deviceQueue(family).Some?
    requires d.createAllocator.result == SUCCESS
    ensures FirstError(build, cfg, d) == None
  {
    var ranks := Ranks(d.physicalDevices, cfg.physicalDeviceRanker);
    var j :| 0 <= j < |d.physicalDevices| && cfg.physicalDeviceRanker(d.physicalDevices[j].properties) >= 0;
    assert ranks[j] >= 0;
    var k := Pick(cfg, d).value;
    var q := ResolveOn(build, cfg, d, k).value;
    assert DeviceError(build, cfg, d, q, ValidationEnabled(d.assertionsEnabled, d.layerQuery)) == None;
  }

  /** Under the same conditions `init` hands out a context. */
  lemma EveryCallSucceedingGivesContext(build: Build, cfg: RenderConfig, d: Driver)
    requires d.windowed ==> d.glfwInstanceExtensions.Some? && d.createSurface.result == SUCCESS
    requires forall request :: d.createInstance(request).result == SUCCESS
    requires d.enumerateCountResult == SUCCESS && d.enumerateListResult == SUCCESS
    requires exists j :: 0 <= j < |d.physicalDevices| && cfg.physicalDeviceRanker(d.physicalDevices[j].properties) >= 0
    requires forall k :: 0 <= k < |d.physicalDevices| && IsBest(Ranks(d.physicalDevices, cfg.physicalDeviceRanker), k) ==>
      ResolveOn(build, cfg, d, k).Success?
    requires forall request :: d.createDevice(request).result == SUCCESS
    requires forall family: nat :: d.deviceQueue(family).Some?
    requires d.createAllocator.result == SUCCESS
    ensures Init(build, cfg, d).result.Success?
  {
    NoCheckFails(build, cfg, d);
    InitReportsFirstError(build, cfg, d);
  }
}
