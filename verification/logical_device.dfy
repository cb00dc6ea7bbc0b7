/**
 * The request handed to `vkCreateDevice`: one queue-create entry per
 * resolved role (graphics and present sharing one entry when they coincide),
 * the device extension set and the enabled features.
 */
module LogicalDevice {
  import opened Wrappers
  import opened Vulkan
  import opened QueueFamilies

  /** One `VkDeviceQueueCreateInfo`: a family, how many queues, their priority. */
  datatype QueueCreateInfo = QueueCreateInfo(queueFamilyIndex: nat, queueCount: nat, priority: real)

  const QUEUE_PRIORITY: real := 1.0

  function SingleQueue(family: nat): QueueCreateInfo {
    QueueCreateInfo(family, 1, QUEUE_PRIORITY)
  }

  /** The only deduplication the source performs: present against graphics. */
  predicate PresentHasOwnEntry(q: QueueFamilyIndices) {
    q.present.Some? && q.present.value != q.graphics
  }

  /**
   * The counting pass, before any entry is written: one for graphics, one
   * for a present family other than graphics, one each for dedicated
   * transfer and compute. It is the length of the entry list as written.
   */
  function QueueCreateInfoCount(q: QueueFamilyIndices): (count: nat)
    ensures 1 <= count <= 4
    ensures count == |FamilyOrder(q)|
  {
    1
    + (if PresentHasOwnEntry(q) then 1 else 0)
    + (if q.transfer.Some? then 1 else 0)
    + (if q.compute.Some? then 1 else 0)
  }

  function Optional(x: Option<nat>): seq<nat> {
    if x.Some? then [x.value] else []
  }

  /** The families of the entries as written: graphics, present, transfer, compute. */
  function FamilyOrder(q: QueueFamilyIndices): (order: seq<nat>)
    ensures |order| > 0 && order[0] == q.graphics
    ensures forall x :: x in order <==>
      x == q.graphics || q.present == Some(x) || q.transfer == Some(x) || q.compute == Some(x)
  {
    [q.graphics]
    + (if PresentHasOwnEntry(q) then [q.present.value] else [])
    + Optional(q.transfer)
    + Optional(q.compute)
  }

  ghost predicate Distinct(s: seq<nat>) {
    forall i, j :: 0 <= i < j < |s| ==> s[i] != s[j]
  }

  /** Appends a resolved family unless an earlier entry already uses it. */
  function AppendNew(s: seq<nat>, x: Option<nat>): (r: seq<nat>)
    ensures Distinct(s) ==> Distinct(r)
    ensures forall y :: y in r <==> y in s || x == Some(y)
    ensures |s| <= |r| && r[..|s|] == s
  {
    if x.Some? && x.value !in s then s + [x.value] else s
  }

  /**
   * The families of the entries with every duplicate dropped, in the same
   * role order; the Vulkan specification requires the families of
   * `pQueueCreateInfos` to be unique.
   */
  function DistinctFamilyOrder(q: QueueFamilyIndices): (order: seq<nat>)
    ensures |order| > 0 && order[0] == q.graphics
    ensures Distinct(order)
    ensures forall x :: x in order <==>
      x == q.graphics || q.present == Some(x) || q.transfer == Some(x) || q.compute == Some(x)
  {
    AppendNew(AppendNew(AppendNew([q.graphics], q.present), q.transfer), q.compute)
  }

  function Families(build: Build, q: QueueFamilyIndices): seq<nat> {
    match build
    case AsWritten => FamilyOrder(q)
    case Corrected => DistinctFamilyOrder(q)
  }

  /** One single-queue entry per family in `Families(build, q)`. */
  function QueueCreateInfos(build: Build, q: QueueFamilyIndices): (infos: seq<QueueCreateInfo>)
    ensures |infos| == |Families(build, q)|
    ensures forall k :: 0 <= k < |infos| ==> infos[k] == SingleQueue(Families(build, q)[k])
  {
    var order := Families(build, q);
    seq(|order|, k requires 0 <= k < |order| => SingleQueue(order[k]))
  }

  /**
   * The source's two-pass construction: count the entries, allocate that
   * many, then write them through a running index. Every write lands inside
   * the allocation, and the result is the as-written entry list.
   */
  method FillQueueCreateInfos(q: QueueFamilyIndices) returns (infos: seq<QueueCreateInfo>)
    ensures |infos| == QueueCreateInfoCount(q)
    ensures infos == QueueCreateInfos(AsWritten, q)
  {
    var count := QueueCreateInfoCount(q);
    var a := new QueueCreateInfo[count](_ => SingleQueue(q.graphics));
    var nth := 0;
    a[nth] := SingleQueue(q.graphics);
    nth := nth + 1;
    if PresentHasOwnEntry(q) {
      a[nth] := SingleQueue(q.present.value);
      nth := nth + 1;
    }
    if q.transfer.Some? {
      a[nth] := SingleQueue(q.transfer.value);
      nth := nth + 1;
    }
    if q.compute.Some? {
      a[nth] := SingleQueue(q.compute.value);
    }
    infos := a[..];
  }

  /**
   * As written, entries are duplicate-free exactly when the present family
   * does not coincide with a dedicated transfer or compute family (the
   * other role pairs being kept apart by the resolver).
   */
  lemma {:induction false} AsWrittenDistinctUnlessPresentOverlaps(q: QueueFamilyIndices)
    requires RolesDisjoint(q)
    ensures Distinct(FamilyOrder(q)) <==>
      !(PresentHasOwnEntry(q) && (q.present == q.transfer || q.present == q.compute))
  {
    var order := FamilyOrder(q);
    if PresentHasOwnEntry(q) && q.present == q.transfer {
      assert order[1] == order[2];
    } else if PresentHasOwnEntry(q) && q.present == q.compute {
      var k := if q.transfer.Some? then 3 else 2;
      assert order[1] == order[k];
    }
  }

  /** When nothing overlaps, the corrected entry list is the as-written one. */
  lemma {:induction false} CorrectedAgreesWithoutOverlap(q: QueueFamilyIndices)
    requires RolesDisjoint(q)
    requires !(PresentHasOwnEntry(q) && (q.present == q.transfer || q.present == q.compute))
    ensures DistinctFamilyOrder(q) == FamilyOrder(q)
  {
    var a := AppendNew([q.graphics], q.present);
    assert a == [q.graphics] + (if PresentHasOwnEntry(q) then [q.present.value] else []);
    var b := AppendNew(a, q.transfer);
    assert b == a + Optional(q.transfer);
    assert AppendNew(b, q.compute) == b + Optional(q.compute);
  }

  /**
   * The deduplication defect, on the resolver as written: a transfer-only
   * family 0 and a graphics-and-compute family 1, with the family-1 surface
   * query answering yes, make family 0 both the present and the dedicated
   * transfer family, and the entry list names family 0 twice. Dropping
   * duplicates gives one entry per family.
   */
  lemma DuplicateQueueFamilyReachable()
    ensures var families := [QUEUE_TRANSFER, QUEUE_GRAPHICS | QUEUE_COMPUTE];
            var o := ResolveOptions(true, false, false);
            var r := FindQueueFamilyIndices(families, o, (i: nat) => i == 1);
            && r == Success(QueueFamilyIndices(1, Some(0), Some(0), None))
            && FamilyOrder(r.value) == [1, 0, 0]
            && !Distinct(FamilyOrder(r.value))
            && DistinctFamilyOrder(r.value) == [1, 0]
  {
    var families := [QUEUE_TRANSFER, QUEUE_GRAPHICS | QUEUE_COMPUTE];
    var o := ResolveOptions(true, false, false);
    var support := (i: nat) => i == 1;
    var asWritten := (i: nat) => support(1);
    assert Qualifies(DedicatedTransfer, QUEUE_TRANSFER) && !Qualifies(Graphics, QUEUE_TRANSFER);
    assert Qualifies(Graphics, QUEUE_GRAPHICS | QUEUE_COMPUTE);
    assert !Qualifies(DedicatedCompute, QUEUE_TRANSFER) && !Qualifies(DedicatedCompute, QUEUE_GRAPHICS | QUEUE_COMPUTE);
    var s1 := Visit(NOTHING_FOUND, 0, QUEUE_TRANSFER, true, o);
    assert s1 == Scan(None, Some(0), Some(0), None);
    assert Visit(s1, 1, QUEUE_GRAPHICS | QUEUE_COMPUTE, true, o) == Scan(Some(1), Some(0), Some(0), None);
    assert ScanFrom(families, asWritten, o, 0, NOTHING_FOUND) == Scan(Some(1), Some(0), Some(0), None);
    var q := QueueFamilyIndices(1, Some(0), Some(0), None);
    assert FamilyOrder(q)[1] == FamilyOrder(q)[2];
    assert AppendNew([1], Some(0)) == [1, 0];
  }

  /**
   * One graphics-only, one transfer-only and one compute-only family give
   * three roles on three families and three distinct queue-create entries.
   */
  lemma ThreeDedicatedFamilies()
    ensures var families := [QUEUE_GRAPHICS, QUEUE_TRANSFER, QUEUE_COMPUTE];
            var r := FindQueueFamilyIndices(families, ResolveOptions(false, false, false), (i: nat) => false);
            && r == Success(QueueFamilyIndices(0, None, Some(1), Some(2)))
            && QueueCreateInfos(AsWritten, r.value) == [SingleQueue(0), SingleQueue(1), SingleQueue(2)]
  {
    var families := [QUEUE_GRAPHICS, QUEUE_TRANSFER, QUEUE_COMPUTE];
    var o := ResolveOptions(false, false, false);
    var answer := (i: nat) => false;
    assert Qualifies(Graphics, QUEUE_GRAPHICS) && !Qualifies(DedicatedTransfer, QUEUE_GRAPHICS) && !Qualifies(DedicatedCompute, QUEUE_GRAPHICS);
    assert !Qualifies(Graphics, QUEUE_TRANSFER) && Qualifies(DedicatedTransfer, QUEUE_TRANSFER) && !Qualifies(DedicatedCompute, QUEUE_TRANSFER);
    assert !Qualifies(Graphics, QUEUE_COMPUTE) && !Qualifies(DedicatedTransfer, QUEUE_COMPUTE) && Qualifies(DedicatedCompute, QUEUE_COMPUTE);
    var s1 := Visit(NOTHING_FOUND, 0, QUEUE_GRAPHICS, false, o);
    assert s1 == Scan(Some(0), None, None, None);
    var s2 := Visit(s1, 1, QUEUE_TRANSFER, false, o);
    assert s2 == Scan(Some(0), None, Some(1), None);
    var s3 := Visit(s2, 2, QUEUE_COMPUTE, false, o);
    assert s3 == Scan(Some(0), None, Some(1), Some(2));
    assert ScanFrom(families, answer, o, 2, s2) == s3;
    assert ScanFrom(families, answer, o, 0, NOTHING_FOUND) == s3;
    var q := QueueFamilyIndices(0, None, Some(1), Some(2));
    assert FamilyOrder(q) == [0, 1, 2];
  }

  /** The physical-device features switched on. */
  datatype DeviceFeatures = DeviceFeatures(sampleRateShading: bool, samplerAnisotropy: bool, dynamicRendering: bool)

  /**
   * Sample-rate shading and dynamic rendering are always on; anisotropic
   * filtering follows the configuration.
   */
  function RequestedFeatures(cfg: RenderConfig): (f: DeviceFeatures)
    ensures f.sampleRateShading && f.dynamicRendering
    ensures f.samplerAnisotropy <==> cfg.enableAnisotropicFiltering
  {
    DeviceFeatures(true, cfg.enableAnisotropicFiltering, true)
  }

  const ALWAYS_DEVICE_EXTENSIONS: set<string> := {
    KHR_DYNAMIC_RENDERING, KHR_PUSH_DESCRIPTOR, KHR_DEPTH_STENCIL_RESOLVE,
    KHR_CREATE_RENDERPASS_2, KHR_MULTIVIEW, KHR_MAINTENANCE_2
  }

  const HOST_COPY_DEVICE_EXTENSIONS: set<string> := {
    EXT_HOST_IMAGE_COPY, KHR_COPY_COMMANDS_2, KHR_FORMAT_FEATURE_FLAGS_2
  }

  /** The device extension set: baseline, swapchain when presenting, the host-copy bundle when enabled, and the caller's extras. */
  function DeviceExtensions(cfg: RenderConfig, present: Option<nat>): (exts: set<string>)
    ensures ALWAYS_DEVICE_EXTENSIONS <= exts
    ensures forall e :: e in cfg.additionalDeviceExtensions ==> e in exts
    ensures cfg.enableHostCopy ==> HOST_COPY_DEVICE_EXTENSIONS <= exts
    ensures KHR_SWAPCHAIN in exts <==> present.Some? || KHR_SWAPCHAIN in cfg.additionalDeviceExtensions
    ensures forall e :: e in exts ==>
      || e in ALWAYS_DEVICE_EXTENSIONS
      || (present.Some? && e == KHR_SWAPCHAIN)
      || (cfg.enableHostCopy && e in HOST_COPY_DEVICE_EXTENSIONS)
      || e in cfg.additionalDeviceExtensions
  {
    ALWAYS_DEVICE_EXTENSIONS
    + (if present.Some? then {KHR_SWAPCHAIN} else {})
    + (if cfg.enableHostCopy then HOST_COPY_DEVICE_EXTENSIONS else {})
    + (set e | e in cfg.additionalDeviceExtensions)
  }

  /** Without host copy (and no caller asking for them), none of the host-copy extensions is requested. */
  lemma HostCopyOnlyWhenEnabled(cfg: RenderConfig, present: Option<nat>)
    requires forall e :: e in HOST_COPY_DEVICE_EXTENSIONS ==> e !in cfg.additionalDeviceExtensions
    ensures (HOST_COPY_DEVICE_EXTENSIONS <= DeviceExtensions(cfg, present)) <==> cfg.enableHostCopy
    ensures !cfg.enableHostCopy ==> DeviceExtensions(cfg, present) !! HOST_COPY_DEVICE_EXTENSIONS
  {
    var exts := DeviceExtensions(cfg, present);
    if !cfg.enableHostCopy {
      assert EXT_HOST_IMAGE_COPY !in exts;
    }
  }

  /** What `vkCreateDevice` is asked for. */
  datatype DeviceRequest = DeviceRequest(
    queueCreateInfos: seq<QueueCreateInfo>,
    extensions: set<string>,
    features: DeviceFeatures,
    layers: seq<string>)

  /**
   * The create-info of `vkCreateDevice`: the entries are led by the graphics
   * family, the baseline features are on, and the validation layer is the
   * one layer listed, exactly when validation is on.
   */
  function BuildDeviceRequest(build: Build, cfg: RenderConfig, q: QueueFamilyIndices, validation: bool): (req: DeviceRequest)
    ensures |req.queueCreateInfos| > 0 && req.queueCreateInfos[0] == SingleQueue(q.graphics)
    ensures req.features.sampleRateShading && req.features.dynamicRendering
    ensures req.layers == (if validation then [VALIDATION_LAYER_NAME] else [])
    ensures req.queueCreateInfos == QueueCreateInfos(build, q)
    ensures req.extensions == DeviceExtensions(cfg, q.present)
    ensures req.features == RequestedFeatures(cfg)
  {
    DeviceRequest(
      QueueCreateInfos(build, q),
      DeviceExtensions(cfg, q.present),
      RequestedFeatures(cfg),
      if validation then [VALIDATION_LAYER_NAME] else [])
  }

  /**
   * The device request: the graphics entry comes first and every entry asks
   * for one queue; as written there are exactly `QueueCreateInfoCount` entries;
   * the swapchain extension is requested exactly when a presentation family
   * was resolved (or the caller asked for it); anisotropic filtering follows
   * the configuration; the validation layer is requested exactly when
   * validation is on.
   */
  lemma DeviceRequestContents(build: Build, cfg: RenderConfig, q: QueueFamilyIndices, validation: bool)
    ensures var req := BuildDeviceRequest(build, cfg, q, validation);
      && |req.queueCreateInfos| > 0 && req.queueCreateInfos[0] == SingleQueue(q.graphics)
      && (forall k :: 0 <= k < |req.queueCreateInfos| ==> req.queueCreateInfos[k].queueCount == 1)
      && (build == AsWritten ==> |req.queueCreateInfos| == QueueCreateInfoCount(q))
      && (KHR_SWAPCHAIN in req.extensions <==> q.present.Some? || KHR_SWAPCHAIN in cfg.additionalDeviceExtensions)
      && (req.features.samplerAnisotropy <==> cfg.enableAnisotropicFiltering)
      && (|req.layers| > 0 <==> validation)
  {
  }

  /** The families the entries of a request name, in order. */
  function EntryFamilies(infos: seq<QueueCreateInfo>): (families: seq<nat>)
    ensures |families| == |infos|
    ensures forall k :: 0 <= k < |infos| ==> families[k] == infos[k].queueFamilyIndex
  {
    seq(|infos|, k requires 0 <= k < |infos| => infos[k].queueFamilyIndex)
  }

  /**
   * The request sent to `vkCreateDevice` names exactly the resolved
   * families, graphics first; as written in the order graphics, present,
   * transfer, compute, and corrected with each family once.
   */
  lemma RequestNamesResolvedFamilies(build: Build, cfg: RenderConfig, q: QueueFamilyIndices, validation: bool)
    ensures var families := EntryFamilies(BuildDeviceRequest(build, cfg, q, validation).queueCreateInfos);
      && families[0] == q.graphics
      && (forall x :: x in families <==>
            x == q.graphics || q.present == Some(x) || q.transfer == Some(x) || q.compute == Some(x))
      && (build == AsWritten ==> families == FamilyOrder(q))
      && (build == Corrected ==> Distinct(families))
  {
    var families := EntryFamilies(BuildDeviceRequest(build, cfg, q, validation).queueCreateInfos);
    assert families == Families(build, q);
  }

  /**
   * The corrected run asks for each queue family once: no two entries of
   * its `vkCreateDevice` request share a `queueFamilyIndex`.
   */
  lemma CorrectedRequestsEachFamilyOnce(cfg: RenderConfig, q: QueueFamilyIndices, validation: bool)
    ensures var infos := BuildDeviceRequest(Corrected, cfg, q, validation).queueCreateInfos;
      forall i, j :: 0 <= i < j < |infos| ==> infos[i].queueFamilyIndex != infos[j].queueFamilyIndex
  {
    RequestNamesResolvedFamilies(Corrected, cfg, q, validation);
    var infos := BuildDeviceRequest(Corrected, cfg, q, validation).queueCreateInfos;
    var families := EntryFamilies(infos);
    forall i, j | 0 <= i < j < |infos|
      ensures infos[i].queueFamilyIndex != infos[j].queueFamilyIndex
    {
      assert families[i] != families[j];
    }
  }
}
