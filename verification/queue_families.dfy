/**
 * Queue-family resolution: one ascending scan over the chosen device's
 * queue families that assigns, first match wins, a graphics family, a
 * presentation family (windowed mode only), a dedicated transfer family and a
 * dedicated compute family.
 */
module QueueFamilies {
  import opened Wrappers
  import opened Vulkan

  /** The roles decided from a family's flag word alone. */
  datatype Role = Graphics | DedicatedTransfer | DedicatedCompute

  /**
   * Graphics needs the GRAPHICS bit; a dedicated transfer family has TRANSFER
   * and neither GRAPHICS nor COMPUTE; a dedicated compute family has COMPUTE
   * and not GRAPHICS.
   */
  predicate Qualifies(role: Role, flags: QueueFlags) {
    match role
    case Graphics => flags & QUEUE_GRAPHICS != 0
    case DedicatedTransfer => flags & QUEUE_TRANSFER != 0 && flags & (QUEUE_GRAPHICS | QUEUE_COMPUTE) == 0
    case DedicatedCompute => flags & QUEUE_COMPUTE != 0 && flags & QUEUE_GRAPHICS == 0
  }

  /** No flag word qualifies for two different roles. */
  lemma RolesExclude(flags: QueueFlags, r1: Role, r2: Role)
    requires Qualifies(r1, flags) && Qualifies(r2, flags)
    ensures r1 == r2
  {
  }

  /** The parts of the configuration and platform the scan consults. */
  datatype ResolveOptions = ResolveOptions(windowed: bool, noTransferQueue: bool, noComputeQueue: bool)

  /** The four indices while the scan runs; `None` is the source's -1. */
  datatype Scan = Scan(graphics: Option<nat>, present: Option<nat>, transfer: Option<nat>, compute: Option<nat>)

  const NOTHING_FOUND: Scan := Scan(None, None, None, None)

  /** The resolved indices: graphics always, the other three when found. */
  datatype QueueFamilyIndices = QueueFamilyIndices(graphics: nat, present: Option<nat>, transfer: Option<nat>, compute: Option<nat>)

  /** `found` is the least family below `n` qualifying for `role`, or `None` if there is none. */
  ghost predicate FirstOf(families: seq<QueueFlags>, role: Role, n: nat, found: Option<nat>)
    requires n <= |families|
  {
    match found
    case None => forall j :: 0 <= j < n ==> !Qualifies(role, families[j])
    case Some(k) =>
      && k < n
      && Qualifies(role, families[k])
      && forall j :: 0 <= j < k ==> !Qualifies(role, families[j])
  }

  /** `found` is the least index below `n` whose presentation answer is yes, or `None` if there is none. */
  ghost predicate FirstAnswering(answer: nat -> bool, n: nat, found: Option<nat>) {
    match found
    case None => forall j: nat :: j < n ==> !answer(j)
    case Some(k) => k < n && answer(k) && forall j: nat :: j < k ==> !answer(j)
  }

  /**
   * What the scan knows after the first `n` families, where `answer(i)` is
   * the presentation answer the scan saw at step `i`. A role that is switched
   * off (headless for present, `no*Queue` for transfer and compute) stays
   * unassigned.
   */
  ghost predicate Scanned(families: seq<QueueFlags>, answer: nat -> bool, o: ResolveOptions, n: nat, s: Scan)
    requires n <= |families|
  {
    && FirstOf(families, Graphics, n, s.graphics)
    && (if o.windowed then FirstAnswering(answer, n, s.present) else s.present.None?)
    && (if o.noTransferQueue then s.transfer.None? else FirstOf(families, DedicatedTransfer, n, s.transfer))
    && (if o.noComputeQueue then s.compute.None? else FirstOf(families, DedicatedCompute, n, s.compute))
  }

  /** One iteration of the scan, at family `i` with flag word `flags`. */
  function Visit(s: Scan, i: nat, flags: QueueFlags, supportsPresent: bool, o: ResolveOptions): (r: Scan)
    ensures s.graphics.Some? ==> r.graphics == s.graphics
    ensures s.present.Some? ==> r.present == s.present
    ensures s.transfer.Some? ==> r.transfer == s.transfer
    ensures s.compute.Some? ==> r.compute == s.compute
    ensures s.graphics.None? ==> (r.graphics == Some(i) <==> Qualifies(Graphics, flags)) && (r.graphics.Some? ==> r.graphics == Some(i))
    ensures s.present.None? ==> (r.present == Some(i) <==> o.windowed && supportsPresent) && (r.present.Some? ==> r.present == Some(i))
    ensures s.transfer.None? ==>
      (r.transfer == Some(i) <==> !o.noTransferQueue && Qualifies(DedicatedTransfer, flags)) && (r.transfer.Some? ==> r.transfer == Some(i))
    ensures s.compute.None? ==>
      (r.compute == Some(i) <==> !o.noComputeQueue && Qualifies(DedicatedCompute, flags)) && (r.compute.Some? ==> r.compute == Some(i))
  {
    Scan(
      if Qualifies(Graphics, flags) && s.graphics.None? then Some(i) else s.graphics,
      if o.windowed && supportsPresent && s.present.None? then Some(i) else s.present,
      if !o.noTransferQueue && Qualifies(DedicatedTransfer, flags) && s.transfer.None? then Some(i) else s.transfer,
      if !o.noComputeQueue && Qualifies(DedicatedCompute, flags) && s.compute.None? then Some(i) else s.compute)
  }

  /** The scan from family `i` to the end. */
  function ScanFrom(families: seq<QueueFlags>, answer: nat -> bool, o: ResolveOptions, i: nat, s: Scan): (r: Scan)
    requires i <= |families|
    requires Scanned(families, answer, o, i, s)
    ensures Scanned(families, answer, o, |families|, r)
    decreases |families| - i
  {
    if i == |families| then s
    else
      VisitExtends(families, answer, o, i, s);
      ScanFrom(families, answer, o, i + 1, Visit(s, i, families[i], answer(i), o))
  }

  /** One iteration of the scan extends what it knows by one family. */
  lemma VisitExtends(families: seq<QueueFlags>, answer: nat -> bool, o: ResolveOptions, i: nat, s: Scan)
    requires i < |families|
    requires Scanned(families, answer, o, i, s)
    ensures Scanned(families, answer, o, i + 1, Visit(s, i, families[i], answer(i), o))
  {
    VisitExtendsRole(families, Graphics, answer(i), o, i, s);
    if !o.noTransferQueue {
      VisitExtendsRole(families, DedicatedTransfer, answer(i), o, i, s);
    }
    if !o.noComputeQueue {
      VisitExtendsRole(families, DedicatedCompute, answer(i), o, i, s);
    }
    if o.windowed {
      FirstAnsweringStep(answer, i, s.present);
    }
  }

  /** The field of `role` in a scan. */
  function Found(s: Scan, role: Role): Option<nat> {
    match role
    case Graphics => s.graphics
    case DedicatedTransfer => s.transfer
    case DedicatedCompute => s.compute
  }

  /** One iteration extends the first-match search of one enabled flag-decided role. */
  lemma VisitExtendsRole(families: seq<QueueFlags>, role: Role, supportsPresent: bool, o: ResolveOptions, i: nat, s: Scan)
    requires i < |families|
    requires role == DedicatedTransfer ==> !o.noTransferQueue
    requires role == DedicatedCompute ==> !o.noComputeQueue
    requires FirstOf(families, role, i, Found(s, role))
    ensures FirstOf(families, role, i + 1, Found(Visit(s, i, families[i], supportsPresent, o), role))
  {
    FirstOfStep(families, role, i, Found(s, role));
  }

  /** Looking at one more family extends a first-match search by that family. */
  lemma FirstOfStep(families: seq<QueueFlags>, role: Role, i: nat, found: Option<nat>)
    requires i < |families|
    requires FirstOf(families, role, i, found)
    ensures FirstOf(families, role, i + 1, if Qualifies(role, families[i]) && found.None? then Some(i) else found)
  {
  }

  lemma FirstAnsweringStep(answer: nat -> bool, i: nat, found: Option<nat>)
    requires FirstAnswering(answer, i, found)
    ensures FirstAnswering(answer, i + 1, if answer(i) && found.None? then Some(i) else found)
  {
  }

  /** The checks after the scan: graphics is mandatory, and so is presentation when windowed. */
  function Conclude(s: Scan, o: ResolveOptions): (r: Result<QueueFamilyIndices, Reason>)
    ensures r.Failure? <==> s.graphics.None? || (o.windowed && s.present.None?)
    ensures r.Failure? ==> (r.error == NoGraphicsQueueFamily <==> s.graphics.None?)
    ensures r.Failure? ==> r.error == NoGraphicsQueueFamily || r.error == NoPresentQueueFamily
    ensures r.Success? ==>
      && Some(r.value.graphics) == s.graphics
      && r.value.present == s.present && r.value.transfer == s.transfer && r.value.compute == s.compute
  {
    if s.graphics.None? then Failure(NoGraphicsQueueFamily)
    else if o.windowed && s.present.None? then Failure(NoPresentQueueFamily)
    else Success(QueueFamilyIndices(s.graphics.value, s.present, s.transfer, s.compute))
  }

  /** The graphics, transfer and compute indices are the first qualifying families. */
  ghost predicate RolesResolved(families: seq<QueueFlags>, o: ResolveOptions, q: QueueFamilyIndices) {
    && FirstOf(families, Graphics, |families|, Some(q.graphics))
    && (if o.noTransferQueue then q.transfer.None? else FirstOf(families, DedicatedTransfer, |families|, q.transfer))
    && (if o.noComputeQueue then q.compute.None? else FirstOf(families, DedicatedCompute, |families|, q.compute))
  }

  /** Whenever resolved, graphics, dedicated transfer and dedicated compute are pairwise distinct. */
  ghost predicate RolesDisjoint(q: QueueFamilyIndices) {
    && q.transfer != Some(q.graphics)
    && q.compute != Some(q.graphics)
    && (q.transfer.Some? && q.compute.Some? ==> q.transfer != q.compute)
  }

  /**
   * The resolver as written: every iteration asks the driver about family
   * `1`, whatever the loop index, so `surfaceSupport(1)` decides presentation
   * for all families and the present index can only be family 0.
   */
  function FindQueueFamilyIndices(families: seq<QueueFlags>, o: ResolveOptions, surfaceSupport: nat -> bool): (r: Result<QueueFamilyIndices, Reason>)
    ensures (r.Failure? && r.error == NoGraphicsQueueFamily) <==> FirstOf(families, Graphics, |families|, None)
    ensures (r.Failure? && r.error == NoPresentQueueFamily) <==>
      !FirstOf(families, Graphics, |families|, None) && o.windowed && !surfaceSupport(1)
    ensures r.Failure? ==> r.error == NoGraphicsQueueFamily || r.error == NoPresentQueueFamily
    ensures r.Success? <==> !FirstOf(families, Graphics, |families|, None) && !(o.windowed && !surfaceSupport(1))
    ensures r.Success? ==> RolesResolved(families, o, r.value)
    ensures r.Success? ==> r.value.present == (if o.windowed then Some(0) else None)
  {
    var answer := (i: nat) => surfaceSupport(1);
    var s := ScanFrom(families, answer, o, 0, NOTHING_FOUND);
    assert answer(0) == surfaceSupport(1);
    Conclude(s, o)
  }

  /**
   * The resolver with the presentation query asking about each family in
   * turn: the present index is the least family that can present.
   */
  function FindQueueFamilyIndicesPerFamily(families: seq<QueueFlags>, o: ResolveOptions, surfaceSupport: nat -> bool): (r: Result<QueueFamilyIndices, Reason>)
    ensures (r.Failure? && r.error == NoGraphicsQueueFamily) <==> FirstOf(families, Graphics, |families|, None)
    ensures (r.Failure? && r.error == NoPresentQueueFamily) <==>
      !FirstOf(families, Graphics, |families|, None) && o.windowed && FirstAnswering(surfaceSupport, |families|, None)
    ensures r.Failure? ==> r.error == NoGraphicsQueueFamily || r.error == NoPresentQueueFamily
    ensures r.Success? <==>
      !FirstOf(families, Graphics, |families|, None) && !(o.windowed && FirstAnswering(surfaceSupport, |families|, None))
    ensures r.Success? ==> RolesResolved(families, o, r.value)
    ensures r.Success? && o.windowed ==> FirstAnswering(surfaceSupport, |families|, r.value.present)
    ensures r.Success? && !o.windowed ==> r.value.present.None?
  {
    Conclude(ScanFrom(families, surfaceSupport, o, 0, NOTHING_FOUND), o)
  }

  function Resolve(build: Build, families: seq<QueueFlags>, o: ResolveOptions, surfaceSupport: nat -> bool): Result<QueueFamilyIndices, Reason> {
    match build
    case AsWritten => FindQueueFamilyIndices(families, o, surfaceSupport)
    case Corrected => FindQueueFamilyIndicesPerFamily(families, o, surfaceSupport)
  }

  /** The mask conditions keep the graphics, transfer and compute families apart. */
  lemma ResolvedRolesAreDisjoint(build: Build, families: seq<QueueFlags>, o: ResolveOptions, surfaceSupport: nat -> bool)
    requires Resolve(build, families, o, surfaceSupport).Success?
    ensures RolesDisjoint(Resolve(build, families, o, surfaceSupport).value)
  {
    var q := Resolve(build, families, o, surfaceSupport).value;
    assert RolesResolved(families, o, q);
  }

  /** The two resolvers agree whenever the driver gives every family the same answer. */
  lemma ResolversAgreeOnUniformSupport(families: seq<QueueFlags>, o: ResolveOptions, surfaceSupport: nat -> bool)
    requires forall i: nat :: surfaceSupport(i) == surfaceSupport(1)
    ensures FindQueueFamilyIndices(families, o, surfaceSupport) == FindQueueFamilyIndicesPerFamily(families, o, surfaceSupport)
  {
    var answer := (i: nat) => surfaceSupport(1);
    ScanFromAgrees(families, answer, surfaceSupport, o, 0, NOTHING_FOUND);
  }

  /** The scan depends on the presentation answers only through their values. */
  lemma {:induction false} ScanFromAgrees(families: seq<QueueFlags>, a1: nat -> bool, a2: nat -> bool, o: ResolveOptions, i: nat, s: Scan)
    requires i <= |families|
    requires Scanned(families, a1, o, i, s) && Scanned(families, a2, o, i, s)
    requires forall j: nat :: a1(j) == a2(j)
    ensures ScanFrom(families, a1, o, i, s) == ScanFrom(families, a2, o, i, s)
    decreases |families| - i
  {
    if i < |families| {
      VisitExtends(families, a1, o, i, s);
      VisitExtends(families, a2, o, i, s);
      ScanFromAgrees(families, a1, a2, o, i + 1, Visit(s, i, families[i], a1(i), o));
    }
  }

  /**
   * The defect in the as-written resolver: with two all-purpose families
   * where only family 1 can present, it picks family 0, which cannot; the
   * per-family resolver picks family 1.
   */
  lemma PresentQueryIgnoresFamily()
    ensures var families := [QUEUE_GRAPHICS | QUEUE_COMPUTE | QUEUE_TRANSFER, QUEUE_GRAPHICS | QUEUE_COMPUTE | QUEUE_TRANSFER];
            var o := ResolveOptions(true, false, false);
            var onlyFamilyOne := (i: nat) => i == 1;
            && FindQueueFamilyIndices(families, o, onlyFamilyOne) == Success(QueueFamilyIndices(0, Some(0), None, None))
            && !onlyFamilyOne(0)
            && FindQueueFamilyIndicesPerFamily(families, o, onlyFamilyOne) == Success(QueueFamilyIndices(0, Some(1), None, None))
  {
    var all := QUEUE_GRAPHICS | QUEUE_COMPUTE | QUEUE_TRANSFER;
    var families := [all, all];
    var o := ResolveOptions(true, false, false);
    var onlyFamilyOne := (i: nat) => i == 1;
    var asWritten := (i: nat) => onlyFamilyOne(1);
    assert Qualifies(Graphics, all) && !Qualifies(DedicatedTransfer, all) && !Qualifies(DedicatedCompute, all);
    var s1 := Visit(NOTHING_FOUND, 0, all, true, o);
    assert s1 == Scan(Some(0), Some(0), None, None);
    assert Visit(s1, 1, all, true, o) == s1;
    assert ScanFrom(families, asWritten, o, 0, NOTHING_FOUND) == s1;
    var t1 := Visit(NOTHING_FOUND, 0, all, false, o);
    assert t1 == Scan(Some(0), None, None, None);
    assert Visit(t1, 1, all, true, o) == Scan(Some(0), Some(1), None, None);
    assert ScanFrom(families, onlyFamilyOne, o, 0, NOTHING_FOUND) == Scan(Some(0), Some(1), None, None);
  }
}
