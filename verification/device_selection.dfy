/**
 * Physical-device selection: every enumerated device is ranked by the
 * caller's ranker; negative ranks are ineligible, and the first device with
 * the highest non-negative rank wins.
 */
module DeviceSelection {
  import opened Wrappers
  import opened Vulkan

  /** `k` holds a highest non-negative rank, and no earlier device holds one as high. */
  ghost predicate IsBest(ranks: seq<int32>, k: nat) {
    && k < |ranks|
    && ranks[k] >= 0
    && (forall j :: 0 <= j < |ranks| ==> ranks[j] <= ranks[k])
    && (forall j :: 0 <= j < k ==> ranks[j] < ranks[k])
  }

  ghost predicate NoneEligible(ranks: seq<int32>) {
    forall j :: 0 <= j < |ranks| ==> ranks[j] < 0
  }

  /** What the selection loop knows after looking at the first `i` ranks. */
  ghost predicate Selected(ranks: seq<int32>, i: nat, best: Option<nat>, bestRank: int32)
    requires i <= |ranks|
  {
    match best
    case None => bestRank == INT32_MIN && forall j :: 0 <= j < i ==> ranks[j] < 0
    case Some(k) =>
      && k < i
      && ranks[k] == bestRank
      && bestRank >= 0
      && (forall j :: 0 <= j < i ==> ranks[j] <= bestRank)
      && (forall j :: 0 <= j < k ==> ranks[j] < bestRank)
  }

  /**
   * The selection loop from position `i`: a device replaces the current
   * choice only when its rank is non-negative and strictly above the best
   * rank so far (which starts at the smallest 32-bit value).
   */
  function SelectFrom(ranks: seq<int32>, i: nat, best: Option<nat>, bestRank: int32): (r: Option<nat>)
    requires i <= |ranks|
    requires Selected(ranks, i, best, bestRank)
    ensures r.None? <==> NoneEligible(ranks)
    ensures r.Some? ==> IsBest(ranks, r.value)
    decreases |ranks| - i
  {
    if i == |ranks| then best
    else if ranks[i] >= 0 && ranks[i] > bestRank then SelectFrom(ranks, i + 1, Some(i), ranks[i])
    else SelectFrom(ranks, i + 1, best, bestRank)
  }

  function SelectBest(ranks: seq<int32>): (r: Option<nat>)
    ensures r.None? <==> NoneEligible(ranks)
    ensures r.Some? ==> IsBest(ranks, r.value)
  {
    SelectFrom(ranks, 0, None, INT32_MIN)
  }

  /**
   * The whole selection step. `countResult` and `listResult` are the codes
   * of the two `vkEnumeratePhysicalDevices` calls (the second is made only
   * when some device exists); `ranks` holds one rank per enumerated device.
   */
  function PickPhysicalDevice(countResult: VkResult, listResult: VkResult, ranks: seq<int32>): (r: Result<nat, InitError>)
    ensures countResult != SUCCESS ==> r == Failure(VulkanError(countResult, EnumeratingPhysicalDevices))
    ensures countResult == SUCCESS && |ranks| == 0 ==> r == Failure(RenderError(NoPhysicalDevice))
    ensures countResult == SUCCESS && |ranks| > 0 && listResult != SUCCESS ==>
      r == Failure(VulkanError(listResult, EnumeratingPhysicalDevices))
    ensures countResult == SUCCESS && listResult == SUCCESS && |ranks| > 0 ==>
      && (r.Success? <==> exists j :: 0 <= j < |ranks| && ranks[j] >= 0)
      && (r.Success? ==> IsBest(ranks, r.value))
      && (r.Failure? ==> r.error == RenderError(NoSuitablePhysicalDevice))
  {
    if countResult != SUCCESS then Failure(VulkanError(countResult, EnumeratingPhysicalDevices))
    else if |ranks| == 0 then Failure(RenderError(NoPhysicalDevice))
    else if listResult != SUCCESS then Failure(VulkanError(listResult, EnumeratingPhysicalDevices))
    else match SelectBest(ranks)
      case None => Failure(RenderError(NoSuitablePhysicalDevice))
      case Some(k) => Success(k)
  }

  /** Ties go to the first device: at most one index is the best. */
  lemma BestIsUnique(ranks: seq<int32>, k1: nat, k2: nat)
    requires IsBest(ranks, k1) && IsBest(ranks, k2)
    ensures k1 == k2
  {
  }

  /**
   * Enumeration order does not change the rank that wins: reordering the
   * devices selects a device of the same rank, and leaves "no device is
   * eligible" unchanged.
   */
  lemma {:induction false} SelectedRankIgnoresOrder(a: seq<int32>, b: seq<int32>)
    requires multiset(a) == multiset(b)
    ensures SelectBest(a).None? <==> SelectBest(b).None?
    ensures SelectBest(a).Some? ==> a[SelectBest(a).value] == b[SelectBest(b).value]
  {
    if SelectBest(a).None? && SelectBest(b).Some? {
      var kb := SelectBest(b).value;
      var j := Witness(b, a, kb);
    } else if SelectBest(a).Some? && SelectBest(b).None? {
      var ka := SelectBest(a).value;
      var j := Witness(a, b, ka);
    } else if SelectBest(a).Some? {
      var ka, kb := SelectBest(a).value, SelectBest(b).value;
      var ja := Witness(a, b, ka);
      var jb := Witness(b, a, kb);
    }
  }

  /** An element of `s` at index `k` appears somewhere in any reordering `t` of `s`. */
  lemma Witness(s: seq<int32>, t: seq<int32>, k: nat) returns (j: nat)
    requires multiset(s) == multiset(t)
    requires k < |s|
    ensures j < |t| && t[j] == s[k]
  {
    assert s[k] in multiset(s);
    assert s[k] in t;
    j :| j < |t| && t[j] == s[k];
  }

  /** Ranks 5 and 9 select the rank-9 device in either enumeration order. */
  lemma HigherRankWinsInEitherOrder()
    ensures SelectBest([5, 9]) == Some(1)
    ensures SelectBest([9, 5]) == Some(0)
    ensures SelectBest([-1, 3, 3]) == Some(1)
    ensures SelectBest([-1, -7]) == None
  {
  }
}
