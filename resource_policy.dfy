/**
 * DCPStorageManager and DCPResourceManager (resource-management draft):
 * the storage quota, its enforcement, the documented eviction order, and
 * prefetching on navigation in aggressive mode only.
 */
module ResourcePolicy {
  import opened Wrappers
  import AdaptiveNetwork

  /**
   * IResourceMetadata; priority runs from 0 (critical) to 10 (background),
   * times are milliseconds, and sizes are JavaScript numbers (reals here).
   */
  datatype ResourceMetadata = ResourceMetadata(
    url: string,
    priority: int,
    sizeBytes: real,
    lastUsed: int,
    expiresAt: Option<int>,
    tags: seq<string>)

  const BytesPerMb: real := 1048576.0

  /**
   * The constructor's `QUOTA_BYTES = totalQuotaMb * 1024 * 1024`: the quota
   * in bytes is exactly the configured mebibytes, fractional or not.
   */
  function QuotaBytes(totalQuotaMb: real): (bytes: real)
    ensures bytes / BytesPerMb == totalQuotaMb
    ensures bytes > 0.0 <==> totalQuotaMb > 0.0
  {
    totalQuotaMb * 1024.0 * 1024.0
  }

  /** The space `enforceQuota` asks to free: none within the quota, exactly the overflow beyond it. */
  function EvictionRequest(currentSize: real, quotaBytes: real): (r: Option<real>)
    ensures r.None? <==> currentSize <= quotaBytes
    ensures r.Some? ==> r.value > 0.0 && quotaBytes + r.value == currentSize
  {
    if currentSize > quotaBytes then Some(currentSize - quotaBytes) else None
  }

  /** `deleteResources(urls)` as drafted: reports how many urls it was given (not bytes). */
  function DeleteResources(urls: seq<string>): nat {
    |urls|
  }

  /**
   * `enforceQuota()` for a measured size and a candidate selection: 0 within
   * the quota; beyond it, what deleteResources reports for the candidates
   * selected for the overflow.
   */
  function EnforceQuotaWith(currentSize: real, quotaBytes: real, candidates: real -> seq<string>): (freed: nat)
    ensures currentSize <= quotaBytes ==> freed == 0
    ensures currentSize > quotaBytes ==> freed == |candidates(currentSize - quotaBytes)|
  {
    match EvictionRequest(currentSize, quotaBytes)
    case None => 0
    case Some(overflow) => DeleteResources(candidates(overflow))
  }

  /** DCPStorageManager, built as StorageManager(QuotaBytes(totalQuotaMb)). */
  datatype StorageManager = StorageManager(quotaBytes: real) {

    /** `getEvictionCandidates` as shipped: the selection is only described in comments; the body returns []. */
    function GetEvictionCandidates(requiredSpace: real): seq<string> {
      []
    }

    /** `calculateCurrentSize` as shipped: 0. */
    function CalculateCurrentSize(): real {
      0.0
    }

    function EnforceQuota(): nat {
      EnforceQuotaWith(CalculateCurrentSize(), quotaBytes, requiredSpace => GetEvictionCandidates(requiredSpace))
    }
  }

  /** As shipped, the current size is 0 and no candidates are chosen, so enforcing the quota frees nothing. */
  lemma ShippedEnforceQuotaFreesNothing(m: StorageManager)
    ensures m.EnforceQuota() == 0
  {
  }

  // The eviction order described in getEvictionCandidates' comments.

  /** `a` is evicted no later than `b`: lower priority number first, then the least recently used. */
  predicate EvictsNoLater(a: ResourceMetadata, b: ResourceMetadata) {
    a.priority < b.priority || (a.priority == b.priority && a.lastUsed <= b.lastUsed)
  }

  /** `a` is evicted strictly before `b`. */
  predicate EvictsFirst(a: ResourceMetadata, b: ResourceMetadata) {
    a.priority < b.priority || (a.priority == b.priority && a.lastUsed < b.lastUsed)
  }

  predicate EvictionOrdered(s: seq<ResourceMetadata>) {
    forall i, j :: 0 <= i < j < |s| ==> EvictsNoLater(s[i], s[j])
  }

  /** Places `x` after every entry that is not evicted strictly after it, so that ties keep their order. */
  function InsertForEviction(x: ResourceMetadata, s: seq<ResourceMetadata>): (r: seq<ResourceMetadata>)
    requires EvictionOrdered(s)
    ensures EvictionOrdered(r)
    ensures multiset(r) == multiset(s) + multiset{x}
  {
    if s == [] then [x]
    else if EvictsFirst(x, s[0]) then [x] + s
    else
      var rest := InsertForEviction(x, s[1..]);
      assert s == [s[0]] + s[1..];
      ConsOrdered(s[0], x, s[1..], rest);
      [s[0]] + rest
  }

  /** An entry evicted no later than `x` and than all of `tail` may head any ordering of them. */
  lemma ConsOrdered(head: ResourceMetadata, x: ResourceMetadata, tail: seq<ResourceMetadata>, rest: seq<ResourceMetadata>)
    requires !EvictsFirst(x, head)
    requires EvictionOrdered([head] + tail)
    requires EvictionOrdered(rest)
    requires multiset(rest) == multiset(tail) + multiset{x}
    ensures EvictionOrdered([head] + rest)
  {
    forall j | 0 <= j < |rest|
      ensures EvictsNoLater(head, rest[j])
    {
      assert rest[j] in multiset(rest);
      if rest[j] != x {
        assert rest[j] in multiset(tail);
        var k :| 0 <= k < |tail| && tail[k] == rest[j];
        assert ([head] + tail)[0] == head && ([head] + tail)[k + 1] == tail[k];
        assert EvictsNoLater(([head] + tail)[0], ([head] + tail)[k + 1]);
      } else {
        assert EvictsNoLater(head, x);
      }
    }
    forall i, j | 0 <= i < j < |[head] + rest|
      ensures EvictsNoLater(([head] + rest)[i], ([head] + rest)[j])
    {
      if i == 0 {
        assert ([head] + rest)[j] == rest[j - 1];
      } else {
        assert ([head] + rest)[i] == rest[i - 1] && ([head] + rest)[j] == rest[j - 1];
      }
    }
  }

  /** The resources sorted by priority ascending, then `lastUsed` ascending (a stable sort). */
  function SortForEviction(rs: seq<ResourceMetadata>): (s: seq<ResourceMetadata>)
    ensures EvictionOrdered(s)
    ensures multiset(s) == multiset(rs)
  {
    if rs == [] then []
    else
      var init := rs[..|rs| - 1];
      assert rs == init + [rs[|rs| - 1]];
      InsertForEviction(rs[|rs| - 1], SortForEviction(init))
  }

  function TotalSize(s: seq<ResourceMetadata>): real {
    if s == [] then 0.0 else s[0].sizeBytes + TotalSize(s[1..])
  }

  /**
   * Takes resources in order until their sizes add up to `requiredSpace`:
   * a prefix of `s` that frees enough, or all of `s` if nothing does; every
   * shorter prefix falls short, so nothing is taken beyond need.
   */
  function TakeUntil(s: seq<ResourceMetadata>, requiredSpace: real): (taken: seq<ResourceMetadata>)
    ensures taken <= s
    ensures TotalSize(taken) >= requiredSpace || taken == s
    ensures forall n :: 0 <= n < |taken| ==> TotalSize(taken[..n]) < requiredSpace
  {
    if requiredSpace <= 0.0 || s == [] then []
    else
      var rest := TakeUntil(s[1..], requiredSpace - s[0].sizeBytes);
      TakeUntilStep(s[0], rest, requiredSpace);
      [s[0]] + rest
  }

  lemma TakeUntilStep(x: ResourceMetadata, rest: seq<ResourceMetadata>, requiredSpace: real)
    requires requiredSpace > 0.0
    requires forall n :: 0 <= n < |rest| ==> TotalSize(rest[..n]) < requiredSpace - x.sizeBytes
    ensures forall n :: 0 <= n < |[x] + rest| ==> TotalSize(([x] + rest)[..n]) < requiredSpace
  {
    forall n | 0 <= n < |[x] + rest|
      ensures TotalSize(([x] + rest)[..n]) < requiredSpace
    {
      if n > 0 {
        assert ([x] + rest)[..n] == [x] + rest[..n - 1];
        assert TotalSize([x] + rest[..n - 1]) == x.sizeBytes + TotalSize(rest[..n - 1]);
      }
    }
  }

  function Urls(s: seq<ResourceMetadata>): (urls: seq<string>)
    ensures |urls| == |s| && forall i :: 0 <= i < |s| ==> urls[i] == s[i].url
  {
    seq(|s|, i requires 0 <= i < |s| => s[i].url)
  }

  /** The documented selection: the urls of the resources taken, in eviction order, until `requiredSpace` is met. */
  function IntendedEvictionCandidates(resources: seq<ResourceMetadata>, requiredSpace: real): (urls: seq<string>)
    ensures |urls| <= |resources|
    ensures requiredSpace <= 0.0 ==> urls == []
    ensures forall i :: 0 <= i < |urls| ==> exists j :: 0 <= j < |resources| && resources[j].url == urls[i]
  {
    TakenComeFromResources(resources, requiredSpace);
    Urls(TakeUntil(SortForEviction(resources), requiredSpace))
  }

  /** What TakeUntil takes from the sorted resources are resources. */
  lemma TakenComeFromResources(resources: seq<ResourceMetadata>, requiredSpace: real)
    ensures |TakeUntil(SortForEviction(resources), requiredSpace)| <= |resources|
    ensures forall i :: 0 <= i < |TakeUntil(SortForEviction(resources), requiredSpace)| ==>
      exists j :: 0 <= j < |resources| && resources[j] == TakeUntil(SortForEviction(resources), requiredSpace)[i]
  {
    var sorted := SortForEviction(resources);
    var taken := TakeUntil(sorted, requiredSpace);
    assert |sorted| == |multiset(sorted)| == |multiset(resources)| == |resources|;
    forall i | 0 <= i < |taken|
      ensures exists j :: 0 <= j < |resources| && resources[j] == taken[i]
    {
      assert taken[i] == sorted[i];
      assert sorted[i] in multiset(resources);
    }
  }

  /**
   * Two resources of priority 2 ("b" used at 1, "c" at 3) and one of
   * priority 9 ("a" used at 2), 10 bytes each: freeing 15 bytes takes "b"
   * then "c", and nothing of priority 9.
   */
  lemma EvictionExample()
    ensures IntendedEvictionCandidates([
      ResourceMetadata("a", 9, 10.0, 2, None, []),
      ResourceMetadata("b", 2, 10.0, 1, None, []),
      ResourceMetadata("c", 2, 10.0, 3, None, [])], 15.0) == ["b", "c"]
  {
    ExampleCandidates(
      ResourceMetadata("a", 9, 10.0, 2, None, []),
      ResourceMetadata("b", 2, 10.0, 1, None, []),
      ResourceMetadata("c", 2, 10.0, 3, None, []));
  }

  /** The example with only the fields the selection looks at fixed. */
  lemma ExampleCandidates(a: ResourceMetadata, b: ResourceMetadata, c: ResourceMetadata)
    requires a.priority == 9 && a.lastUsed == 2 && a.sizeBytes == 10.0
    requires b.priority == 2 && b.lastUsed == 1 && b.sizeBytes == 10.0 && b.url == "b"
    requires c.priority == 2 && c.lastUsed == 3 && c.sizeBytes == 10.0 && c.url == "c"
    ensures IntendedEvictionCandidates([a, b, c], 15.0) == ["b", "c"]
  {
    ExampleSelected(a, b, c);
    var u := Urls([b, c]);
    assert u[0] == "b" && u[1] == "c";
    assert u == ["b", "c"];
  }

  lemma ExampleSelected(a: ResourceMetadata, b: ResourceMetadata, c: ResourceMetadata)
    requires a.priority == 9 && a.lastUsed == 2 && a.sizeBytes == 10.0
    requires b.priority == 2 && b.lastUsed == 1 && b.sizeBytes == 10.0
    requires c.priority == 2 && c.lastUsed == 3 && c.sizeBytes == 10.0
    ensures TakeUntil(SortForEviction([a, b, c]), 15.0) == [b, c]
  {
    ExampleSort(a, b, c);
    ExampleTake(a, b, c);
  }

  lemma ExampleSort(a: ResourceMetadata, b: ResourceMetadata, c: ResourceMetadata)
    requires a.priority == 9 && a.lastUsed == 2
    requires b.priority == 2 && b.lastUsed == 1
    requires c.priority == 2 && c.lastUsed == 3
    ensures SortForEviction([a, b, c]) == [b, c, a]
  {
    assert [a, b, c][..2] == [a, b];
    ExampleSortTwo(a, b);
    assert [b, a][1..] == [a];
    assert InsertForEviction(c, [a]) == [c, a];
  }

  lemma ExampleSortTwo(a: ResourceMetadata, b: ResourceMetadata)
    requires a.priority == 9 && b.priority == 2
    ensures SortForEviction([a, b]) == [b, a]
  {
    assert [a, b][..1] == [a] && [a][..0] == [];
    assert SortForEviction([a]) == [a];
  }

  lemma ExampleTake(a: ResourceMetadata, b: ResourceMetadata, c: ResourceMetadata)
    requires a.sizeBytes == 10.0 && b.sizeBytes == 10.0 && c.sizeBytes == 10.0
    ensures TakeUntil([b, c, a], 15.0) == [b, c]
  {
    assert [b, c, a][1..] == [c, a] && [c, a][1..] == [a];
    assert TakeUntil([a], -5.0) == [];
    assert TakeUntil([c, a], 5.0) == [c];
  }

  /** The error a rejected `predictNextResources` promise carries. */
  datatype LoaderFailure = LoaderFailure

  class DCPResourceManager {
    const storage: StorageManager
    /** IPredictiveLoader.predictNextResources, whose promise may reject */
    const predictive: string -> Result<seq<string>, LoaderFailure>
    const network: AdaptiveNetwork.DCPNetworkManager

    constructor(storage: StorageManager, predictive: string -> Result<seq<string>, LoaderFailure>, network: AdaptiveNetwork.DCPNetworkManager)
      ensures this.storage == storage && this.predictive == predictive && this.network == network
    {
      this.storage := storage;
      this.predictive := predictive;
      this.network := network;
    }

    /**
     * `onNavigation(to)`: only in aggressive mode is the loader asked, and
     * its suggestions are handed to `preFetch` (returned here; `preFetch` is
     * empty). A rejecting loader rejects the navigation before `preFetch`.
     */
    method OnNavigation(to: string) returns (r: Result<Option<seq<string>>, LoaderFailure>)
      ensures network.currentMode != AdaptiveNetwork.OnlineAggressive ==> r == Ok(None)
      ensures network.currentMode == AdaptiveNetwork.OnlineAggressive && predictive(to).Ok? ==>
                r == Ok(Some(predictive(to).value))
      ensures network.currentMode == AdaptiveNetwork.OnlineAggressive && predictive(to).Err? ==>
                r == Err(predictive(to).error)
    {
      if network.GetMode() == AdaptiveNetwork.OnlineAggressive {
        var suggested := predictive(to);
        if suggested.Err? {
          return Err(suggested.error);
        }
        return Ok(Some(suggested.value));
      }
      return Ok(None);
    }
  }
}
