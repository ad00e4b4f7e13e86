/** Parks on the Air and Summits on the Air activator spots
    (data_sources/activations_data.py): the item mapping with its UTC
    suffix rule, the per-source cap, and the merged, cached listing. The
    HTTP requests and the two worker threads are not modelled; what each
    request returned is an input. */
module ActivationsData {
  import opened Common
  import opened Sorting
  import opened Text
  import CacheManagement

  /** What a source's request produced: an error (caught, giving no spots),
      a JSON value that is not a list, or a list of items. */
  datatype ApiResponse<T> = Failed | NotAList | Items(items: seq<T>)

  /** A POTA spot item; a missing key is `None`. */
  datatype PotaItem = PotaItem(spotTime: Option<string>, activator: Option<string>, reference: Option<string>,
                               name: Option<string>, locationDesc: Option<string>,
                               frequency: Option<string>, mode: Option<string>)

  /** A SOTA spot item; a missing key is `None`. */
  datatype SotaItem = SotaItem(associationCode: Option<string>, summitCode: Option<string>, timeStamp: Option<string>,
                               activatorCallsign: Option<string>, summitDetails: Option<string>,
                               comments: Option<string>, frequency: Option<string>, mode: Option<string>)

  datatype Program = POTA | SOTA

  datatype Activation = Activation(time: string, callsign: string, program: Program, reference: string,
                                   name: string, frequency: string, mode: string)

  const ITEM_LIMIT: nat := 50
  const ACTIVATIONS_CACHE_SECONDS: int := 180

  /** Marks a timestamp as UTC for the browser: 'Z' is appended unless the
      text is empty, already ends in 'Z' or carries a '+' offset. */
  function WithUtcSuffix(t: string): (r: string)
    ensures t == "" ==> r == ""
    ensures t != "" ==> EndsWith(r, 'Z') || ContainsChar(r, '+')
    ensures r == t || r == t + "Z"
  {
    if t != "" && !EndsWith(t, 'Z') && !ContainsChar(t, '+') then t + "Z" else t
  }

  /** Marking twice is marking once. */
  lemma WithUtcSuffixIdempotent(t: string)
    ensures WithUtcSuffix(WithUtcSuffix(t)) == WithUtcSuffix(t)
  {
    var r := WithUtcSuffix(t);
    if r != t {
      assert EndsWith(r, 'Z') by { assert r[|r| - 1] == 'Z'; }
    }
  }

  /** 'Z' is added exactly when the text is non-empty, does not end in 'Z'
      and has no '+'. */
  lemma WithUtcSuffixExact(t: string)
    ensures WithUtcSuffix(t) == t + "Z" <==> (t != "" && !EndsWith(t, 'Z') && !ContainsChar(t, '+'))
  {
    if WithUtcSuffix(t) == t + "Z" {
      assert |t + "Z"| != |t|;
    }
  }

  /** "assoc/summit" when both codes are present, else the one that is. */
  function SotaReference(assoc: string, summit: string): (r: string)
    ensures assoc != "" && summit != "" ==> r == assoc + "/" + summit
    ensures assoc == "" ==> r == summit
    ensures summit == "" ==> r == assoc
  {
    if assoc != "" && summit != "" then assoc + "/" + summit
    else if assoc != "" then assoc
    else summit
  }

  function PotaActivation(item: PotaItem): (r: Activation)
    ensures r.program == POTA && r.time == WithUtcSuffix(item.spotTime.GetOr(""))
    ensures item.name.Some? ==> r.name == item.name.value
    ensures item.name.None? ==> r.name == item.locationDesc.GetOr("")
  {
    Activation(WithUtcSuffix(item.spotTime.GetOr("")), item.activator.GetOr(""), POTA, item.reference.GetOr(""),
               if item.name.Some? then item.name.value else item.locationDesc.GetOr(""),
               item.frequency.GetOr(""), item.mode.GetOr(""))
  }

  function SotaActivation(item: SotaItem): (r: Activation)
    ensures r.program == SOTA && r.time == WithUtcSuffix(item.timeStamp.GetOr(""))
    ensures r.reference == SotaReference(item.associationCode.GetOr(""), item.summitCode.GetOr(""))
  {
    Activation(WithUtcSuffix(item.timeStamp.GetOr("")), item.activatorCallsign.GetOr(""), SOTA,
               SotaReference(item.associationCode.GetOr(""), item.summitCode.GetOr("")),
               if item.summitDetails.Some? then item.summitDetails.value else item.comments.GetOr(""),
               item.frequency.GetOr(""), item.mode.GetOr(""))
  }

  function Capped<T>(s: seq<T>): (r: seq<T>)
    ensures |r| == if |s| < ITEM_LIMIT then |s| else ITEM_LIMIT
    ensures r == s[..|r|]
  {
    if |s| <= ITEM_LIMIT then s else s[..ITEM_LIMIT]
  }

  /** What `get_pota_spots` yields for a response. */
  function PotaSpots(response: ApiResponse<PotaItem>): (r: seq<Activation>)
  {
    if response.Items? then
      seq(|Capped(response.items)|, k requires 0 <= k < |Capped(response.items)| => PotaActivation(response.items[k]))
    else []
  }

  /** What `get_sota_spots` yields for a response. */
  function SotaSpots(response: ApiResponse<SotaItem>): (r: seq<Activation>)
  {
    if response.Items? then
      seq(|Capped(response.items)|, k requires 0 <= k < |Capped(response.items)| => SotaActivation(response.items[k]))
    else []
  }

  /** `get_pota_spots`: the first 50 items mapped in order; no spots for
      an error or a response that is not a list. */
  method GetPotaSpots(response: ApiResponse<PotaItem>) returns (spots: seq<Activation>)
    ensures !response.Items? ==> spots == []
    ensures response.Items? ==> (|spots| == |Capped(response.items)| &&
      forall k :: 0 <= k < |spots| ==> spots[k] == PotaActivation(response.items[k]))
    ensures spots == PotaSpots(response)
  {
    spots := [];
    if !response.Items? {
      return;
    }
    var data := Capped(response.items);
    var i := 0;
    while i < |data|
      invariant 0 <= i <= |data| && |spots| == i
      invariant forall k :: 0 <= k < i ==> spots[k] == PotaActivation(response.items[k])
    {
      spots := spots + [PotaActivation(data[i])];
      i := i + 1;
    }
  }

  /** `get_sota_spots`, the same for SOTA items. */
  method GetSotaSpots(response: ApiResponse<SotaItem>) returns (spots: seq<Activation>)
    ensures !response.Items? ==> spots == []
    ensures response.Items? ==> (|spots| == |Capped(response.items)| &&
      forall k :: 0 <= k < |spots| ==> spots[k] == SotaActivation(response.items[k]))
    ensures spots == SotaSpots(response)
  {
    spots := [];
    if !response.Items? {
      return;
    }
    var data := Capped(response.items);
    var i := 0;
    while i < |data|
      invariant 0 <= i <= |data| && |spots| == i
      invariant forall k :: 0 <= k < i ==> spots[k] == SotaActivation(response.items[k])
    {
      spots := spots + [SotaActivation(data[i])];
      i := i + 1;
    }
  }

  /** `sort(key=time, reverse=True)`: later timestamps (as text) first,
      ties kept in input order. */
  function LatestFirst(): (before: (Activation, Activation) -> bool)
  {
    (a: Activation, b: Activation) => LexLess(b.time, a.time)
  }

  lemma LatestFirstIsStrictWeakOrder()
    ensures StrictWeakOrder(LatestFirst())
  {
    forall a: Activation, b: Activation | LatestFirst()(a, b) ensures !LatestFirst()(b, a) {
      LexLessStrictOrder(b.time, a.time, a.time);
    }
    forall a: Activation, b: Activation, c: Activation | LatestFirst()(a, c)
      ensures LatestFirst()(a, b) || LatestFirst()(b, c)
    {
      LexLessStrictOrder(c.time, b.time, a.time);
    }
  }

  datatype Combined = Combined(potaCount: nat, sotaCount: nat, totalCount: nat, activations: seq<Activation>)

  function FallbackActivations(): (r: Combined)
    ensures r.potaCount == 0 && r.sotaCount == 0 && r.totalCount == 0 && r.activations == []
  {
    Combined(0, 0, 0, [])
  }

  /** The merge: both lists, counted, the newest 50 listed. */
  function CombineActivations(pota: seq<Activation>, sota: seq<Activation>): (r: Combined)
    ensures r.totalCount == r.potaCount + r.sotaCount
    ensures r.potaCount == |pota| && r.sotaCount == |sota|
    ensures |r.activations| == if r.totalCount < ITEM_LIMIT then r.totalCount else ITEM_LIMIT
  {
    var all := Sort(pota + sota, LatestFirst());
    Combined(|pota|, |sota|, |all|, Capped(all))
  }

  /** No activation left out of `listed` is newer than the last one
      listed. */
  ghost predicate LeftOutNoNewer(all: seq<Activation>, listed: seq<Activation>)
  {
    forall x :: x in all && x !in listed ==> listed != [] && !LexLess(listed[|listed| - 1].time, x.time)
  }

  /** The listing is newest first, drawn from the two sources, and holds the
      newest: nothing left out is later than the last one listed. */
  lemma CombinedNewestFirst(pota: seq<Activation>, sota: seq<Activation>)
    ensures var l := CombineActivations(pota, sota).activations;
      (forall i, j :: 0 <= i < j < |l| ==> !LexLess(l[i].time, l[j].time)) &&
      multiset(l) <= multiset(pota) + multiset(sota)
    ensures LeftOutNoNewer(pota + sota, CombineActivations(pota, sota).activations)
  {
    var all := Sort(pota + sota, LatestFirst());
    LatestFirstIsStrictWeakOrder();
    SortSorted(pota + sota, LatestFirst());
    var l := Capped(all);
    forall i, j | 0 <= i < j < |l| ensures !LexLess(l[i].time, l[j].time) {
      assert l[i] == all[i] && l[j] == all[j];
      assert !LatestFirst()(all[j], all[i]);
    }
    assert all == l + all[|l|..];
    CombinedTop(pota, sota);
  }

  /** The listing holds the newest: nothing left out is later than the last
      one listed. */
  lemma CombinedTop(pota: seq<Activation>, sota: seq<Activation>)
    ensures LeftOutNoNewer(pota + sota, CombineActivations(pota, sota).activations)
  {
    if pota + sota != [] {
      var all := Sort(pota + sota, LatestFirst());
      var l := Capped(all);
      assert l == all[..|l|];
      LatestFirstIsStrictWeakOrder();
      TopBound(pota + sota, LatestFirst(), |l|);
    }
  }

  /** Activations with the same time keep their merged (POTA, then SOTA)
      order, as Python's stable sort keeps them. */
  lemma CombinedStable(pota: seq<Activation>, sota: seq<Activation>, y: Activation)
    ensures Filter(CombineActivations(pota, sota).activations, e => Tied(LatestFirst(), e, y))
         <= Filter(pota + sota, e => Tied(LatestFirst(), e, y))
  {
    var all := Sort(pota + sota, LatestFirst());
    assert CombineActivations(pota, sota).activations == all[..|Capped(all)|];
    LatestFirstIsStrictWeakOrder();
    TopStable(pota + sota, LatestFirst(), |Capped(all)|, y);
  }

  /** `get_combined_activations`: a cached listing is returned as it is.
      Otherwise both sources are asked; `timedOut` is the case where they
      do not both answer within the 12 seconds, which ends in the
      fallback. A merged listing is cached for three minutes. */
  method GetCombinedActivations(cache: CacheManagement.CacheManager<Combined>, now: int,
                                pota: ApiResponse<PotaItem>, sota: ApiResponse<SotaItem>, timedOut: bool, size: nat)
    returns (r: Combined)
    requires cache.Valid()
    modifies cache
    ensures cache.Valid()
    ensures "activations" in old(cache.caches) && CacheManagement.Lookup(old(cache.caches)["activations"], "combined", now).Some? ==>
      r == CacheManagement.Lookup(old(cache.caches)["activations"], "combined", now).value
    ensures ("activations" !in old(cache.caches) || CacheManagement.Lookup(old(cache.caches)["activations"], "combined", now).None?) ==>
      if timedOut then r == FallbackActivations()
      else r.potaCount == (if pota.Items? then |Capped(pota.items)| else 0) &&
           r.sotaCount == (if sota.Items? then |Capped(sota.items)| else 0) && r.totalCount == r.potaCount + r.sotaCount &&
           r == CombineActivations(PotaSpots(pota), SotaSpots(sota))
    ensures "activations" in old(cache.caches) && CacheManagement.Lookup(old(cache.caches)["activations"], "combined", now).None? &&
            !timedOut ==>
      "activations" in cache.caches &&
      forall t :: t - now <= ACTIVATIONS_CACHE_SECONDS ==> CacheManagement.Lookup(cache.caches["activations"], "combined", t) == Some(r)
  {
    var cached := cache.Get("activations", "combined", now);
    if cached.Some? {
      return cached.value;
    }
    if timedOut {
      return FallbackActivations();
    }
    var potaList := GetPotaSpots(pota);
    var sotaList := GetSotaSpots(sota);
    r := CombineActivations(potaList, sotaList);
    ghost var read := cache.caches;
    var _ := cache.Set("activations", "combined", r, Some(ACTIVATIONS_CACHE_SECONDS), size, now);
    if "activations" in read {
      forall t | t - now <= ACTIVATIONS_CACHE_SECONDS
        ensures CacheManagement.Lookup(cache.caches["activations"], "combined", t) == Some(r)
      {
        CacheManagement.SetThenGet(read["activations"], "combined", r, ACTIVATIONS_CACHE_SECONDS, size, now,
                                   cache.SizeLimit("activations"), cache.MemoryLimit("activations"), t);
      }
    }
  }
}
