// Per-video metrics: the grouping pass of analyze_video_with_progress that
// partitions the detected appearances by brand and by sponsorship category,
// the per-brand metric records and the video summary built from it, and
// calculate_placement_effectiveness.

module Grouping {
  import opened Common
  import opened Classify

  /**
   * One detection record as the analysis service returns it. A missing
   * 'brand' reads as "" and a missing 'timeline' as []: every use in the
   * backend treats those exactly like the empty values. Keys the backend
   * never reads (location, sentiment_context) are not represented.
   */
  datatype Appearance = Appearance(
    brand: string,
    timeline: seq<real>,
    placementType: Option<string>,
    sponsorshipCategory: Option<string>,
    prominence: Option<string>,
    context: Option<string>,
    description: Option<string>,
    viewerAttention: Option<string>)

  /** The brand key: the 'brand' value with surrounding whitespace removed. */
  function BrandKey(a: Appearance): string {
    Strip(a.brand)
  }

  /** Appearances with an empty name, or one is_valid_brand rejects, are dropped. */
  predicate Kept(a: Appearance) {
    BrandKey(a) != "" && IsValidBrandAsWritten(BrandKey(a))
  }

  /** A missing sponsorship_category is filled in by categorize_sponsorship_placement. */
  function WithCategory(a: Appearance): (r: Appearance)
    ensures r.sponsorshipCategory.Some?
    ensures r == a.(sponsorshipCategory := r.sponsorshipCategory)
    ensures a.sponsorshipCategory.Some? ==> r == a
    ensures a.sponsorshipCategory.None? ==>
      r.sponsorshipCategory == Some(CategorizePlacement(a.placementType.GetOr(""), a.context.GetOr("")))
  {
    if a.sponsorshipCategory.None? then
      a.(sponsorshipCategory := Some(CategorizePlacement(a.placementType.GetOr(""), a.context.GetOr(""))))
    else a
  }

  /** Seconds on screen: end minus start when the timeline has two values, else nothing. */
  function Exposure(a: Appearance): real {
    if |a.timeline| >= 2 then a.timeline[1] - a.timeline[0] else 0.0
  }

  predicate IsAd(a: Appearance) {
    a.sponsorshipCategory == Some(AdPlacement)
  }

  predicate IsInGame(a: Appearance) {
    !IsAd(a)
  }

  function ContextOf(a: Appearance): string {
    a.context.GetOr("unknown")
  }

  const HighImpactContexts: seq<string> := ["celebration", "interview", "commercial"]

  predicate IsHighImpact(a: Appearance) {
    ContextOf(a) in HighImpactContexts || a.prominence == Some("primary") || a.viewerAttention == Some("high")
  }

  /** A valid BrandAppearance timeline always gives a positive exposure. */
  lemma ValidTimelineExposure(a: Appearance)
    requires ValidateTimeline(a.timeline).Ok?
    ensures Exposure(a) > 0.0
  {
  }

  // ---------------------------------------------------------------------------
  // The per-brand accumulator (one `brand_data[brand_name]` dictionary)
  // ---------------------------------------------------------------------------

  datatype BrandData = BrandData(
    appearances: seq<Appearance>,
    totalExposureTime: real,
    contexts: seq<string>,
    highImpactMoments: nat,
    adPlacements: seq<Appearance>,
    inGamePlacements: seq<Appearance>,
    adPlacementTime: real,
    inGamePlacementTime: real)

  const NewBrandData: BrandData := BrandData([], 0.0, [], 0, [], [], 0.0, 0.0)

  /** What one iteration of the grouping loop adds to a brand's accumulator. */
  function Record(d: BrandData, a: Appearance): BrandData
  {
    var e := Exposure(a);
    BrandData(
      d.appearances + [a],
      d.totalExposureTime + e,
      if ContextOf(a) in d.contexts then d.contexts else d.contexts + [ContextOf(a)],
      d.highImpactMoments + (if IsHighImpact(a) then 1 else 0),
      if IsAd(a) then d.adPlacements + [a] else d.adPlacements,
      if IsAd(a) then d.inGamePlacements else d.inGamePlacements + [a],
      if IsAd(a) then d.adPlacementTime + e else d.adPlacementTime,
      if IsAd(a) then d.inGamePlacementTime else d.inGamePlacementTime + e)
  }

  /**
   * The accumulator of a brand whose appearances, in order, are `s`: every
   * appearance lands in exactly one of the two categories, and the two
   * category times add up to the total exposure, which is the sum of the
   * appearances' exposures.
   */
  function Summarize(s: seq<Appearance>): (r: BrandData)
    ensures r.appearances == s
    ensures |r.adPlacements| + |r.inGamePlacements| == |s|
    ensures r.adPlacementTime + r.inGamePlacementTime == r.totalExposureTime
    ensures r.totalExposureTime == Sum(s, Exposure)
  {
    if s == [] then NewBrandData
    else
      var s', a := s[..|s| - 1], s[|s| - 1];
      SplitLast(s);
      Record(Summarize(s'), a)
  }

  lemma SummarizeSnoc(s: seq<Appearance>, a: Appearance)
    ensures Summarize(s + [a]) == Record(Summarize(s), a)
  {
    SnocFront(s, a);
  }

  /** The ad placements are exactly the brand's ad appearances, in order, and their time is their exposure. */
  lemma {:induction false} SummarizeAds(s: seq<Appearance>)
    ensures Summarize(s).adPlacements == Filter(s, IsAd)
    ensures Summarize(s).adPlacementTime == Sum(Filter(s, IsAd), Exposure)
  {
    if s != [] {
      var s', a := s[..|s| - 1], s[|s| - 1];
      SummarizeAds(s');
      SumSnoc(Filter(s', IsAd), a, Exposure);
    }
  }

  /** The in-game placements are exactly the other appearances, in order, and their time is their exposure. */
  lemma {:induction false} SummarizeInGame(s: seq<Appearance>)
    ensures Summarize(s).inGamePlacements == Filter(s, IsInGame)
    ensures Summarize(s).inGamePlacementTime == Sum(Filter(s, IsInGame), Exposure)
  {
    if s != [] {
      var s', a := s[..|s| - 1], s[|s| - 1];
      SummarizeInGame(s');
      SumSnoc(Filter(s', IsInGame), a, Exposure);
    }
  }

  /** high_impact_moments counts the appearances in a high-impact context, primary, or with high attention. */
  lemma {:induction false} SummarizeHighImpact(s: seq<Appearance>)
    ensures Summarize(s).highImpactMoments == Count(s, IsHighImpact)
  {
    if s != [] {
      SummarizeHighImpact(s[..|s| - 1]);
    }
  }

  /** The contexts list holds each context of the brand's appearances once (the Counter's keys). */
  lemma {:induction false} SummarizeContexts(s: seq<Appearance>)
    ensures forall c :: c in Summarize(s).contexts <==> exists a :: a in s && ContextOf(a) == c
    ensures Distinct(Summarize(s).contexts)
  {
    if s != [] {
      var s', a := s[..|s| - 1], s[|s| - 1];
      SummarizeContexts(s');
      SplitLast(s);
    }
  }

  // ---------------------------------------------------------------------------
  // The grouping loop as a specification: a fold over the appearances
  // ---------------------------------------------------------------------------

  /** `brand_data` with its insertion order made explicit. */
  datatype Grouped = Grouped(order: seq<string>, data: map<string, BrandData>)

  function GroupStep(g: Grouped, a: Appearance): Grouped
  {
    if !Kept(a) then g
    else
      var k := BrandKey(a);
      var d := if k in g.data then g.data[k] else NewBrandData;
      Grouped(if k in g.data then g.order else g.order + [k], g.data[k := Record(d, WithCategory(a))])
  }

  function GroupAll(apps: seq<Appearance>): Grouped
  {
    if apps == [] then Grouped([], map[])
    else GroupStep(GroupAll(apps[..|apps| - 1]), apps[|apps| - 1])
  }

  /** Reference definition: the kept appearances, categorised, in input order. */
  function KeptCategorized(apps: seq<Appearance>): (r: seq<Appearance>)
    ensures |r| <= |apps|
  {
    if apps == [] then []
    else
      var a := apps[|apps| - 1];
      KeptCategorized(apps[..|apps| - 1]) + (if Kept(a) then [WithCategory(a)] else [])
  }

  /** Reference definition: the kept, categorised appearances of brand `b`, in input order. */
  function ForBrand(apps: seq<Appearance>, b: string): seq<Appearance>
  {
    if apps == [] then []
    else
      var a := apps[|apps| - 1];
      ForBrand(apps[..|apps| - 1], b) + (if Kept(a) && BrandKey(a) == b then [WithCategory(a)] else [])
  }

  predicate Distinct<T(==)>(s: seq<T>) {
    forall i, j :: 0 <= i < j < |s| ==> s[i] != s[j]
  }

  lemma GroupAllSnoc(s: seq<Appearance>, a: Appearance)
    ensures GroupAll(s + [a]) == GroupStep(GroupAll(s), a)
  {
    SnocFront(s, a);
  }

  lemma ForBrandSnoc(s: seq<Appearance>, a: Appearance, b: string)
    ensures ForBrand(s + [a], b) == ForBrand(s, b) + (if Kept(a) && BrandKey(a) == b then [WithCategory(a)] else [])
  {
    SnocFront(s, a);
  }

  lemma KeptCategorizedSnoc(s: seq<Appearance>, a: Appearance)
    ensures KeptCategorized(s + [a]) == KeptCategorized(s) + (if Kept(a) then [WithCategory(a)] else [])
  {
    SnocFront(s, a);
  }

  /**
   * The keys of the grouping pass: the insertion order lists every key of the
   * dictionary exactly once, and a brand is a key exactly when at least one
   * kept appearance carries it.
   */
  lemma {:induction false} GroupAllKeys(apps: seq<Appearance>)
    ensures forall b :: b in GroupAll(apps).data <==> b in GroupAll(apps).order
    ensures Distinct(GroupAll(apps).order)
    ensures forall b :: b in GroupAll(apps).data <==> ForBrand(apps, b) != []
  {
    if apps != [] {
      var s, a := apps[..|apps| - 1], apps[|apps| - 1];
      SplitLast(apps);
      GroupAllKeys(s);
      GroupAllSnoc(s, a);
      forall b {
        ForBrandSnoc(s, a, b);
      }
      var g := GroupAll(s);
      if Kept(a) && BrandKey(a) !in g.data {
        var k := BrandKey(a);
        var o := g.order + [k];
        forall i, j | 0 <= i < j < |o| ensures o[i] != o[j] {
          if j == |o| - 1 {
            assert o[i] in g.order;
          } else {
            assert o[i] == g.order[i] && o[j] == g.order[j];
          }
        }
      }
    }
  }

  lemma GroupStepOther(g: Grouped, a: Appearance, b: string)
    requires b in g.data
    requires !(Kept(a) && BrandKey(a) == b)
    ensures b in GroupStep(g, a).data && GroupStep(g, a).data[b] == g.data[b]
  {
  }

  /** One grouping step keeps every accumulator equal to the summary of its brand's kept appearances. */
  lemma GroupStepData(g: Grouped, s: seq<Appearance>, a: Appearance, b: string)
    requires forall c :: c in g.data ==> g.data[c] == Summarize(ForBrand(s, c))
    requires forall c :: c in g.data <==> ForBrand(s, c) != []
    requires b in GroupStep(g, a).data
    ensures GroupStep(g, a).data[b] == Summarize(ForBrand(s + [a], b))
  {
    ForBrandSnoc(s, a, b);
    var prev := ForBrand(s, b);
    if Kept(a) && BrandKey(a) == b {
      var x := WithCategory(a);
      assert ForBrand(s + [a], b) == prev + [x];
      SummarizeSnoc(prev, x);
      if b !in g.data {
        assert prev == [];
        assert Summarize(prev) == NewBrandData;
      }
    } else {
      assert ForBrand(s + [a], b) == prev;
      GroupStepOther(g, a, b);
      assert g.data[b] == Summarize(prev);
    }
  }

  /**
   * The accumulators of the grouping pass: each brand's entry summarises
   * exactly that brand's kept appearances, categorised, in input order.
   */
  lemma {:induction false} GroupAllData(apps: seq<Appearance>)
    ensures forall b :: b in GroupAll(apps).data ==> GroupAll(apps).data[b] == Summarize(ForBrand(apps, b))
  {
    if apps != [] {
      var s, a := apps[..|apps| - 1], apps[|apps| - 1];
      SplitLast(apps);
      GroupAllData(s);
      GroupAllKeys(s);
      GroupAllSnoc(s, a);
      forall b | b in GroupAll(apps).data
        ensures GroupAll(apps).data[b] == Summarize(ForBrand(apps, b))
      {
        GroupStepData(GroupAll(s), s, a, b);
      }
    }
  }

  /** The brands' appearance lists laid end to end, in key order (raw_detections). */
  function Flatten(order: seq<string>, data: map<string, BrandData>): seq<Appearance>
    requires forall b :: b in order ==> b in data
  {
    if order == [] then []
    else Flatten(order[..|order| - 1], data) + data[order[|order| - 1]].appearances
  }

  lemma {:induction false} FlattenFrame(order: seq<string>, d1: map<string, BrandData>, d2: map<string, BrandData>)
    requires forall b :: b in order ==> b in d1 && b in d2 && d1[b] == d2[b]
    ensures Flatten(order, d1) == Flatten(order, d2)
  {
    if order != [] {
      FlattenFrame(order[..|order| - 1], d1, d2);
    }
  }

  lemma {:induction false} FlattenUpdate(order: seq<string>, data: map<string, BrandData>, k: string, v: BrandData)
    requires forall b :: b in order ==> b in data
    requires Distinct(order) && k in order
    ensures multiset(Flatten(order, data[k := v])) + multiset(data[k].appearances)
         == multiset(Flatten(order, data)) + multiset(v.appearances)
  {
    var o', last := order[..|order| - 1], order[|order| - 1];
    var data' := data[k := v];
    assert Flatten(order, data) == Flatten(o', data) + data[last].appearances;
    assert Flatten(order, data') == Flatten(o', data') + data'[last].appearances;
    if last == k {
      forall i | 0 <= i < |o'| ensures o'[i] != k {
        assert o'[i] == order[i];
      }
      FlattenFrame(o', data, data');
    } else {
      assert k in o';
      assert Distinct(o') by {
        forall i, j | 0 <= i < j < |o'| ensures o'[i] != o'[j] {
          assert o'[i] == order[i] && o'[j] == order[j];
        }
      }
      FlattenUpdate(o', data, k, v);
      assert data'[last] == data[last];
      var l := multiset(data[last].appearances);
      calc {
        multiset(Flatten(order, data')) + multiset(data[k].appearances);
        (multiset(Flatten(o', data')) + multiset(data[k].appearances)) + l;
        (multiset(Flatten(o', data)) + multiset(v.appearances)) + l;
        multiset(Flatten(order, data)) + multiset(v.appearances);
      }
    }
  }

  /** Adding to the list of a brand already listed adds one element to the flattened lists. */
  lemma FlattenAppendExisting(order: seq<string>, data: map<string, BrandData>, k: string, x: Appearance)
    requires forall b :: b in order ==> b in data
    requires Distinct(order) && k in order
    ensures var v := Record(data[k], x);
      multiset(Flatten(order, data[k := v])) == multiset(Flatten(order, data)) + multiset{x}
  {
    var d := data[k];
    var v := Record(d, x);
    assert v.appearances == d.appearances + [x];
    FlattenUpdate(order, data, k, v);
    var f2, f, m := multiset(Flatten(order, data[k := v])), multiset(Flatten(order, data)), multiset(d.appearances);
    assert multiset(v.appearances) == m + multiset{x};
    assert f2 + m == (f + multiset{x}) + m;
    forall y ensures f2[y] == (f + multiset{x})[y] {
      assert (f2 + m)[y] == ((f + multiset{x}) + m)[y];
    }
  }

  /** Listing a new brand with one element adds that element to the flattened lists. */
  lemma FlattenAppendNew(order: seq<string>, data: map<string, BrandData>, k: string, x: Appearance)
    requires forall b :: b in order ==> b in data
    requires k !in order
    ensures var v := Record(NewBrandData, x);
      (forall b :: b in order + [k] ==> b in data[k := v]) &&
      Flatten(order + [k], data[k := v]) == Flatten(order, data) + [x]
  {
    var v := Record(NewBrandData, x);
    var o2 := order + [k];
    FlattenFrame(order, data, data[k := v]);
    assert o2[..|o2| - 1] == order;
    assert v.appearances == [x];
  }

  /** One grouping step adds the appearance, categorised, to the flattened lists when it is kept. */
  lemma FlattenStep(g: Grouped, a: Appearance)
    requires forall b :: b in g.data <==> b in g.order
    requires Distinct(g.order)
    ensures forall b :: b in GroupStep(g, a).order ==> b in GroupStep(g, a).data
    ensures multiset(Flatten(GroupStep(g, a).order, GroupStep(g, a).data))
         == multiset(Flatten(g.order, g.data)) + (if Kept(a) then multiset{WithCategory(a)} else multiset{})
  {
    if Kept(a) {
      var k, x := BrandKey(a), WithCategory(a);
      if k in g.data {
        FlattenAppendExisting(g.order, g.data, k, x);
      } else {
        FlattenAppendNew(g.order, g.data, k, x);
      }
    }
  }

  /** raw_detections is a rearrangement of the kept appearances: nothing lost, nothing repeated. */
  lemma {:induction false} FlattenIsPermutation(apps: seq<Appearance>)
    ensures forall b :: b in GroupAll(apps).order ==> b in GroupAll(apps).data
    ensures multiset(Flatten(GroupAll(apps).order, GroupAll(apps).data)) == multiset(KeptCategorized(apps))
  {
    FlattenPermutesAll(apps);
  }

  predicate FlattenPermutes(apps: seq<Appearance>) {
    var g := GroupAll(apps);
    (forall b :: b in g.order ==> b in g.data) &&
    multiset(Flatten(g.order, g.data)) == multiset(KeptCategorized(apps))
  }

  lemma {:induction false} FlattenPermutesAll(apps: seq<Appearance>)
    ensures FlattenPermutes(apps)
  {
    if apps != [] {
      var s, a := apps[..|apps| - 1], apps[|apps| - 1];
      SplitLast(apps);
      FlattenPermutesAll(s);
      FlattenSnoc(s, a);
    }
  }

  /** Reference definition: the kept brand names in the order each first occurs in the input. */
  function FirstKeys(apps: seq<Appearance>): seq<string>
  {
    if apps == [] then []
    else
      var p, a := FirstKeys(apps[..|apps| - 1]), apps[|apps| - 1];
      if !Kept(a) || BrandKey(a) in p then p else p + [BrandKey(a)]
  }

  /** Reference definition: each listed brand's kept appearances, brand after brand. */
  function JoinBrands(keys: seq<string>, apps: seq<Appearance>): seq<Appearance>
  {
    if keys == [] then []
    else JoinBrands(keys[..|keys| - 1], apps) + ForBrand(apps, keys[|keys| - 1])
  }

  /** The dictionary's insertion order is the order in which each kept brand first occurs. */
  lemma {:induction false} GroupAllOrder(apps: seq<Appearance>)
    ensures GroupAll(apps).order == FirstKeys(apps)
  {
    if apps != [] {
      var s, a := apps[..|apps| - 1], apps[|apps| - 1];
      SplitLast(apps);
      GroupAllOrder(s);
      GroupAllKeys(s);
      GroupAllSnoc(s, a);
    }
  }

  lemma {:induction false} FlattenJoin(order: seq<string>, data: map<string, BrandData>, apps: seq<Appearance>)
    requires forall b :: b in order ==> b in data && data[b] == Summarize(ForBrand(apps, b))
    ensures Flatten(order, data) == JoinBrands(order, apps)
  {
    if order != [] {
      FlattenJoin(order[..|order| - 1], data, apps);
    }
  }

  /**
   * raw_detections as a sequence: brand by brand in first-occurrence order,
   * each brand's kept appearances in input order.
   */
  lemma GroupAllFlatten(apps: seq<Appearance>)
    ensures forall b :: b in GroupAll(apps).order ==> b in GroupAll(apps).data
    ensures Flatten(GroupAll(apps).order, GroupAll(apps).data) == JoinBrands(FirstKeys(apps), apps)
  {
    GroupAllKeys(apps);
    GroupAllData(apps);
    GroupAllOrder(apps);
    FlattenJoin(GroupAll(apps).order, GroupAll(apps).data, apps);
  }

  lemma FlattenSnoc(s: seq<Appearance>, a: Appearance)
    requires FlattenPermutes(s)
    ensures FlattenPermutes(s + [a])
  {
    GroupAllKeys(s);
    GroupAllSnoc(s, a);
    KeptCategorizedSnoc(s, a);
    FlattenStep(GroupAll(s), a);
  }

  /** The number of appearances summed over the brands (total_brand_appearances). */
  function TotalAppearances(order: seq<string>, data: map<string, BrandData>): nat
    requires forall b :: b in order ==> b in data
  {
    if order == [] then 0
    else TotalAppearances(order[..|order| - 1], data) + |data[order[|order| - 1]].appearances|
  }

  lemma {:induction false} TotalAppearancesFlatten(order: seq<string>, data: map<string, BrandData>)
    requires forall b :: b in order ==> b in data
    ensures TotalAppearances(order, data) == |Flatten(order, data)|
  {
    if order != [] {
      TotalAppearancesFlatten(order[..|order| - 1], data);
    }
  }

  // ---------------------------------------------------------------------------
  // The grouping loop itself
  // ---------------------------------------------------------------------------

  /** One iteration of the grouping loop on the accumulator of the appearance's brand. */
  method AddAppearance(d0: BrandData, a: Appearance) returns (d: BrandData)
    ensures d == Record(d0, a)
  {
    d := d0;
    d := d.(appearances := d.appearances + [a]);
    if a.sponsorshipCategory == Some(AdPlacement) {
      d := d.(adPlacements := d.adPlacements + [a]);
    } else {
      d := d.(inGamePlacements := d.inGamePlacements + [a]);
    }
    if |a.timeline| >= 2 {
      var exposure := a.timeline[1] - a.timeline[0];
      d := d.(totalExposureTime := d.totalExposureTime + exposure);
      if a.sponsorshipCategory == Some(AdPlacement) {
        d := d.(adPlacementTime := d.adPlacementTime + exposure);
      } else {
        d := d.(inGamePlacementTime := d.inGamePlacementTime + exposure);
      }
    }
    var context := a.context.GetOr("unknown");
    if context !in d.contexts {
      d := d.(contexts := d.contexts + [context]);
    }
    if context in HighImpactContexts || a.prominence == Some("primary") || a.viewerAttention == Some("high") {
      d := d.(highImpactMoments := d.highImpactMoments + 1);
    }
  }

  /** The body of the grouping loop for one detection. */
  method GroupOne(order0: seq<string>, data0: map<string, BrandData>, detection: Appearance)
    returns (order: seq<string>, data: map<string, BrandData>)
    ensures Grouped(order, data) == GroupStep(Grouped(order0, data0), detection)
  {
    order, data := order0, data0;
    var a := detection;
    var name := Strip(a.brand);
    if name == "" || !IsValidBrandAsWritten(name) {
      return;
    }
    if a.sponsorshipCategory.None? {
      a := a.(sponsorshipCategory := Some(CategorizePlacement(a.placementType.GetOr(""), a.context.GetOr(""))));
    }
    if name !in data {
      data := data[name := NewBrandData];
      order := order + [name];
    }
    var d := AddAppearance(data[name], a);
    data := data[name := d];
  }

  /** The grouping loop (brand_data), with the dictionary's insertion order as `order`. */
  method GroupAppearances(apps: seq<Appearance>) returns (order: seq<string>, data: map<string, BrandData>)
    ensures Grouped(order, data) == GroupAll(apps)
  {
    order, data := [], map[];
    var i := 0;
    while i < |apps|
      invariant 0 <= i <= |apps|
      invariant Grouped(order, data) == GroupAll(apps[..i])
    {
      ghost var before := Grouped(order, data);
      TakeSnoc(apps, i);
      GroupAllSnoc(apps[..i], apps[i]);
      assert GroupAll(apps[..i + 1]) == GroupStep(before, apps[i]);
      order, data := GroupOne(order, data, apps[i]);
      i := i + 1;
    }
    assert apps[..i] == apps;
  }
}
