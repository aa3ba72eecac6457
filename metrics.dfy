// The per-video report of analyze_video_with_progress: the sponsorship
// breakdown and the metric record of every brand the grouping pass kept, the
// video summary, and the flat list of raw detections.

module Metrics {
  import opened Common
  import opened Classify
  import opened Grouping

  // ---------------------------------------------------------------------------
  // Sponsorship breakdown
  // ---------------------------------------------------------------------------

  datatype CategoryStats = CategoryStats(count: nat, exposureTime: real, percentageOfTotal: real)

  datatype Breakdown = Breakdown(adPlacements: CategoryStats, inGamePlacements: CategoryStats)

  /** The sponsorship_breakdown of one brand's accumulator. */
  function BreakdownOf(d: BrandData): Breakdown
  {
    Breakdown(
      CategoryStats(|d.adPlacements|, d.adPlacementTime, Percentage(d.adPlacementTime, d.totalExposureTime)),
      CategoryStats(|d.inGamePlacements|, d.inGamePlacementTime, Percentage(d.inGamePlacementTime, d.totalExposureTime)))
  }

  /**
   * The breakdown of a brand partitions its appearances: the counts are the
   * numbers of ad and in-game appearances and add up to all of them, the
   * times add up to the total exposure, and the two percentages add up to
   * 100 (or are both 0 when there is no exposure).
   */
  lemma BreakdownPartition(s: seq<Appearance>)
    ensures var b := BreakdownOf(Summarize(s));
      b.adPlacements.count == Count(s, IsAd) &&
      b.inGamePlacements.count == Count(s, IsInGame) &&
      b.adPlacements.count + b.inGamePlacements.count == |s| &&
      b.adPlacements.exposureTime + b.inGamePlacements.exposureTime == Sum(s, Exposure) &&
      (Sum(s, Exposure) > 0.0 ==> b.adPlacements.percentageOfTotal + b.inGamePlacements.percentageOfTotal == 100.0) &&
      (Sum(s, Exposure) <= 0.0 ==> b.adPlacements.percentageOfTotal == 0.0 && b.inGamePlacements.percentageOfTotal == 0.0)
  {
    var d := Summarize(s);
    SummarizeAds(s);
    SummarizeInGame(s);
    FilterCount(s, IsAd);
    FilterCount(s, IsInGame);
    PercentagesComplement(d.adPlacementTime, d.inGamePlacementTime, d.totalExposureTime);
  }

  // ---------------------------------------------------------------------------
  // One brand's metric record
  // ---------------------------------------------------------------------------

  /** The sentiment every brand receives; it is above the 0.6 "positive" threshold. */
  const DefaultSentiment: real := 0.8

  function SentimentLabel(score: real): string {
    if score > 0.6 then "positive" else "neutral"
  }

  function ProminenceWeight(a: Appearance): real {
    if a.prominence == Some("primary") then 1.0
    else if a.prominence == Some("secondary") then 0.6
    else 0.3
  }

  function AttentionWeight(a: Appearance): real {
    if a.viewerAttention == Some("high") then 1.0
    else if a.viewerAttention == Some("medium") then 0.6
    else 0.3
  }

  /** The prominence and attention averages: plain means of the weights, 0.5 for no appearances. */
  method AverageWeights(apps: seq<Appearance>) returns (avgProminence: real, avgAttention: real)
    ensures avgProminence == MeanOr(apps, ProminenceWeight, 0.5)
    ensures avgAttention == MeanOr(apps, AttentionWeight, 0.5)
  {
    var prominenceTotal, attentionTotal := 0.0, 0.0;
    var i := 0;
    while i < |apps|
      invariant 0 <= i <= |apps|
      invariant prominenceTotal == Sum(apps[..i], ProminenceWeight)
      invariant attentionTotal == Sum(apps[..i], AttentionWeight)
    {
      var app := apps[i];
      TakeSnoc(apps, i);
      SumSnoc(apps[..i], app, ProminenceWeight);
      SumSnoc(apps[..i], app, AttentionWeight);
      if app.prominence == Some("primary") {
        prominenceTotal := prominenceTotal + 1.0;
      } else if app.prominence == Some("secondary") {
        prominenceTotal := prominenceTotal + 0.6;
      } else {
        prominenceTotal := prominenceTotal + 0.3;
      }
      if app.viewerAttention == Some("high") {
        attentionTotal := attentionTotal + 1.0;
      } else if app.viewerAttention == Some("medium") {
        attentionTotal := attentionTotal + 0.6;
      } else {
        attentionTotal := attentionTotal + 0.3;
      }
      i := i + 1;
    }
    assert apps[..i] == apps;
    if |apps| == 0 {
      avgProminence, avgAttention := 0.5, 0.5;
    } else {
      avgProminence := prominenceTotal / |apps| as real;
      avgAttention := attentionTotal / |apps| as real;
    }
  }

  /** Both averages lie between the smallest weight 0.3 and the largest 1.0. */
  lemma AverageWeightBounds(apps: seq<Appearance>)
    ensures 0.3 <= MeanOr(apps, ProminenceWeight, 0.5) <= 1.0
    ensures 0.3 <= MeanOr(apps, AttentionWeight, 0.5) <= 1.0
  {
    MeanBounds(apps, ProminenceWeight, 0.5, 0.3, 1.0);
    MeanBounds(apps, AttentionWeight, 0.5, 0.3, 1.0);
  }

  /**
   * One entry of brand_metrics. The AI-derived contextual_value_score and
   * estimated_social_mentions are inputs; ai_insights is not represented.
   */
  datatype BrandMetric = BrandMetric(
    brand: string,
    totalExposureTime: real,
    totalAppearances: nat,
    contextualValueScore: real,
    highImpactMoments: nat,
    sentimentScore: real,
    sentimentLabel: string,
    avgProminence: real,
    avgViewerAttention: real,
    contexts: seq<string>,
    estimatedSocialMentions: nat,
    appearances: seq<Appearance>,
    sponsorshipBreakdown: Breakdown,
    adPlacements: seq<Appearance>,
    inGamePlacements: seq<Appearance>)

  /** The metric record built from a brand's accumulator and the two AI-derived numbers. */
  function MetricOf(brand: string, d: BrandData, contextualScore: real, socialMentions: nat): BrandMetric
  {
    BrandMetric(
      brand, d.totalExposureTime, |d.appearances|, contextualScore, d.highImpactMoments,
      DefaultSentiment, SentimentLabel(DefaultSentiment),
      MeanOr(d.appearances, ProminenceWeight, 0.5), MeanOr(d.appearances, AttentionWeight, 0.5),
      d.contexts, socialMentions, d.appearances, BreakdownOf(d), d.adPlacements, d.inGamePlacements)
  }

  /**
   * What a brand's metric record says about the brand's kept appearances `s`:
   * the counts and times partition them, the contexts are their distinct
   * contexts, the averages are bounded by the weights and the sentiment is
   * the positive default.
   */
  lemma MetricOfMeaning(brand: string, s: seq<Appearance>, contextualScore: real, socialMentions: nat)
    ensures var m := MetricOf(brand, Summarize(s), contextualScore, socialMentions);
      m.brand == brand && m.appearances == s && m.totalAppearances == |s| &&
      m.totalExposureTime == Sum(s, Exposure) &&
      m.highImpactMoments == Count(s, IsHighImpact) &&
      m.adPlacements == Filter(s, IsAd) && m.inGamePlacements == Filter(s, IsInGame) &&
      |m.adPlacements| + |m.inGamePlacements| == m.totalAppearances &&
      m.sponsorshipBreakdown.adPlacements.exposureTime + m.sponsorshipBreakdown.inGamePlacements.exposureTime
        == m.totalExposureTime &&
      (forall c :: c in m.contexts <==> exists a :: a in s && ContextOf(a) == c) &&
      Distinct(m.contexts) &&
      0.3 <= m.avgProminence <= 1.0 && 0.3 <= m.avgViewerAttention <= 1.0 &&
      m.sentimentLabel == "positive" &&
      m.contextualValueScore == contextualScore && m.estimatedSocialMentions == socialMentions
  {
    SummarizeAds(s);
    SummarizeInGame(s);
    SummarizeHighImpact(s);
    SummarizeContexts(s);
    AverageWeightBounds(s);
  }

  /** The brand_metrics loop: one record per key of brand_data, in insertion order. */
  method BuildBrandMetrics(order: seq<string>, data: map<string, BrandData>,
                           contextual: string -> real, social: string -> nat)
    returns (metrics: seq<BrandMetric>)
    requires forall b :: b in order ==> b in data
    ensures |metrics| == |order|
    ensures forall i :: 0 <= i < |order| ==>
      metrics[i] == MetricOf(order[i], data[order[i]], contextual(order[i]), social(order[i]))
  {
    metrics := [];
    for i := 0 to |order|
      invariant |metrics| == i
      invariant forall j :: 0 <= j < i ==>
        metrics[j] == MetricOf(order[j], data[order[j]], contextual(order[j]), social(order[j]))
    {
      var name := order[i];
      var d := data[name];
      var avgProminence, avgAttention := AverageWeights(d.appearances);
      var m := BrandMetric(
        name, d.totalExposureTime, |d.appearances|, contextual(name), d.highImpactMoments,
        DefaultSentiment, if DefaultSentiment > 0.6 then "positive" else "neutral",
        avgProminence, avgAttention, d.contexts, social(name), d.appearances,
        Breakdown(
          CategoryStats(|d.adPlacements|, d.adPlacementTime,
            if d.totalExposureTime > 0.0 then d.adPlacementTime / d.totalExposureTime * 100.0 else 0.0),
          CategoryStats(|d.inGamePlacements|, d.inGamePlacementTime,
            if d.totalExposureTime > 0.0 then d.inGamePlacementTime / d.totalExposureTime * 100.0 else 0.0)),
        d.adPlacements, d.inGamePlacements);
      metrics := metrics + [m];
    }
  }

  /** all_appearances: the brands' appearance lists laid end to end, in insertion order. */
  method CollectDetections(order: seq<string>, data: map<string, BrandData>) returns (all: seq<Appearance>)
    requires forall b :: b in order ==> b in data
    ensures all == Flatten(order, data)
  {
    all := [];
    for i := 0 to |order|
      invariant all == Flatten(order[..i], data)
    {
      TakeTake(order, i);
      all := all + data[order[i]].appearances;
    }
    assert order[..|order|] == order;
  }

  // ---------------------------------------------------------------------------
  // The report
  // ---------------------------------------------------------------------------

  /** The summary block; event_title and analysis_date are not represented. */
  datatype VideoSummary = VideoSummary(
    videoDurationMinutes: real,
    totalBrandsDetected: nat,
    totalBrandAppearances: nat,
    brandsAnalyzed: seq<string>)

  /** The 'data' of a completed single-video job; analysis_timestamp is not represented. */
  datatype VideoReport = VideoReport(
    summary: VideoSummary,
    brandMetrics: seq<BrandMetric>,
    rawDetections: seq<Appearance>,
    videoId: string)

  /**
   * From the detections to the report: grouping, the brand metrics, the
   * summary counts and the raw detections. The video duration is in
   * seconds; the AI-derived numbers come in as functions of the brand name.
   */
  method AnalyzeAppearances(apps: seq<Appearance>, videoDuration: real, videoId: string,
                            brandsToAnalyze: seq<string>, contextual: string -> real, social: string -> nat)
    returns (r: VideoReport)
    ensures r.videoId == videoId
    ensures r.summary.videoDurationMinutes == videoDuration / 60.0
    ensures r.summary.brandsAnalyzed == brandsToAnalyze
    ensures r.summary.totalBrandsDetected == |r.brandMetrics|
    ensures multiset(r.rawDetections) == multiset(KeptCategorized(apps))
    ensures r.rawDetections == JoinBrands(FirstKeys(apps), apps)
    ensures r.summary.totalBrandAppearances == |r.rawDetections|
    ensures |r.brandMetrics| == |FirstKeys(apps)|
    ensures forall i :: 0 <= i < |r.brandMetrics| ==> r.brandMetrics[i].brand == FirstKeys(apps)[i]
    ensures forall i, j :: 0 <= i < j < |r.brandMetrics| ==> r.brandMetrics[i].brand != r.brandMetrics[j].brand
    ensures forall b :: (exists i :: 0 <= i < |r.brandMetrics| && r.brandMetrics[i].brand == b) <==> ForBrand(apps, b) != []
    ensures forall i :: 0 <= i < |r.brandMetrics| ==>
      var b := r.brandMetrics[i].brand;
      r.brandMetrics[i] == MetricOf(b, Summarize(ForBrand(apps, b)), contextual(b), social(b))
  {
    var order, data := GroupAppearances(apps);
    GroupAllKeys(apps);
    FlattenIsPermutation(apps);
    GroupAllFlatten(apps);
    var metrics := BuildBrandMetrics(order, data, contextual, social);
    MetricsPerBrand(apps, metrics, contextual, social);
    var total := TotalOf(order, data);
    var all := CollectDetections(order, data);
    TotalAppearancesFlatten(order, data);
    KeysCount(order, data);
    var summary := VideoSummary(videoDuration / 60.0, |data|, total, brandsToAnalyze);
    r := VideoReport(summary, metrics, all, videoId);
  }

  /** The brand_metrics list built over the grouping pass names each kept brand once, with its summary. */
  lemma MetricsPerBrand(apps: seq<Appearance>, metrics: seq<BrandMetric>, contextual: string -> real, social: string -> nat)
    requires var g := GroupAll(apps);
      (forall b :: b in g.order ==> b in g.data) &&
      |metrics| == |g.order| &&
      forall i :: 0 <= i < |g.order| ==>
        metrics[i] == MetricOf(g.order[i], g.data[g.order[i]], contextual(g.order[i]), social(g.order[i]))
    ensures |metrics| == |FirstKeys(apps)|
    ensures forall i :: 0 <= i < |metrics| ==> metrics[i].brand == FirstKeys(apps)[i]
    ensures forall i, j :: 0 <= i < j < |metrics| ==> metrics[i].brand != metrics[j].brand
    ensures forall b :: (exists i :: 0 <= i < |metrics| && metrics[i].brand == b) <==> ForBrand(apps, b) != []
    ensures forall i :: 0 <= i < |metrics| ==>
      var b := metrics[i].brand;
      metrics[i] == MetricOf(b, Summarize(ForBrand(apps, b)), contextual(b), social(b))
  {
    var g := GroupAll(apps);
    GroupAllKeys(apps);
    GroupAllData(apps);
    GroupAllOrder(apps);
    MetricsOfTable(g.order, g.data, metrics, contextual, social);
    forall i | 0 <= i < |metrics|
      ensures metrics[i] == MetricOf(metrics[i].brand, Summarize(ForBrand(apps, metrics[i].brand)),
                                     contextual(metrics[i].brand), social(metrics[i].brand))
    {
      var b := g.order[i];
      assert b in g.data;
      assert g.data[b] == Summarize(ForBrand(apps, b));
    }
    forall i, j | 0 <= i < j < |metrics| ensures metrics[i].brand != metrics[j].brand {
      assert g.order[i] != g.order[j];
    }
  }

  lemma MetricsOfTable(order: seq<string>, data: map<string, BrandData>, metrics: seq<BrandMetric>,
                       contextual: string -> real, social: string -> nat)
    requires forall b :: b in order ==> b in data
    requires |metrics| == |order|
    requires forall i :: 0 <= i < |order| ==>
      metrics[i] == MetricOf(order[i], data[order[i]], contextual(order[i]), social(order[i]))
    ensures forall i :: 0 <= i < |metrics| ==> metrics[i].brand == order[i]
    ensures forall b :: (exists i :: 0 <= i < |metrics| && metrics[i].brand == b) <==> b in order
  {
    forall b ensures (exists i :: 0 <= i < |metrics| && metrics[i].brand == b) <==> b in order {
      if b in order {
        var i :| 0 <= i < |order| && order[i] == b;
        assert metrics[i].brand == b;
      }
    }
  }

  /** total_appearances: the appearance counts summed over the brands. */
  method TotalOf(order: seq<string>, data: map<string, BrandData>) returns (total: nat)
    requires forall b :: b in order ==> b in data
    ensures total == TotalAppearances(order, data)
  {
    total := 0;
    for i := 0 to |order|
      invariant total == TotalAppearances(order[..i], data)
    {
      TakeTake(order, i);
      total := total + |data[order[i]].appearances|;
    }
    assert order[..|order|] == order;
  }

  /** A map whose keys are listed once each by `order` has as many entries as `order`. */
  lemma KeysCount<V>(order: seq<string>, data: map<string, V>)
    requires forall b :: b in data <==> b in order
    requires Distinct(order)
    ensures |data| == |order|
  {
    DistinctCard(order);
    assert data.Keys == set b | b in order;
  }

  lemma {:induction false} DistinctCard(order: seq<string>)
    requires Distinct(order)
    ensures |set b | b in order| == |order|
  {
    if order != [] {
      var o' := order[..|order| - 1];
      var last := order[|order| - 1];
      assert Distinct(o');
      DistinctCard(o');
      assert (set b | b in order) == (set b | b in o') + {last};
      forall i | 0 <= i < |o'| ensures o'[i] != last {
        assert o'[i] == order[i];
      }
    }
  }
}
