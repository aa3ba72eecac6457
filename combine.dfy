// combine_video_analyses: lays the analysed videos end to end on one
// timeline, shifts every detection by its video's start, sums each brand's
// figures over the videos, averages its scores, recomputes the category
// percentages and ranks the brands by exposure.

module Combine {
  import opened Common
  import opened Grouping
  import opened Metrics
  import opened Offset
  import opened Ranking

  const NoAnalysesError: string := "No successful analyses to combine"

  // ---------------------------------------------------------------------------
  // Data
  // ---------------------------------------------------------------------------

  /** One entry of combined_brand_metrics; sentiment_label is only set for brands with appearances. */
  datatype CombinedMetric = CombinedMetric(
    brand: string,
    totalExposureTime: real,
    totalAppearances: nat,
    contextualValueScore: real,
    highImpactMoments: nat,
    sentimentScore: real,
    sentimentLabel: Option<string>,
    avgProminence: real,
    avgViewerAttention: real,
    contexts: set<string>,
    estimatedSocialMentions: nat,
    appearances: seq<Appearance>,
    sponsorshipBreakdown: Breakdown,
    adPlacements: seq<Appearance>,
    inGamePlacements: seq<Appearance>)

  const ZeroStats: CategoryStats := CategoryStats(0, 0.0, 0.0)

  function NewCombined(brand: string): CombinedMetric {
    CombinedMetric(brand, 0.0, 0, 0.0, 0, 0.0, None, 0.0, 0.0, {}, 0, [], Breakdown(ZeroStats, ZeroStats), [], [])
  }

  /** One entry of videos_analyzed. */
  datatype VideoSlot = VideoSlot(
    videoId: string,
    filename: string,
    durationMinutes: real,
    startTimeSeconds: real,
    endTimeSeconds: real)

  /** combined_brand_metrics with its insertion order. */
  datatype Table = Table(metrics: map<string, CombinedMetric>, order: seq<string>)

  /** The variables of the first loop of combine_video_analyses. */
  datatype CombineState = CombineState(
    table: Table,
    detections: seq<Appearance>,
    totalDurationMinutes: real,
    totalBrandAppearances: nat,
    videos: seq<VideoSlot>,
    offset: real)

  const InitialState: CombineState := CombineState(Table(map[], []), [], 0.0, 0, [], 0.0)

  datatype CombinedSummary = CombinedSummary(
    totalVideos: nat,
    combinedDurationMinutes: real,
    totalBrandsDetected: nat,
    totalBrandAppearances: nat,
    topPerformingBrand: Option<string>,
    topBrandScore: real,
    videosAnalyzed: seq<VideoSlot>)

  /** The combined result; analysis_timestamp is not represented. */
  datatype CombinedReport = CombinedReport(
    combinedSummary: CombinedSummary,
    combinedBrandMetrics: seq<CombinedMetric>,
    rawDetections: seq<Appearance>,
    individualAnalyses: seq<Option<VideoReport>>,
    videoIds: seq<string>)

  // ---------------------------------------------------------------------------
  // The first loop as a specification
  // ---------------------------------------------------------------------------

  function DurationSeconds(r: VideoReport): real {
    r.summary.videoDurationMinutes * 60.0
  }

  function DurationMinutes(r: VideoReport): real {
    r.summary.videoDurationMinutes
  }

  function BrandAppearancesOf(r: VideoReport): nat {
    r.summary.totalBrandAppearances
  }

  /** "Video " followed by at most the first eight characters of the id. */
  function Filename(videoId: string): string {
    "Video " + videoId[..if |videoId| < 8 then |videoId| else 8]
  }

  /** Adds one video's metric record for a brand to the brand's combined entry. */
  function MergeMetric(c: CombinedMetric, m: BrandMetric, offset: real): Result<CombinedMetric>
  {
    match ShiftAll(m.appearances, offset)
    case Err(e) => Err(e)
    case Ok(apps) =>
      match ShiftAll(m.adPlacements, offset)
      case Err(e) => Err(e)
      case Ok(ads) =>
        match ShiftAll(m.inGamePlacements, offset)
        case Err(e) => Err(e)
        case Ok(inGame) =>
          var b, mb := c.sponsorshipBreakdown, m.sponsorshipBreakdown;
          Ok(c.(
            totalExposureTime := c.totalExposureTime + m.totalExposureTime,
            totalAppearances := c.totalAppearances + m.totalAppearances,
            highImpactMoments := c.highImpactMoments + m.highImpactMoments,
            estimatedSocialMentions := c.estimatedSocialMentions + m.estimatedSocialMentions,
            appearances := c.appearances + apps,
            adPlacements := c.adPlacements + ads,
            inGamePlacements := c.inGamePlacements + inGame,
            contexts := c.contexts + (set x | x in m.contexts),
            sponsorshipBreakdown := Breakdown(
              b.adPlacements.(
                count := b.adPlacements.count + mb.adPlacements.count,
                exposureTime := b.adPlacements.exposureTime + mb.adPlacements.exposureTime),
              b.inGamePlacements.(
                count := b.inGamePlacements.count + mb.inGamePlacements.count,
                exposureTime := b.inGamePlacements.exposureTime + mb.inGamePlacements.exposureTime))))
  }

  function MergeInto(t: Table, m: BrandMetric, offset: real): Result<Table>
  {
    var name := m.brand;
    var c := if name in t.metrics then t.metrics[name] else NewCombined(name);
    match MergeMetric(c, m, offset)
    case Err(e) => Err(e)
    case Ok(c') => Ok(Table(t.metrics[name := c'], if name in t.metrics then t.order else t.order + [name]))
  }

  function MergeAll(t: Table, ms: seq<BrandMetric>, offset: real): Result<Table>
  {
    if ms == [] then Ok(t)
    else
      match MergeAll(t, ms[..|ms| - 1], offset)
      case Err(e) => Err(e)
      case Ok(t') => MergeInto(t', ms[|ms| - 1], offset)
  }

  /** One iteration of the first loop; a falsy analysis is skipped and leaves the offset alone. */
  function StepAnalysis(st: CombineState, analysis: Option<VideoReport>): Result<CombineState>
  {
    match analysis
    case None => Ok(st)
    case Some(r) =>
      var start := st.offset;
      match ShiftAll(r.rawDetections, start)
      case Err(e) => Err(e)
      case Ok(dets) =>
        match MergeAll(st.table, r.brandMetrics, start)
        case Err(e) => Err(e)
        case Ok(t) =>
          var slot := VideoSlot(r.videoId, Filename(r.videoId), DurationMinutes(r), start, start + DurationSeconds(r));
          Ok(CombineState(
            t, st.detections + dets,
            st.totalDurationMinutes + DurationMinutes(r),
            st.totalBrandAppearances + BrandAppearancesOf(r),
            st.videos + [slot], start + DurationSeconds(r)))
  }

  function Fold(analyses: seq<Option<VideoReport>>): Result<CombineState>
  {
    if analyses == [] then Ok(InitialState)
    else
      match Fold(analyses[..|analyses| - 1])
      case Err(e) => Err(e)
      case Ok(st) => StepAnalysis(st, analyses[|analyses| - 1])
  }

  /** The analyses that are not falsy, in input order. */
  function Present(analyses: seq<Option<VideoReport>>): seq<VideoReport>
  {
    if analyses == [] then []
    else
      var a := analyses[|analyses| - 1];
      Present(analyses[..|analyses| - 1]) + (if a.Some? then [a.value] else [])
  }

  /** Every metric record of every analysis, in input order. */
  function AllMetrics(reports: seq<VideoReport>): seq<BrandMetric>
  {
    if reports == [] then []
    else AllMetrics(reports[..|reports| - 1]) + reports[|reports| - 1].brandMetrics
  }

  // ---------------------------------------------------------------------------
  // The second loop and the ranking as a specification
  // ---------------------------------------------------------------------------

  function OfBrand(b: string): BrandMetric -> bool {
    (m: BrandMetric) => m.brand == b
  }

  function ContextualOf(m: BrandMetric): real { m.contextualValueScore }
  function SentimentOf(m: BrandMetric): real { m.sentimentScore }
  function ProminenceOf(m: BrandMetric): real { m.avgProminence }
  function AttentionOf(m: BrandMetric): real { m.avgViewerAttention }

  /** The combined sentiment label: above 0.1 positive, below -0.1 negative, neutral between. */
  function CombinedLabel(score: real): (r: string)
    ensures r == "positive" <==> score > 0.1
    ensures r == "negative" <==> score < -0.1
    ensures r == "neutral" <==> -0.1 <= score <= 0.1
  {
    if score > 0.1 then "positive" else if score < -0.1 then "negative" else "neutral"
  }

  /**
   * The averages (over every metric record of the brand, in any analysis)
   * for a brand with appearances, then the category percentages of the
   * summed exposure.
   */
  function Finalize(c: CombinedMetric, all: seq<BrandMetric>): CombinedMetric
  {
    var ms := Filter(all, OfBrand(c.brand));
    var c1 :=
      if c.totalAppearances > 0 then
        var sentiment := MeanOr(ms, SentimentOf, 0.0);
        c.(contextualValueScore := MeanOr(ms, ContextualOf, 0.0),
           sentimentScore := sentiment,
           avgProminence := MeanOr(ms, ProminenceOf, 0.0),
           avgViewerAttention := MeanOr(ms, AttentionOf, 0.0),
           sentimentLabel := Some(CombinedLabel(sentiment)))
      else c;
    var b := c1.sponsorshipBreakdown;
    if c1.totalExposureTime > 0.0 then
      c1.(sponsorshipBreakdown := Breakdown(
        b.adPlacements.(percentageOfTotal := Percentage(b.adPlacements.exposureTime, c1.totalExposureTime)),
        b.inGamePlacements.(percentageOfTotal := Percentage(b.inGamePlacements.exposureTime, c1.totalExposureTime))))
    else c1
  }

  /** The second loop: every combined entry finalized, in insertion order. */
  function FinalizeAll(metrics: map<string, CombinedMetric>, order: seq<string>, all: seq<BrandMetric>): (r: seq<CombinedMetric>)
    requires forall b :: b in order ==> b in metrics
    ensures |r| == |order|
  {
    if order == [] then []
    else FinalizeAll(metrics, order[..|order| - 1], all) + [Finalize(metrics[order[|order| - 1]], all)]
  }

  function ExposureKey(c: CombinedMetric): real {
    c.totalExposureTime
  }

  /** The whole of combine_video_analyses. */
  function Combined(analyses: seq<Option<VideoReport>>, videoIds: seq<string>): Result<CombinedReport>
  {
    if analyses == [] then Err(NoAnalysesError)
    else
      match Fold(analyses)
      case Err(e) => Err(e)
      case Ok(st) =>
        FoldKeys(analyses);
        var ranked := SortDesc(FinalizeAll(st.table.metrics, st.table.order, AllMetrics(Present(analyses))), ExposureKey);
        var top := if ranked == [] then None else Some(ranked[0].brand);
        var topScore := if ranked == [] then 0.0 else ranked[0].contextualValueScore;
        Ok(CombinedReport(
          CombinedSummary(|videoIds|, st.totalDurationMinutes, |ranked|, st.totalBrandAppearances,
                          top, topScore, st.videos),
          ranked, st.detections, analyses, videoIds))
  }

  // ---------------------------------------------------------------------------
  // The table's keys
  // ---------------------------------------------------------------------------

  /** The brands named by some metric record. */
  function Brands(ms: seq<BrandMetric>): set<string> {
    set m | m in ms :: m.brand
  }

  lemma BrandsConcat(a: seq<BrandMetric>, b: seq<BrandMetric>)
    ensures Brands(a + b) == Brands(a) + Brands(b)
  {
    forall x | x in Brands(a + b) ensures x in Brands(a) + Brands(b) {
      var m :| m in a + b && m.brand == x;
      assert m in a || m in b;
    }
  }

  /** Every key is listed once in the insertion order, and the order lists only keys. */
  ghost predicate WellKeyed(t: Table) {
    (forall b :: b in t.metrics <==> b in t.order) && Distinct(t.order)
  }

  lemma MergeIntoKeys(t: Table, m: BrandMetric, offset: real)
    requires WellKeyed(t)
    requires MergeInto(t, m, offset).Ok?
    ensures WellKeyed(MergeInto(t, m, offset).value)
    ensures MergeInto(t, m, offset).value.metrics.Keys == t.metrics.Keys + {m.brand}
  {
    var name := m.brand;
    if name !in t.metrics {
      var o := t.order + [name];
      forall i, j | 0 <= i < j < |o| ensures o[i] != o[j] {
        if j == |o| - 1 {
          assert o[i] in t.order;
        } else {
          assert o[i] == t.order[i] && o[j] == t.order[j];
        }
      }
    }
  }

  lemma {:induction false} MergeAllKeys(t: Table, ms: seq<BrandMetric>, offset: real)
    requires WellKeyed(t)
    requires MergeAll(t, ms, offset).Ok?
    ensures WellKeyed(MergeAll(t, ms, offset).value)
    ensures MergeAll(t, ms, offset).value.metrics.Keys == t.metrics.Keys + Brands(ms)
  {
    if ms != [] {
      var ms', m := ms[..|ms| - 1], ms[|ms| - 1];
      SplitLast(ms);
      MergeAllKeys(t, ms', offset);
      MergeIntoKeys(MergeAll(t, ms', offset).value, m, offset);
    }
  }

  /** After the first loop, the table lists every brand named by a metric record exactly once. */
  lemma {:induction false} FoldKeys(analyses: seq<Option<VideoReport>>)
    requires Fold(analyses).Ok?
    ensures WellKeyed(Fold(analyses).value.table)
    ensures Fold(analyses).value.table.metrics.Keys == Brands(AllMetrics(Present(analyses)))
  {
    if analyses != [] {
      var s, a := analyses[..|analyses| - 1], analyses[|analyses| - 1];
      FoldKeys(s);
      assert Present(analyses) == Present(s) + (if a.Some? then [a.value] else []);
      var st := Fold(s).value;
      if a.Some? {
        var r := a.value;
        var before := AllMetrics(Present(s));
        assert AllMetrics(Present(analyses)) == before + r.brandMetrics by {
          assert (Present(s) + [r])[..|Present(s)|] == Present(s);
        }
        var dets := ShiftAll(r.rawDetections, st.offset);
        assert dets.Ok?;
        assert MergeAll(st.table, r.brandMetrics, st.offset).Ok?;
        assert Fold(analyses).value.table == MergeAll(st.table, r.brandMetrics, st.offset).value;
        MergeAllKeys(st.table, r.brandMetrics, st.offset);
        BrandsConcat(before, r.brandMetrics);
      } else {
        assert Fold(analyses) == Fold(s);
        assert Present(analyses) == Present(s);
      }
    }
  }

  // ---------------------------------------------------------------------------
  // Layout of the videos on the combined timeline
  // ---------------------------------------------------------------------------

  lemma FoldLast(s: seq<Option<VideoReport>>, a: Option<VideoReport>)
    ensures Present(s + [a]) == Present(s) + (if a.Some? then [a.value] else [])
    ensures Fold(s + [a]) == if Fold(s).Err? then Fold(s) else StepAnalysis(Fold(s).value, a)
  {
    SnocFront(s, a);
  }

  /** What one present analysis adds to the state. */
  lemma StepSome(st: CombineState, r: VideoReport)
    requires StepAnalysis(st, Some(r)).Ok?
    ensures ShiftAll(r.rawDetections, st.offset).Ok? && MergeAll(st.table, r.brandMetrics, st.offset).Ok?
    ensures var st' := StepAnalysis(st, Some(r)).value;
      st'.table == MergeAll(st.table, r.brandMetrics, st.offset).value &&
      st'.detections == st.detections + ShiftAll(r.rawDetections, st.offset).value &&
      st'.totalDurationMinutes == st.totalDurationMinutes + DurationMinutes(r) &&
      st'.totalBrandAppearances == st.totalBrandAppearances + BrandAppearancesOf(r) &&
      st'.videos == st.videos + [VideoSlot(r.videoId, Filename(r.videoId), DurationMinutes(r), st.offset, st.offset + DurationSeconds(r))] &&
      st'.offset == st.offset + DurationSeconds(r)
  {
  }

  /**
   * The running offset is the length in seconds of every video before, and
   * the totals add up the summaries of the non-falsy analyses.
   */
  lemma {:induction false} FoldTotals(analyses: seq<Option<VideoReport>>)
    requires Fold(analyses).Ok?
    ensures var st, p := Fold(analyses).value, Present(analyses);
      st.offset == Sum(p, DurationSeconds) &&
      st.totalDurationMinutes == Sum(p, DurationMinutes) &&
      st.totalBrandAppearances == SumNat(p, BrandAppearancesOf) &&
      |st.videos| == |p|
  {
    if analyses != [] {
      var s, a := analyses[..|analyses| - 1], analyses[|analyses| - 1];
      SplitLast(analyses);
      FoldLast(s, a);
      FoldTotals(s);
      var st0, st := Fold(s).value, Fold(analyses).value;
      if a.Some? {
        var r := a.value;
        StepSome(st0, r);
        assert Present(analyses) == Present(s) + [r];
        SumSnoc(Present(s), r, DurationSeconds);
        SumSnoc(Present(s), r, DurationMinutes);
        SumNatSnoc(Present(s), r, BrandAppearancesOf);
        assert st.offset == st0.offset + DurationSeconds(r);
      } else {
        assert Present(analyses) == Present(s);
        assert st == st0;
      }
    }
  }

  /** The k-th listed video is the k-th non-falsy analysis, placed right after the ones before it. */
  lemma {:induction false} FoldSlots(analyses: seq<Option<VideoReport>>)
    requires Fold(analyses).Ok?
    ensures var st, p := Fold(analyses).value, Present(analyses);
      |st.videos| == |p| &&
      forall k :: 0 <= k < |p| ==>
        st.videos[k] == VideoSlot(p[k].videoId, Filename(p[k].videoId), DurationMinutes(p[k]),
                                  Sum(p[..k], DurationSeconds), Sum(p[..k], DurationSeconds) + DurationSeconds(p[k]))
  {
    FoldTotals(analyses);
    if analyses != [] {
      var s, a := analyses[..|analyses| - 1], analyses[|analyses| - 1];
      SplitLast(analyses);
      FoldLast(s, a);
      FoldSlots(s);
      var st0, st := Fold(s).value, Fold(analyses).value;
      var p, p0 := Present(analyses), Present(s);
      if a.Some? {
        var r := a.value;
        StepSome(st0, r);
        FoldTotals(s);
        assert p == p0 + [r];
        assert st.videos == st0.videos + [VideoSlot(r.videoId, Filename(r.videoId), DurationMinutes(r), st0.offset, st0.offset + DurationSeconds(r))];
        assert p[..|p0|] == p0;
        forall k | 0 <= k < |p0| ensures p[..k] == p0[..k] {
        }
      } else {
        assert p == p0 && st == st0;
      }
    }
  }

  /** Each video ends where the next one starts, and a video is never placed before an earlier one. */
  lemma SlotsContiguous(analyses: seq<Option<VideoReport>>)
    requires Fold(analyses).Ok?
    requires forall r :: r in Present(analyses) ==> DurationMinutes(r) >= 0.0
    ensures var vs := Fold(analyses).value.videos;
      (forall k :: 0 < k < |vs| ==> vs[k].startTimeSeconds == vs[k - 1].endTimeSeconds) &&
      (forall k :: 0 <= k < |vs| ==> vs[k].startTimeSeconds <= vs[k].endTimeSeconds) &&
      (|vs| > 0 ==> vs[0].startTimeSeconds == 0.0)
  {
    FoldSlots(analyses);
    ContiguousSlots(Fold(analyses).value.videos, Present(analyses));
  }

  lemma ContiguousSlots(vs: seq<VideoSlot>, p: seq<VideoReport>)
    requires |vs| == |p|
    requires forall k :: 0 <= k < |p| ==>
      vs[k] == VideoSlot(p[k].videoId, Filename(p[k].videoId), DurationMinutes(p[k]),
                         Sum(p[..k], DurationSeconds), Sum(p[..k], DurationSeconds) + DurationSeconds(p[k]))
    requires forall r :: r in p ==> DurationMinutes(r) >= 0.0
    ensures forall k :: 0 < k < |vs| ==> vs[k].startTimeSeconds == vs[k - 1].endTimeSeconds
    ensures forall k :: 0 <= k < |vs| ==> vs[k].startTimeSeconds <= vs[k].endTimeSeconds
    ensures |vs| > 0 ==> vs[0].startTimeSeconds == 0.0
  {
    forall k | 0 < k < |vs| ensures vs[k].startTimeSeconds == vs[k - 1].endTimeSeconds {
      TakeSnoc(p, k - 1);
      SumSnoc(p[..k - 1], p[k - 1], DurationSeconds);
    }
    forall k | 0 <= k < |vs| ensures vs[k].startTimeSeconds <= vs[k].endTimeSeconds {
      assert p[k] in p;
    }
    if |vs| > 0 {
      assert p[..0] == [];
    }
  }

  // ---------------------------------------------------------------------------
  // When the IndexError is raised
  // ---------------------------------------------------------------------------

  /** Every list of a metric record can be shifted. */
  predicate MetricShiftable(m: BrandMetric) {
    (forall a :: a in m.appearances ==> Shiftable(a.timeline)) &&
    (forall a :: a in m.adPlacements ==> Shiftable(a.timeline)) &&
    (forall a :: a in m.inGamePlacements ==> Shiftable(a.timeline))
  }

  /** Every list of an analysis can be shifted. */
  predicate ReportShiftable(r: VideoReport) {
    (forall a :: a in r.rawDetections ==> Shiftable(a.timeline)) &&
    (forall m :: m in r.brandMetrics ==> MetricShiftable(m))
  }

  lemma MergeMetricOk(c: CombinedMetric, m: BrandMetric, offset: real)
    ensures MergeMetric(c, m, offset).Ok? <==> MetricShiftable(m)
    ensures MergeMetric(c, m, offset).Err? ==> MergeMetric(c, m, offset).message == IndexErrorMessage
  {
    ShiftAllMeaning(m.appearances, offset);
    ShiftAllMeaning(m.adPlacements, offset);
    ShiftAllMeaning(m.inGamePlacements, offset);
  }

  lemma {:induction false} MergeAllOk(t: Table, ms: seq<BrandMetric>, offset: real)
    ensures MergeAll(t, ms, offset).Ok? <==> forall m :: m in ms ==> MetricShiftable(m)
    ensures MergeAll(t, ms, offset).Err? ==> MergeAll(t, ms, offset).message == IndexErrorMessage
  {
    if ms != [] {
      var ms', m := ms[..|ms| - 1], ms[|ms| - 1];
      SplitLast(ms);
      MergeAllOk(t, ms', offset);
      if MergeAll(t, ms', offset).Ok? {
        var t' := MergeAll(t, ms', offset).value;
        var c := if m.brand in t'.metrics then t'.metrics[m.brand] else NewCombined(m.brand);
        MergeMetricOk(c, m, offset);
      }
    }
  }

  /**
   * The combination fails, with Python's IndexError, exactly when some
   * detection, appearance or placement of a non-falsy analysis has a
   * one-value timeline.
   */
  lemma {:induction false} FoldOk(analyses: seq<Option<VideoReport>>)
    ensures Fold(analyses).Ok? <==> forall r :: r in Present(analyses) ==> ReportShiftable(r)
    ensures Fold(analyses).Err? ==> Fold(analyses).message == IndexErrorMessage
  {
    if analyses != [] {
      var s, a := analyses[..|analyses| - 1], analyses[|analyses| - 1];
      SplitLast(analyses);
      FoldLast(s, a);
      FoldOk(s);
      var p, p0 := Present(analyses), Present(s);
      if Fold(s).Err? {
        var r :| r in p0 && !ReportShiftable(r);
        assert r in p;
      } else if a.Some? {
        var st, r := Fold(s).value, a.value;
        assert p == p0 + [r];
        ShiftAllMeaning(r.rawDetections, st.offset);
        MergeAllOk(st.table, r.brandMetrics, st.offset);
        assert (forall x :: x in p ==> ReportShiftable(x)) <==>
          (forall x :: x in p0 ==> ReportShiftable(x)) && ReportShiftable(r);
      } else {
        assert p == p0;
      }
    }
  }

  // ---------------------------------------------------------------------------
  // raw_detections
  // ---------------------------------------------------------------------------

  function DetectionCount(r: VideoReport): nat { |r.rawDetections| }
  function DetectionExposure(r: VideoReport): real { Sum(r.rawDetections, Exposure) }

  /** The combined detections are every analysis's detections, shifted, so their number and their total exposure are kept. */
  lemma {:induction false} FoldDetections(analyses: seq<Option<VideoReport>>)
    requires Fold(analyses).Ok?
    ensures var st, p := Fold(analyses).value, Present(analyses);
      |st.detections| == SumNat(p, DetectionCount) &&
      Sum(st.detections, Exposure) == Sum(p, DetectionExposure)
  {
    if analyses != [] {
      var s, a := analyses[..|analyses| - 1], analyses[|analyses| - 1];
      SplitLast(analyses);
      FoldLast(s, a);
      FoldDetections(s);
      var st0, st := Fold(s).value, Fold(analyses).value;
      if a.Some? {
        var r := a.value;
        StepSome(st0, r);
        assert Present(analyses) == Present(s) + [r];
        ShiftAllMeaning(r.rawDetections, st0.offset);
        ShiftAllKeepsExposure(r.rawDetections, st0.offset);
        var dets := ShiftAll(r.rawDetections, st0.offset).value;
        assert st.detections == st0.detections + dets;
        SumConcat(st0.detections, dets, Exposure);
        SumSnoc(Present(s), r, DetectionExposure);
        SumNatSnoc(Present(s), r, DetectionCount);
      } else {
        assert Present(analyses) == Present(s) && st == st0;
      }
    }
  }

  /** Reference definition: each video's detections shifted by the video's start, video after video. */
  function LaidOutDetections(p: seq<VideoReport>): Result<seq<Appearance>>
  {
    if p == [] then Ok([])
    else
      var p', r := p[..|p| - 1], p[|p| - 1];
      match LaidOutDetections(p')
      case Err(e) => Err(e)
      case Ok(prefix) =>
        match ShiftAll(r.rawDetections, Sum(p', DurationSeconds))
        case Err(e) => Err(e)
        case Ok(d) => Ok(prefix + d)
  }

  /** The first loop lays the detections out video after video, each shifted by its video's start. */
  lemma {:induction false} FoldLaidOut(analyses: seq<Option<VideoReport>>)
    requires Fold(analyses).Ok?
    ensures LaidOutDetections(Present(analyses)) == Ok(Fold(analyses).value.detections)
  {
    if analyses != [] {
      var s, a := analyses[..|analyses| - 1], analyses[|analyses| - 1];
      SplitLast(analyses);
      FoldLast(s, a);
      FoldLaidOut(s);
      if a.Some? {
        var r, st0, p0 := a.value, Fold(s).value, Present(s);
        StepSome(st0, r);
        FoldTotals(s);
        assert Present(analyses) == p0 + [r];
        SnocFront(p0, r);
      } else {
        assert Present(analyses) == Present(s) && Fold(analyses) == Fold(s);
      }
    }
  }

  // ---------------------------------------------------------------------------
  // Per-brand sums
  // ---------------------------------------------------------------------------

  function ExposureOf(m: BrandMetric): real { m.totalExposureTime }
  function AppearancesOf(m: BrandMetric): nat { m.totalAppearances }
  function HighImpactOf(m: BrandMetric): nat { m.highImpactMoments }
  function SocialOf(m: BrandMetric): nat { m.estimatedSocialMentions }
  function AdCountOf(m: BrandMetric): nat { m.sponsorshipBreakdown.adPlacements.count }
  function AdExposureOf(m: BrandMetric): real { m.sponsorshipBreakdown.adPlacements.exposureTime }
  function InGameCountOf(m: BrandMetric): nat { m.sponsorshipBreakdown.inGamePlacements.count }
  function InGameExposureOf(m: BrandMetric): real { m.sponsorshipBreakdown.inGamePlacements.exposureTime }

  /** The additive figures of a combined entry, and its set of contexts. */
  datatype Totals = Totals(
    exposure: real, appearances: nat, highImpact: nat, social: nat,
    adCount: nat, adExposure: real, inGameCount: nat, inGameExposure: real,
    contexts: set<string>)

  function TotalsOf(c: CombinedMetric): Totals {
    var b := c.sponsorshipBreakdown;
    Totals(c.totalExposureTime, c.totalAppearances, c.highImpactMoments, c.estimatedSocialMentions,
           b.adPlacements.count, b.adPlacements.exposureTime, b.inGamePlacements.count, b.inGamePlacements.exposureTime,
           c.contexts)
  }

  /** Every context listed by some record. */
  function ContextsOver(ms: seq<BrandMetric>): set<string> {
    if ms == [] then {}
    else
      var m := ms[|ms| - 1];
      ContextsOver(ms[..|ms| - 1]) + (set x | x in m.contexts)
  }

  /** The same figures summed over a list of metric records, and the union of their contexts. */
  function TotalsOver(ms: seq<BrandMetric>): Totals {
    Totals(Sum(ms, ExposureOf), SumNat(ms, AppearancesOf), SumNat(ms, HighImpactOf), SumNat(ms, SocialOf),
           SumNat(ms, AdCountOf), Sum(ms, AdExposureOf), SumNat(ms, InGameCountOf), Sum(ms, InGameExposureOf),
           ContextsOver(ms))
  }

  /** The scores of an entry that the averaging pass has not set. */
  predicate ScoresUnset(c: CombinedMetric) {
    c.contextualValueScore == 0.0 && c.sentimentScore == 0.0 &&
    c.avgProminence == 0.0 && c.avgViewerAttention == 0.0 && c.sentimentLabel.None?
  }

  /** A combined entry before the averaging pass: named after its brand, no score or percentage set yet. */
  predicate Unscored(c: CombinedMetric, b: string) {
    c.brand == b && ScoresUnset(c) &&
    c.sponsorshipBreakdown.adPlacements.percentageOfTotal == 0.0 &&
    c.sponsorshipBreakdown.inGamePlacements.percentageOfTotal == 0.0
  }

  /** The entry of brand `b` holds the sums over the metric records `seen` of that brand. */
  predicate EntrySums(metrics: map<string, CombinedMetric>, seen: seq<BrandMetric>, b: string)
    requires b in metrics
  {
    Unscored(metrics[b], b) && TotalsOf(metrics[b]) == TotalsOver(Filter(seen, OfBrand(b)))
  }

  /** Every entry of the table holds the sums over the metric records `seen` of its brand. */
  predicate TableSums(t: Table, seen: seq<BrandMetric>) {
    forall b :: b in t.metrics ==> EntrySums(t.metrics, seen, b)
  }

  lemma TotalsOverSnoc(ms: seq<BrandMetric>, m: BrandMetric)
    ensures var t, t' := TotalsOver(ms), TotalsOver(ms + [m]);
      t'.exposure == t.exposure + m.totalExposureTime &&
      t'.appearances == t.appearances + m.totalAppearances &&
      t'.highImpact == t.highImpact + m.highImpactMoments &&
      t'.social == t.social + m.estimatedSocialMentions &&
      t'.adCount == t.adCount + AdCountOf(m) &&
      t'.adExposure == t.adExposure + AdExposureOf(m) &&
      t'.inGameCount == t.inGameCount + InGameCountOf(m) &&
      t'.inGameExposure == t.inGameExposure + InGameExposureOf(m) &&
      t'.contexts == t.contexts + (set x | x in m.contexts)
  {
    SnocFront(ms, m);
    SumSnoc(ms, m, ExposureOf);
    SumNatSnoc(ms, m, AppearancesOf);
    SumNatSnoc(ms, m, HighImpactOf);
    SumNatSnoc(ms, m, SocialOf);
    SumNatSnoc(ms, m, AdCountOf);
    SumSnoc(ms, m, AdExposureOf);
    SumNatSnoc(ms, m, InGameCountOf);
    SumSnoc(ms, m, InGameExposureOf);
  }

  /** Merging a record into an entry adds the record's figures to the entry's and sets no score. */
  lemma MergeMetricSums(c: CombinedMetric, b: string, m: BrandMetric, offset: real)
    requires Unscored(c, b)
    requires MergeMetric(c, m, offset).Ok?
    ensures var c', t, t' := MergeMetric(c, m, offset).value, TotalsOf(c), TotalsOf(MergeMetric(c, m, offset).value);
      Unscored(c', b) &&
      t'.exposure == t.exposure + m.totalExposureTime &&
      t'.appearances == t.appearances + m.totalAppearances &&
      t'.highImpact == t.highImpact + m.highImpactMoments &&
      t'.social == t.social + m.estimatedSocialMentions &&
      t'.adCount == t.adCount + AdCountOf(m) &&
      t'.adExposure == t.adExposure + AdExposureOf(m) &&
      t'.inGameCount == t.inGameCount + InGameCountOf(m) &&
      t'.inGameExposure == t.inGameExposure + InGameExposureOf(m) &&
      t'.contexts == t.contexts + (set x | x in m.contexts)
  {
  }

  lemma {:induction false} NoRecordsOfBrand(seen: seq<BrandMetric>, name: string)
    requires name !in Brands(seen)
    ensures Filter(seen, OfBrand(name)) == []
  {
    if seen != [] {
      var s', m := seen[..|seen| - 1], seen[|seen| - 1];
      assert m in seen;
      assert Brands(s') <= Brands(seen);
      NoRecordsOfBrand(s', name);
    }
  }

  /** Merging a record of brand `name` into an entry holding the sums over `prev` gives the sums over `prev + [m]`. */
  lemma MergedEntry(c: CombinedMetric, name: string, prev: seq<BrandMetric>, m: BrandMetric, offset: real)
    requires Unscored(c, name) && TotalsOf(c) == TotalsOver(prev)
    requires MergeMetric(c, m, offset).Ok?
    ensures Unscored(MergeMetric(c, m, offset).value, name)
    ensures TotalsOf(MergeMetric(c, m, offset).value) == TotalsOver(prev + [m])
  {
    MergeMetricSums(c, name, m, offset);
    TotalsOverSnoc(prev, m);
  }

  /** The entry that merging `m` produces holds the sums over `seen + [m]`. */
  lemma MergedEntrySums(t: Table, seen: seq<BrandMetric>, m: BrandMetric, offset: real)
    requires TableSums(t, seen)
    requires t.metrics.Keys == Brands(seen)
    requires MergeInto(t, m, offset).Ok?
    ensures m.brand in MergeInto(t, m, offset).value.metrics
    ensures EntrySums(MergeInto(t, m, offset).value.metrics, seen + [m], m.brand)
  {
    var name := m.brand;
    var c := if name in t.metrics then t.metrics[name] else NewCombined(name);
    var prev := Filter(seen, OfBrand(name));
    if name in t.metrics {
      assert EntrySums(t.metrics, seen, name);
    } else {
      NoRecordsOfBrand(seen, name);
    }
    MergedEntry(c, name, prev, m, offset);
    assert OfBrand(name)(m);
    FilterSnoc(seen, m, OfBrand(name));
    assert MergeInto(t, m, offset).value.metrics[name] == MergeMetric(c, m, offset).value;
  }

  lemma MergeIntoSums(t: Table, seen: seq<BrandMetric>, m: BrandMetric, offset: real)
    requires TableSums(t, seen)
    requires t.metrics.Keys == Brands(seen)
    requires MergeInto(t, m, offset).Ok?
    ensures TableSums(MergeInto(t, m, offset).value, seen + [m])
  {
    var name := m.brand;
    MergedEntrySums(t, seen, m, offset);
    var t' := MergeInto(t, m, offset).value;
    forall b | b in t'.metrics ensures EntrySums(t'.metrics, seen + [m], b) {
      if b != name {
        assert EntrySums(t.metrics, seen, b);
        assert t'.metrics[b] == t.metrics[b];
        FilterSnoc(seen, m, OfBrand(b));
      }
    }
  }

  lemma {:induction false} MergeAllSums(t: Table, seen: seq<BrandMetric>, ms: seq<BrandMetric>, offset: real)
    requires WellKeyed(t) && TableSums(t, seen)
    requires t.metrics.Keys == Brands(seen)
    requires MergeAll(t, ms, offset).Ok?
    ensures TableSums(MergeAll(t, ms, offset).value, seen + ms)
  {
    if ms == [] {
      assert seen + ms == seen;
    } else {
      var ms', m := ms[..|ms| - 1], ms[|ms| - 1];
      var seen' := seen + ms';
      ConcatSplitLast(seen, ms);
      MergeAllSums(t, seen, ms', offset);
      var t' := MergeAll(t, ms', offset).value;
      MergeAllKeys(t, ms', offset);
      BrandsConcat(seen, ms');
      assert t'.metrics.Keys == Brands(seen');
      assert MergeAll(t, ms, offset) == MergeInto(t', m, offset);
      MergeIntoSums(t', seen', m, offset);
    }
  }

  /** After the first loop, each brand's entry holds the sums over every metric record of that brand. */
  lemma {:induction false} FoldSums(analyses: seq<Option<VideoReport>>)
    requires Fold(analyses).Ok?
    ensures TableSums(Fold(analyses).value.table, AllMetrics(Present(analyses)))
  {
    if analyses != [] {
      var s, a := analyses[..|analyses| - 1], analyses[|analyses| - 1];
      SplitLast(analyses);
      FoldLast(s, a);
      FoldSums(s);
      FoldKeys(s);
      var st0, st := Fold(s).value, Fold(analyses).value;
      if a.Some? {
        var r := a.value;
        StepSome(st0, r);
        var p0 := Present(s);
        assert Present(analyses) == p0 + [r];
        assert AllMetrics(p0 + [r]) == AllMetrics(p0) + r.brandMetrics by {
          SnocFront(p0, r);
        }
        MergeAllSums(st0.table, AllMetrics(p0), r.brandMetrics, st0.offset);
      } else {
        assert Present(analyses) == Present(s) && st == st0;
      }
    }
  }

  // ---------------------------------------------------------------------------
  // What a finalized entry holds
  // ---------------------------------------------------------------------------

  /**
   * A finalized entry of brand `b`: its figures are the sums over the brand's
   * records, its scores the plain means over them (left at 0 when the brand
   * has no appearance), and its category percentages are recomputed from the
   * summed category exposure and the summed total exposure.
   */
  lemma FinalizeMeaning(c: CombinedMetric, b: string, all: seq<BrandMetric>)
    requires Unscored(c, b) && TotalsOf(c) == TotalsOver(Filter(all, OfBrand(b)))
    ensures var f, ms := Finalize(c, all), Filter(all, OfBrand(b));
      f.brand == b &&
      TotalsOf(f) == TotalsOver(ms) &&
      (f.totalAppearances > 0 ==>
        f.contextualValueScore == MeanOr(ms, ContextualOf, 0.0) &&
        f.sentimentScore == MeanOr(ms, SentimentOf, 0.0) &&
        f.avgProminence == MeanOr(ms, ProminenceOf, 0.0) &&
        f.avgViewerAttention == MeanOr(ms, AttentionOf, 0.0) &&
        f.sentimentLabel == Some(CombinedLabel(f.sentimentScore))) &&
      (f.totalAppearances == 0 ==> ScoresUnset(f)) &&
      f.sponsorshipBreakdown.adPlacements.percentageOfTotal == Percentage(Sum(ms, AdExposureOf), Sum(ms, ExposureOf)) &&
      f.sponsorshipBreakdown.inGamePlacements.percentageOfTotal == Percentage(Sum(ms, InGameExposureOf), Sum(ms, ExposureOf)) &&
      f.appearances == c.appearances && f.adPlacements == c.adPlacements &&
      f.inGamePlacements == c.inGamePlacements && f.contexts == c.contexts
  {
  }

  /** A record whose two category times add up to its total exposure, as every per-video record's do. */
  predicate Balanced(m: BrandMetric) {
    AdExposureOf(m) + InGameExposureOf(m) == m.totalExposureTime
  }

  lemma {:induction false} BalancedSums(ms: seq<BrandMetric>)
    requires forall m :: m in ms ==> Balanced(m)
    ensures Sum(ms, AdExposureOf) + Sum(ms, InGameExposureOf) == Sum(ms, ExposureOf)
  {
    if ms != [] {
      var ms', m := ms[..|ms| - 1], ms[|ms| - 1];
      assert m in ms;
      BalancedSums(ms');
    }
  }

  /**
   * When every merged record is balanced, the recomputed category
   * percentages of a brand with exposure add up to 100.
   */
  lemma FinalizePercentages(c: CombinedMetric, b: string, all: seq<BrandMetric>)
    requires Unscored(c, b) && TotalsOf(c) == TotalsOver(Filter(all, OfBrand(b)))
    requires forall m :: m in all ==> Balanced(m)
    ensures var f := Finalize(c, all);
      f.totalExposureTime > 0.0 ==>
        f.sponsorshipBreakdown.adPlacements.percentageOfTotal + f.sponsorshipBreakdown.inGamePlacements.percentageOfTotal == 100.0
  {
    var ms := Filter(all, OfBrand(b));
    FinalizeMeaning(c, b, all);
    BalancedSums(ms);
    PercentagesComplement(Sum(ms, AdExposureOf), Sum(ms, InGameExposureOf), Sum(ms, ExposureOf));
  }

  /** Every record a per-video report builds is balanced. */
  lemma MetricOfBalanced(brand: string, s: seq<Appearance>, contextualScore: real, socialMentions: nat)
    ensures Balanced(MetricOf(brand, Summarize(s), contextualScore, socialMentions))
  {
  }

  /** The second loop finalizes the entry of each key, in insertion order. */
  lemma {:induction false} FinalizeAllAt(metrics: map<string, CombinedMetric>, order: seq<string>, all: seq<BrandMetric>, i: nat)
    requires forall b :: b in order ==> b in metrics
    requires i < |order|
    ensures FinalizeAll(metrics, order, all)[i] == Finalize(metrics[order[i]], all)
  {
    if i < |order| - 1 {
      FinalizeAllAt(metrics, order[..|order| - 1], all, i);
    }
  }

  // ---------------------------------------------------------------------------
  // Insertion order of the brands
  // ---------------------------------------------------------------------------

  /** The brands in the order their first record appears. */
  function FirstSeen(ms: seq<BrandMetric>): seq<string>
  {
    if ms == [] then []
    else
      var p, b := FirstSeen(ms[..|ms| - 1]), ms[|ms| - 1].brand;
      if b in p then p else p + [b]
  }

  lemma {:induction false} FirstSeenBrands(ms: seq<BrandMetric>)
    ensures forall b :: b in FirstSeen(ms) <==> b in Brands(ms)
  {
    if ms != [] {
      var ms', m := ms[..|ms| - 1], ms[|ms| - 1];
      SplitLast(ms);
      FirstSeenBrands(ms');
      BrandsConcat(ms', [m]);
      assert Brands([m]) == {m.brand};
    }
  }

  lemma FirstSeenSnoc(ms: seq<BrandMetric>, m: BrandMetric)
    ensures FirstSeen(ms + [m]) == if m.brand in FirstSeen(ms) then FirstSeen(ms) else FirstSeen(ms) + [m.brand]
  {
    SnocFront(ms, m);
  }

  lemma {:induction false} MergeAllOrder(t: Table, seen: seq<BrandMetric>, ms: seq<BrandMetric>, offset: real)
    requires t.order == FirstSeen(seen) && t.metrics.Keys == Brands(seen)
    requires MergeAll(t, ms, offset).Ok?
    ensures MergeAll(t, ms, offset).value.order == FirstSeen(seen + ms)
  {
    if ms == [] {
      assert seen + ms == seen;
    } else {
      var ms', m := ms[..|ms| - 1], ms[|ms| - 1];
      ConcatSplitLast(seen, ms);
      MergeAllOrder(t, seen, ms', offset);
      var t' := MergeAll(t, ms', offset).value;
      WellKeyedFirstSeen(seen);
      MergeAllKeys(t, ms', offset);
      BrandsConcat(seen, ms');
      FirstSeenBrands(seen + ms');
      FirstSeenSnoc(seen + ms', m);
    }
  }

  lemma WellKeyedFirstSeen(seen: seq<BrandMetric>)
    ensures WellKeyed(Table(map b | b in Brands(seen) :: NewCombined(b), FirstSeen(seen)))
  {
    FirstSeenBrands(seen);
    FirstSeenDistinct(seen);
  }

  lemma {:induction false} FirstSeenDistinct(ms: seq<BrandMetric>)
    ensures Distinct(FirstSeen(ms))
  {
    if ms != [] {
      var ms' := ms[..|ms| - 1];
      FirstSeenDistinct(ms');
      var p, b := FirstSeen(ms'), ms[|ms| - 1].brand;
      if b !in p {
        var o := p + [b];
        forall i, j | 0 <= i < j < |o| ensures o[i] != o[j] {
          if j == |o| - 1 {
            assert o[i] in p;
          } else {
            assert o[i] == p[i] && o[j] == p[j];
          }
        }
      }
    }
  }

  /** The table lists the brands in the order their first record appears in the analyses. */
  lemma {:induction false} FoldOrder(analyses: seq<Option<VideoReport>>)
    requires Fold(analyses).Ok?
    ensures Fold(analyses).value.table.order == FirstSeen(AllMetrics(Present(analyses)))
  {
    if analyses != [] {
      var s, a := analyses[..|analyses| - 1], analyses[|analyses| - 1];
      SplitLast(analyses);
      FoldLast(s, a);
      FoldOrder(s);
      FoldKeys(s);
      var st0, st := Fold(s).value, Fold(analyses).value;
      if a.Some? {
        var r := a.value;
        StepSome(st0, r);
        var p0 := Present(s);
        assert Present(analyses) == p0 + [r];
        assert AllMetrics(p0 + [r]) == AllMetrics(p0) + r.brandMetrics by {
          SnocFront(p0, r);
        }
        MergeAllOrder(st0.table, AllMetrics(p0), r.brandMetrics, st0.offset);
      } else {
        assert Present(analyses) == Present(s) && st == st0;
      }
    }
  }

  // ---------------------------------------------------------------------------
  // The combined report
  // ---------------------------------------------------------------------------

  /** Every metric record of the non-falsy analyses. */
  function Records(analyses: seq<Option<VideoReport>>): seq<BrandMetric> {
    AllMetrics(Present(analyses))
  }

  /** The second loop's list, in insertion order, before the ranking. */
  lemma {:induction false} FinalizeAllBrands(metrics: map<string, CombinedMetric>, order: seq<string>, all: seq<BrandMetric>)
    requires forall b :: b in order ==> b in metrics && metrics[b].brand == b
    ensures forall i :: 0 <= i < |order| ==> FinalizeAll(metrics, order, all)[i].brand == order[i]
  {
    if order != [] {
      FinalizeAllBrands(metrics, order[..|order| - 1], all);
    }
  }

  /**
   * combine_video_analyses raises for an empty list, and otherwise fails,
   * with Python's IndexError, exactly when some list of a non-falsy analysis
   * holds a one-value timeline.
   */
  lemma CombinedFails(analyses: seq<Option<VideoReport>>, videoIds: seq<string>)
    ensures analyses == [] ==> Combined(analyses, videoIds) == Err(NoAnalysesError)
    ensures analyses != [] ==>
      (Combined(analyses, videoIds).Ok? <==> forall r :: r in Present(analyses) ==> ReportShiftable(r))
    ensures analyses != [] && Combined(analyses, videoIds).Err? ==> Combined(analyses, videoIds).message == IndexErrorMessage
  {
    FoldOk(analyses);
  }

  /**
   * The summary and the raw detections: the durations and appearance counts
   * of the non-falsy analyses are summed, each video is placed right after
   * the earlier ones, and the detections are each video's detections shifted
   * by that video's start, video after video.
   */
  lemma CombinedSummaryMeaning(analyses: seq<Option<VideoReport>>, videoIds: seq<string>)
    requires Combined(analyses, videoIds).Ok?
    ensures var r, p := Combined(analyses, videoIds).value, Present(analyses);
      r.combinedSummary.totalVideos == |videoIds| &&
      r.combinedSummary.combinedDurationMinutes == Sum(p, DurationMinutes) &&
      r.combinedSummary.totalBrandAppearances == SumNat(p, BrandAppearancesOf) &&
      r.combinedSummary.totalBrandsDetected == |Brands(Records(analyses))| &&
      |r.combinedSummary.videosAnalyzed| == |p| &&
      (forall k :: 0 <= k < |p| ==>
        r.combinedSummary.videosAnalyzed[k] ==
          VideoSlot(p[k].videoId, Filename(p[k].videoId), DurationMinutes(p[k]),
                    Sum(p[..k], DurationSeconds), Sum(p[..k], DurationSeconds) + DurationSeconds(p[k]))) &&
      |r.rawDetections| == SumNat(p, DetectionCount) &&
      Sum(r.rawDetections, Exposure) == Sum(p, DetectionExposure) &&
      LaidOutDetections(p) == Ok(r.rawDetections) &&
      r.individualAnalyses == analyses && r.videoIds == videoIds
  {
    var st := Fold(analyses).value;
    FoldTotals(analyses);
    FoldSlots(analyses);
    FoldDetections(analyses);
    FoldLaidOut(analyses);
    FoldKeys(analyses);
    KeysCount(st.table.order, st.table.metrics);
  }

  /**
   * The ranking: brands by non-increasing summed exposure, each brand named
   * by some record exactly once, equal exposures in the order the brands
   * were first seen, and the top brand first.
   */
  lemma CombinedRanking(analyses: seq<Option<VideoReport>>, videoIds: seq<string>)
    requires Combined(analyses, videoIds).Ok?
    ensures var r, all := Combined(analyses, videoIds).value, Records(analyses);
      var ms := r.combinedBrandMetrics;
      SortedDesc(ms, ExposureKey) &&
      (forall i, j :: 0 <= i < j < |ms| ==> ms[i].brand != ms[j].brand) &&
      (forall b :: b in Brands(all) <==> exists i :: 0 <= i < |ms| && ms[i].brand == b) &&
      r.combinedSummary.topPerformingBrand == (if ms == [] then None else Some(ms[0].brand)) &&
      (forall x :: x in ms ==> x.totalExposureTime <= ms[0].totalExposureTime)
  {
    var st := Fold(analyses).value;
    var all := Records(analyses);
    FoldKeys(analyses);
    FoldSums(analyses);
    var t := st.table;
    forall b | b in t.order ensures b in t.metrics && t.metrics[b].brand == b {
      assert EntrySums(t.metrics, all, b);
    }
    FinalizeAllBrands(t.metrics, t.order, all);
    RankingOf(FinalizeAll(t.metrics, t.order, all), t.order);
  }

  /** Ranking a list whose brands are the distinct names `order`, position by position. */
  lemma RankingOf(fin: seq<CombinedMetric>, order: seq<string>)
    requires |fin| == |order| && Distinct(order)
    requires forall k :: 0 <= k < |order| ==> fin[k].brand == order[k]
    ensures var ms := SortDesc(fin, ExposureKey);
      SortedDesc(ms, ExposureKey) &&
      (forall i, j :: 0 <= i < j < |ms| ==> ms[i].brand != ms[j].brand) &&
      (forall b :: b in order <==> exists i :: 0 <= i < |ms| && ms[i].brand == b) &&
      (forall x :: x in ms ==> x.totalExposureTime <= ms[0].totalExposureTime)
  {
    var ms := SortDesc(fin, ExposureKey);
    SortDescCorrect(fin, ExposureKey);
    forall i, j | 0 <= i < j < |ms| ensures ms[i].brand != ms[j].brand {
      DistinctAfterSort(fin, ms, order, i, j);
    }
    RankedBrands(fin, ms, order);
    if ms != [] {
      SortDescFirstIsMax(fin, ExposureKey);
      RankedFirstIsMax(fin, ms);
    }
  }

  lemma RankedBrands(fin: seq<CombinedMetric>, ms: seq<CombinedMetric>, order: seq<string>)
    requires |fin| == |order| && multiset(ms) == multiset(fin)
    requires forall k :: 0 <= k < |order| ==> fin[k].brand == order[k]
    ensures forall b :: b in order <==> exists i :: 0 <= i < |ms| && ms[i].brand == b
  {
    forall b ensures b in order <==> exists i :: 0 <= i < |ms| && ms[i].brand == b {
      if b in order {
        var k :| 0 <= k < |order| && order[k] == b;
        assert fin[k] in multiset(ms);
        var i :| 0 <= i < |ms| && ms[i] == fin[k];
      } else {
        forall i | 0 <= i < |ms| ensures ms[i].brand != b {
          assert ms[i] in multiset(fin);
          var k :| 0 <= k < |fin| && fin[k] == ms[i];
        }
      }
    }
  }

  lemma RankedFirstIsMax(fin: seq<CombinedMetric>, ms: seq<CombinedMetric>)
    requires ms != [] && multiset(ms) == multiset(fin)
    requires forall x :: x in fin ==> ExposureKey(x) <= ExposureKey(ms[0])
    ensures forall x :: x in ms ==> x.totalExposureTime <= ms[0].totalExposureTime
  {
    forall x | x in ms ensures x.totalExposureTime <= ms[0].totalExposureTime {
      assert x in multiset(fin);
      assert ExposureKey(x) <= ExposureKey(ms[0]);
    }
  }

  lemma DistinctAfterSort(fin: seq<CombinedMetric>, ms: seq<CombinedMetric>, order: seq<string>, i: nat, j: nat)
    requires |fin| == |order| && Distinct(order)
    requires forall k :: 0 <= k < |order| ==> fin[k].brand == order[k]
    requires multiset(ms) == multiset(fin)
    requires i < j < |ms|
    ensures ms[i].brand != ms[j].brand
  {
    assert ms[i] in multiset(fin);
    var ki :| 0 <= ki < |fin| && fin[ki] == ms[i];
    assert ms[j] in multiset(fin);
    var kj :| 0 <= kj < |fin| && fin[kj] == ms[j];
    if ki == kj {
      // Two positions of ms hold the same element: it occurs twice in fin.
      var x := ms[i];
      assert multiset(ms)[x] >= 2 by {
        assert ms == ms[..i] + [ms[i]] + ms[i + 1..j] + [ms[j]] + ms[j + 1..];
      }
      DistinctOnce(fin, order, ki);
    }
  }

  lemma DistinctOnce(fin: seq<CombinedMetric>, order: seq<string>, k: nat)
    requires |fin| == |order| && Distinct(order)
    requires forall m :: 0 <= m < |order| ==> fin[m].brand == order[m]
    requires k < |fin|
    ensures multiset(fin)[fin[k]] == 1
  {
    assert fin == fin[..k] + [fin[k]] + fin[k + 1..];
    forall m | 0 <= m < |fin| && m != k ensures fin[m] != fin[k] {
      assert order[m] != order[k];
    }
    assert fin[k] !in fin[..k] by {
      forall m | 0 <= m < k ensures fin[..k][m] != fin[k] { assert fin[..k][m] == fin[m]; }
    }
    var tail := fin[k + 1..];
    assert fin[k] !in tail by {
      forall m | 0 <= m < |tail| ensures tail[m] != fin[k] { assert tail[m] == fin[k + 1 + m]; }
    }
  }

  /** Brands with equal summed exposure are ranked in the order they were first seen. */
  lemma CombinedStable(analyses: seq<Option<VideoReport>>, videoIds: seq<string>, k: real)
    requires Combined(analyses, videoIds).Ok?
    ensures var st := Fold(analyses).value;
      st.table.order == FirstSeen(Records(analyses)) &&
      (forall b :: b in st.table.order ==> b in st.table.metrics) &&
      Filter(Combined(analyses, videoIds).value.combinedBrandMetrics, KeyIs(ExposureKey, k))
        == Filter(FinalizeAll(st.table.metrics, st.table.order, Records(analyses)), KeyIs(ExposureKey, k))
  {
    var st := Fold(analyses).value;
    FoldOrder(analyses);
    FoldKeys(analyses);
    SortDescStable(FinalizeAll(st.table.metrics, st.table.order, Records(analyses)), ExposureKey, k);
  }

  /**
   * What a combined entry of brand `f.brand` holds: the sums over every
   * record of that brand and the union of their contexts, the plain means of its scores when it has
   * appearances (no scores otherwise), and category percentages recomputed
   * from the summed exposures.
   */
  predicate FaithfulEntry(f: CombinedMetric, all: seq<BrandMetric>) {
    var ms := Filter(all, OfBrand(f.brand));
    ms != [] &&
    TotalsOf(f) == TotalsOver(ms) &&
    (f.totalAppearances > 0 ==>
      f.contextualValueScore == MeanOr(ms, ContextualOf, 0.0) &&
      f.sentimentScore == MeanOr(ms, SentimentOf, 0.0) &&
      f.avgProminence == MeanOr(ms, ProminenceOf, 0.0) &&
      f.avgViewerAttention == MeanOr(ms, AttentionOf, 0.0) &&
      f.sentimentLabel == Some(CombinedLabel(f.sentimentScore))) &&
    (f.totalAppearances == 0 ==> ScoresUnset(f)) &&
    f.sponsorshipBreakdown.adPlacements.percentageOfTotal == Percentage(Sum(ms, AdExposureOf), Sum(ms, ExposureOf)) &&
    f.sponsorshipBreakdown.inGamePlacements.percentageOfTotal == Percentage(Sum(ms, InGameExposureOf), Sum(ms, ExposureOf))
  }

  /** Every finalized entry, before ranking, is faithful to the records of its brand. */
  lemma FinalizedEntry(analyses: seq<Option<VideoReport>>, k: nat)
    requires Fold(analyses).Ok?
    requires var t := Fold(analyses).value.table;
      k < |t.order| && (forall b :: b in t.order ==> b in t.metrics)
    ensures var t := Fold(analyses).value.table;
      FaithfulEntry(FinalizeAll(t.metrics, t.order, Records(analyses))[k], Records(analyses))
  {
    var all := Records(analyses);
    var t := Fold(analyses).value.table;
    FoldKeys(analyses);
    FoldSums(analyses);
    var b := t.order[k];
    FinalizeAllAt(t.metrics, t.order, all, k);
    assert EntrySums(t.metrics, all, b);
    FinalizeMeaning(t.metrics[b], b, all);
    FirstSeenBrands(all);
    RecordsOfBrand(all, b);
  }

  /** Each ranked entry is faithful to the records of its brand across all videos. */
  lemma CombinedEntries(analyses: seq<Option<VideoReport>>, videoIds: seq<string>, i: nat)
    requires Combined(analyses, videoIds).Ok?
    requires i < |Combined(analyses, videoIds).value.combinedBrandMetrics|
    ensures FaithfulEntry(Combined(analyses, videoIds).value.combinedBrandMetrics[i], Records(analyses))
  {
    var t := Fold(analyses).value.table;
    CombinedIsRanked(analyses, videoIds);
    var fin := FinalizeAll(t.metrics, t.order, Records(analyses));
    var k := SortDescFrom(fin, ExposureKey, i);
    FinalizedEntry(analyses, k);
  }

  /** The combined list is the finalized table ranked by exposure. */
  lemma CombinedIsRanked(analyses: seq<Option<VideoReport>>, videoIds: seq<string>)
    requires Combined(analyses, videoIds).Ok?
    ensures Fold(analyses).Ok?
    ensures var t := Fold(analyses).value.table;
      (forall b :: b in t.order ==> b in t.metrics) &&
      Combined(analyses, videoIds).value.combinedBrandMetrics
        == SortDesc(FinalizeAll(t.metrics, t.order, Records(analyses)), ExposureKey)
  {
    FoldKeys(analyses);
  }

  lemma {:induction false} RecordsOfBrand(all: seq<BrandMetric>, b: string)
    requires b in Brands(all)
    ensures Filter(all, OfBrand(b)) != []
  {
    var m :| m in all && m.brand == b;
    var all', last := all[..|all| - 1], all[|all| - 1];
    SplitLast(all);
    if last.brand != b {
      assert m in all';
      RecordsOfBrand(all', b);
    }
  }
}
