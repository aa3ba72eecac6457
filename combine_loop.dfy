// combine_video_analyses as the backend runs it: one loop over the analyses
// with a running offset, accumulating into combined_brand_metrics; a second
// loop that averages the scores and recomputes the percentages; and the
// in-place sort by exposure. Each method is proved equal to the definitions
// of the Combine module, whose properties are proved there.

module CombineLoop {
  import opened Common
  import opened Grouping
  import opened Metrics
  import opened Offset
  import opened Ranking
  import opened Combine

  // ---------------------------------------------------------------------------
  // An error stops the folds for good
  // ---------------------------------------------------------------------------

  lemma {:induction false} MergeAllErrSticky(t: Table, ms: seq<BrandMetric>, j: nat, offset: real)
    requires j <= |ms|
    requires MergeAll(t, ms[..j], offset).Err?
    ensures MergeAll(t, ms, offset) == MergeAll(t, ms[..j], offset)
    decreases |ms| - j
  {
    if j < |ms| {
      TakeTake(ms, j);
      MergeAllErrSticky(t, ms, j + 1, offset);
    } else {
      assert ms[..j] == ms;
    }
  }

  lemma {:induction false} FoldErrSticky(analyses: seq<Option<VideoReport>>, i: nat)
    requires i <= |analyses|
    requires Fold(analyses[..i]).Err?
    ensures Fold(analyses) == Fold(analyses[..i])
    decreases |analyses| - i
  {
    if i < |analyses| {
      TakeSnoc(analyses, i);
      FoldLast(analyses[..i], analyses[i]);
      FoldErrSticky(analyses, i + 1);
    } else {
      assert analyses[..i] == analyses;
    }
  }

  // ---------------------------------------------------------------------------
  // The first loop
  // ---------------------------------------------------------------------------

  /** Adds one video's record of a brand to the brand's combined entry. */
  method MergeRecord(combined0: CombinedMetric, m: BrandMetric, offset: real) returns (res: Result<CombinedMetric>)
    ensures res == MergeMetric(combined0, m, offset)
  {
    var combined := combined0;
    combined := combined.(
      totalExposureTime := combined.totalExposureTime + m.totalExposureTime,
      totalAppearances := combined.totalAppearances + m.totalAppearances,
      highImpactMoments := combined.highImpactMoments + m.highImpactMoments,
      estimatedSocialMentions := combined.estimatedSocialMentions + m.estimatedSocialMentions);
    var apps := OffsetAppearances(m.appearances, offset);
    if apps.Err? {
      return Err(apps.message);
    }
    combined := combined.(appearances := combined.appearances + apps.value);
    var ads := OffsetAppearances(m.adPlacements, offset);
    if ads.Err? {
      return Err(ads.message);
    }
    combined := combined.(adPlacements := combined.adPlacements + ads.value);
    var inGame := OffsetAppearances(m.inGamePlacements, offset);
    if inGame.Err? {
      return Err(inGame.message);
    }
    combined := combined.(inGamePlacements := combined.inGamePlacements + inGame.value);
    combined := combined.(contexts := combined.contexts + (set x | x in m.contexts));
    var b, mb := combined.sponsorshipBreakdown, m.sponsorshipBreakdown;
    var ad := b.adPlacements.(
      count := b.adPlacements.count + mb.adPlacements.count,
      exposureTime := b.adPlacements.exposureTime + mb.adPlacements.exposureTime);
    var game := b.inGamePlacements.(
      count := b.inGamePlacements.count + mb.inGamePlacements.count,
      exposureTime := b.inGamePlacements.exposureTime + mb.inGamePlacements.exposureTime);
    combined := combined.(sponsorshipBreakdown := Breakdown(ad, game));
    res := Ok(combined);
  }

  /** The inner loop over one analysis's brand_metrics. */
  method MergeRecords(t0: Table, ms: seq<BrandMetric>, offset: real) returns (res: Result<Table>)
    ensures res == MergeAll(t0, ms, offset)
  {
    var t := t0;
    for j := 0 to |ms|
      invariant MergeAll(t0, ms[..j], offset) == Ok(t)
    {
      TakeTake(ms, j);
      var m := ms[j];
      var name := m.brand;
      ghost var before := t;
      ghost var entry := if name in t.metrics then t.metrics[name] else NewCombined(name);
      if name !in t.metrics {
        t := Table(t.metrics[name := NewCombined(name)], t.order + [name]);
      }
      var merged := MergeRecord(t.metrics[name], m, offset);
      assert merged == MergeMetric(entry, m, offset);
      if merged.Err? {
        assert MergeInto(before, m, offset).Err?;
        MergeAllErrSticky(t0, ms, j + 1, offset);
        return Err(merged.message);
      }
      t := t.(metrics := t.metrics[name := merged.value]);
      assert t.metrics == before.metrics[name := merged.value];
      assert Ok(t) == MergeInto(before, m, offset);
    }
    assert ms[..|ms|] == ms;
    res := Ok(t);
  }

  // ---------------------------------------------------------------------------
  // The second loop
  // ---------------------------------------------------------------------------

  /** The inner loop of the averaging pass: the records of brand `name` in one analysis. */
  method CollectRecords(found0: seq<BrandMetric>, ghost seen: seq<BrandMetric>, brandMetrics: seq<BrandMetric>, name: string)
    returns (found: seq<BrandMetric>)
    requires found0 == Filter(seen, OfBrand(name))
    ensures found == Filter(seen + brandMetrics, OfBrand(name))
  {
    found := found0;
    assert seen + brandMetrics[..0] == seen;
    for j := 0 to |brandMetrics|
      invariant found == Filter(seen + brandMetrics[..j], OfBrand(name))
    {
      ghost var prefix := seen + brandMetrics[..j];
      var m := brandMetrics[j];
      ConcatTakeSnoc(seen, brandMetrics, j);
      FilterSnoc(prefix, m, OfBrand(name));
      assert OfBrand(name)(m) == (m.brand == name);
      if m.brand == name {
        found := found + [m];
      }
    }
    assert brandMetrics[..|brandMetrics|] == brandMetrics;
  }

  lemma RecordsSnoc(s: seq<Option<VideoReport>>, a: Option<VideoReport>)
    ensures Records(s + [a]) == Records(s) + (if a.Some? then a.value.brandMetrics else [])
  {
    FoldLast(s, a);
    var p := Present(s);
    if a.Some? {
      SnocFront(p, a.value);
    } else {
      assert Present(s + [a]) == p;
      assert Records(s) + [] == Records(s);
    }
  }

  /** The records of brand `name` in every analysis, as the averaging pass collects them. */
  method RecordsOfBrand(analyses: seq<Option<VideoReport>>, name: string) returns (found: seq<BrandMetric>)
    ensures found == Filter(Records(analyses), OfBrand(name))
  {
    found := [];
    for i := 0 to |analyses|
      invariant found == Filter(Records(analyses[..i]), OfBrand(name))
    {
      TakeSnoc(analyses, i);
      RecordsSnoc(analyses[..i], analyses[i]);
      var brandMetrics := if analyses[i].Some? then analyses[i].value.brandMetrics else [];
      found := CollectRecords(found, Records(analyses[..i]), brandMetrics, name);
    }
    assert analyses[..|analyses|] == analyses;
  }

  /** `sum(scores) / len(scores) if scores else 0`. */
  method MeanScore(ms: seq<BrandMetric>, score: BrandMetric -> real) returns (mean: real)
    ensures mean == MeanOr(ms, score, 0.0)
  {
    var total := 0.0;
    for i := 0 to |ms|
      invariant total == Sum(ms[..i], score)
    {
      TakeTake(ms, i);
      total := total + score(ms[i]);
    }
    assert ms[..|ms|] == ms;
    mean := if |ms| > 0 then total / |ms| as real else 0.0;
  }

  /** One iteration of the second loop. */
  method FinalizeEntry(metrics0: CombinedMetric, analyses: seq<Option<VideoReport>>) returns (metrics: CombinedMetric)
    ensures metrics == Finalize(metrics0, Records(analyses))
  {
    metrics := metrics0;
    if metrics.totalAppearances > 0 {
      var found := RecordsOfBrand(analyses, metrics.brand);
      var contextual := MeanScore(found, ContextualOf);
      var sentiment := MeanScore(found, SentimentOf);
      var prominence := MeanScore(found, ProminenceOf);
      var attention := MeanScore(found, AttentionOf);
      var sentimentLabel := if sentiment > 0.1 then "positive" else if sentiment < -0.1 then "negative" else "neutral";
      metrics := metrics.(contextualValueScore := contextual, sentimentScore := sentiment,
                          avgProminence := prominence, avgViewerAttention := attention,
                          sentimentLabel := Some(sentimentLabel));
    }
    var totalExposure := metrics.totalExposureTime;
    if totalExposure > 0.0 {
      var b := metrics.sponsorshipBreakdown;
      metrics := metrics.(sponsorshipBreakdown := Breakdown(
        b.adPlacements.(percentageOfTotal := b.adPlacements.exposureTime / totalExposure * 100.0),
        b.inGamePlacements.(percentageOfTotal := b.inGamePlacements.exposureTime / totalExposure * 100.0)));
    }
  }

  // ---------------------------------------------------------------------------
  // combine_video_analyses
  // ---------------------------------------------------------------------------

  /** The first loop of combine_video_analyses: every analysis, in order, folded into the running state. */
  method AccumulateAnalyses(analyses: seq<Option<VideoReport>>) returns (r: Result<CombineState>)
    ensures r == Fold(analyses)
  {
    var table := Table(map[], []);
    var allDetections: seq<Appearance> := [];
    var totalDuration := 0.0;
    var totalBrandAppearances: nat := 0;
    var videosAnalyzed: seq<VideoSlot> := [];
    var cumulativeDurationSeconds := 0.0;
    for i := 0 to |analyses|
      invariant Fold(analyses[..i]) == Ok(CombineState(table, allDetections, totalDuration,
                                                        totalBrandAppearances, videosAnalyzed, cumulativeDurationSeconds))
    {
      TakeSnoc(analyses, i);
      FoldLast(analyses[..i], analyses[i]);
      if analyses[i].None? {
        continue;
      }
      var analysis := analyses[i].value;
      var summary := analysis.summary;
      var videoDurationSeconds := summary.videoDurationMinutes * 60.0;
      var offsetDetections := OffsetAppearances(analysis.rawDetections, cumulativeDurationSeconds);
      if offsetDetections.Err? {
        FoldErrSticky(analyses, i + 1);
        return Err(offsetDetections.message);
      }
      var merged := MergeRecords(table, analysis.brandMetrics, cumulativeDurationSeconds);
      if merged.Err? {
        FoldErrSticky(analyses, i + 1);
        return Err(merged.message);
      }
      allDetections := allDetections + offsetDetections.value;
      totalDuration := totalDuration + summary.videoDurationMinutes;
      totalBrandAppearances := totalBrandAppearances + summary.totalBrandAppearances;
      videosAnalyzed := videosAnalyzed + [VideoSlot(analysis.videoId, Filename(analysis.videoId),
        summary.videoDurationMinutes, cumulativeDurationSeconds, cumulativeDurationSeconds + videoDurationSeconds)];
      table := merged.value;
      cumulativeDurationSeconds := cumulativeDurationSeconds + videoDurationSeconds;
    }
    assert analyses[..|analyses|] == analyses;
    r := Ok(CombineState(table, allDetections, totalDuration, totalBrandAppearances, videosAnalyzed,
                         cumulativeDurationSeconds));
  }

  /** The second loop of combine_video_analyses: each entry finalized, in the table's insertion order. */
  method FinalizeTable(table: Table, analyses: seq<Option<VideoReport>>) returns (combinedBrandList: seq<CombinedMetric>)
    requires forall b :: b in table.order ==> b in table.metrics
    ensures combinedBrandList == FinalizeAll(table.metrics, table.order, Records(analyses))
  {
    combinedBrandList := [];
    for k := 0 to |table.order|
      invariant combinedBrandList == FinalizeAll(table.metrics, table.order[..k], Records(analyses))
    {
      TakeTake(table.order, k);
      var entry := FinalizeEntry(table.metrics[table.order[k]], analyses);
      combinedBrandList := combinedBrandList + [entry];
    }
    assert table.order[..|table.order|] == table.order;
  }

  method CombineVideoAnalyses(analyses: seq<Option<VideoReport>>, videoIds: seq<string>)
    returns (r: Result<CombinedReport>)
    ensures r == Combined(analyses, videoIds)
  {
    if |analyses| == 0 {
      return Err(NoAnalysesError);
    }
    var folded := AccumulateAnalyses(analyses);
    if folded.Err? {
      return Err(folded.message);
    }
    var st := folded.value;
    FoldKeys(analyses);
    var combinedBrandList := FinalizeTable(st.table, analyses);
    combinedBrandList := SortDescending(combinedBrandList, ExposureKey);
    var topBrand: Option<string> := None;
    var topBrandScore := 0.0;
    if |combinedBrandList| > 0 {
      topBrand := Some(combinedBrandList[0].brand);
      topBrandScore := combinedBrandList[0].contextualValueScore;
    }
    var combinedSummary := CombinedSummary(|videoIds|, st.totalDurationMinutes, |combinedBrandList|,
                                           st.totalBrandAppearances, topBrand, topBrandScore, st.videos);
    r := Ok(CombinedReport(combinedSummary, combinedBrandList, st.detections, analyses, videoIds));
  }
}
