# Brand sponsorship analysis backend, modelled in Dafny

The backend receives sports and event videos and asks a video-understanding
service for every brand appearance. It then turns those appearances into
per-brand sponsorship metrics, and it combines the reports of several videos
into one report on one timeline. Clients poll a job table that records how
far each analysis has got.

This project models the deterministic core of `backend/app.py` and proves
properties of it:

- **The job table** (`AnalysisStatus`). This is the class `JobStore.AnalysisStatus`.
  Its field `statuses: map<string, JobRecord>` is updated in place by
  `CreateJob`, `UpdateJob`, `GetJob` and `CleanupOldJobs`. Time is an
  integer clock (seconds) passed in by the caller. The module also models
  the life of a job: the single-video worker's progress updates
  (0, 25, 30, 35, 50, 60, 75, 90), then completion (100, with data) or
  failure (with an error). It models the batch progress formula
  `int(completed/total*80)` as well.
- **The stateless rules** (`Classify`):
  - `allowed_file`;
  - `is_valid_brand`, whose Python `strip`, `split`, `lower`, `in` and
    `endswith` are modelled on ASCII strings in `Common`. The grouping pass
    uses the filter as written (`Classify.IsValidBrandAsWritten`); the
    corrected filter of the finding below is proved separately;
  - `categorize_sponsorship_placement`;
  - the timeline validator of `BrandAppearance`.
- **The per-video report** (`Grouping`, `Metrics`, `Effectiveness`):
  - The grouping loop of `analyze_video_with_progress` partitions the kept
    appearances by brand and by sponsorship category. It is the method
    `Grouping.GroupAppearances`, proved equal to a fold (`GroupAll`) whose
    properties are proved as lemmas: what each brand's accumulator holds,
    and the brand order (first occurrence).
  - The per-brand metric records, the sponsorship breakdown, the video
    summary and the flat raw-detection list are built from that grouping.
  - `calculate_placement_effectiveness`.
- **The cross-video combination** (`Offset`, `Ranking`, `Combine`,
  `CombineLoop`). `combine_video_analyses` is modelled as the method
  `CombineLoop.CombineVideoAnalyses`, with the source's two loops and its
  in-place sort. It is proved equal to the definition `Combine.Combined`.
  The layout, sums, means, percentages and ranking are proved about that
  definition. `CombineLayout` proves where every list of a combined entry
  lands on the combined timeline. The sort is Python's stable `list.sort(reverse=True)`,
  modelled as a stable insertion sort (`Ranking`).

Python dictionaries keep insertion order, and the output order depends on
it. Each such dictionary is therefore modelled as a map plus the sequence
of its keys in insertion order (`Grouped`, `Table`).

Floats are modelled as `real`s and `round(x, n)` as the identity. An
exception that the source would raise is an `Err` result.

## Model

| member | source | states |
|---|---|---|
| JobStore.NewJob | backend/app.py:55-69 | a created job is pending, at progress 0, with no stage, details, brands, data or error, and created and updated now |
| JobStore.Merge | backend/app.py:71-76 | the merge of an update into a record; its meaning is stated by `JobStore.MergeOnlyGiven` |
| JobStore.Run | backend/app.py:71-76 | a sequence of updates applied in turn; stated by `JobStore.RunProgress`, `JobStore.RunConcat` and `JobStore.RunKeepsBrands` |
| JobStore.MergeOnlyGiven | backend/app.py:71-76 | `update` overwrites exactly the keys the update gives, keeps every other key and the creation time, and stamps `updated_at` with now |
| JobStore.MergeNothing | backend/app.py:71-76 | an update with no keys only refreshes `updated_at` |
| JobStore.AnalysisStatus.constructor | backend/app.py:51-53 | a new table holds no job |
| JobStore.AnalysisStatus.CreateJob | backend/app.py:55-69 | the table maps the id to a fresh pending record (replacing an earlier one); every other job is unchanged |
| JobStore.AnalysisStatus.UpdateJob | backend/app.py:71-76 | a known id gets the merged record and every other job is unchanged; an unknown id leaves the table unchanged |
| JobStore.AnalysisStatus.GetJob | backend/app.py:78-81 | returns a record exactly when the id is known, and then the stored record |
| JobStore.AnalysisStatus.ExpiredJobs | backend/app.py:86-91 | the ids collected are exactly the stored jobs created strictly before the cutoff |
| JobStore.AnalysisStatus.CleanupOldJobs | backend/app.py:83-93 | afterwards the table is exactly the old table restricted to jobs created no earlier than `now - hours*3600`, their records unchanged |
| JobStore.AnalysisStatus.CleanupDefault | backend/app.py:83-93 | called without an age, the cleanup keeps exactly the jobs created no earlier than 24 hours before now |
| JobStore.SurvivingIdempotent | backend/app.py:83-93 | a second cleanup with an earlier or equal cutoff removes nothing |
| JobStore.SurvivingMonotone | backend/app.py:83-93 | a later cutoff keeps a subset of the jobs an earlier cutoff keeps |
| JobStore.SingleVideoProgress | backend/app.py:1133-1463 | the worker's eight progress updates are all `processing` updates without data or error, at 0, 25, 30, 35, 50, 60, 75, 90 in turn, and only the second sets `brands_found` |
| JobStore.RunProgress | backend/app.py:71-76 | after a non-empty run of progress updates the job is processing at the last update's progress, with data, error and creation time untouched |
| JobStore.RunSteps | backend/app.py:1133-1463 | from a pending job, each progress update moves pending to processing or keeps processing |
| JobStore.SingleVideoProgressAfter | backend/app.py:1133-1463 | after the first k updates the job is pending at 0 (k = 0) or processing at the k-th percentage, with no data and no error |
| JobStore.PercentsAscending | backend/app.py:1136-1459 | the eight percentages never decrease |
| JobStore.SingleVideoProgressNeverFalls | backend/app.py:1133-1463 | the progress a polling client sees never falls while the worker reports |
| JobStore.RunConcat | backend/app.py:71-76 | applying two batches of updates one after the other is the same as applying them joined |
| JobStore.RunKeepsBrands | backend/app.py:71-76 | updates that do not give `brands_found` leave it as it was |
| JobStore.BrandsAfterProgress | backend/app.py:1149-1156 | after the progress updates, `brands_found` is the list of selected brands |
| JobStore.SingleVideoCompletes | backend/app.py:1480-1491 | the completion update leaves the job completed at 100 with the report as data, no error, the selected brands and its creation time |
| JobStore.SingleVideoFails | backend/app.py:1493-1499 | a failure after any number of progress updates leaves the job failed with the error, no data, and the progress it had reached |
| JobStore.BatchProgressBounds | backend/app.py:1612 | batch progress is 0 with no video done and 80 with all done, and never falls as videos complete |
| JobStore.BatchProgress | backend/app.py:1612 | the batch progress `completed*80/total`; its bounds and monotonicity are stated by `JobStore.BatchProgressBounds` |
| Classify.Extension | backend/app.py:135-137 | a name has an extension exactly when it holds a dot; the extension is the dot-free text after the last dot |
| Classify.AllowedFile | backend/app.py:135-137 | an accepted name holds a dot and does not end with one |
| Classify.AllowedFileOfParts | backend/app.py:135-137 | `stem.ext` is accepted exactly when the lower-cased `ext` is one of the seven video extensions |
| Classify.ExtensionOfParts | backend/app.py:137 | `rsplit('.', 1)[1]` of `stem.ext` is `ext` whatever dots the stem holds |
| Common.Lower | backend/app.py:163 | lower-casing keeps the length and lower-cases each character |
| Common.TrimLeft | backend/app.py:141 | stripping on the left removes only whitespace characters, and the result does not start with whitespace |
| Common.TrimLeftSplit | backend/app.py:141 | the input is the removed prefix followed by the result |
| Common.TrimRight | backend/app.py:141 | stripping on the right removes only whitespace characters, and the result does not end with whitespace |
| Common.TrimRightSplit | backend/app.py:141 | the input is the result followed by the removed suffix |
| Common.WordLength | backend/app.py:156 | a word runs up to the first whitespace character |
| Common.Words | backend/app.py:156 | every word `split()` returns is non-empty and occurs in the name |
| Classify.IsValidBrandAsWrittenMeaning | backend/app.py:139-192 | the filter as written accepts a name exactly when its lower-cased form holds no listed keyword and it is not a single-word city name: the person-name and suffix checks and both whitelists change nothing |
| Classify.IsValidBrandAsWritten | backend/app.py:139-192 | `is_valid_brand` as written, the filter the grouping pass applies; its meaning is stated by `Classify.IsValidBrandAsWrittenMeaning` |
| Classify.KeywordRejects | backend/app.py:163-166 | a name holding a listed keyword is rejected as written, whitelisted or not |
| Classify.FirstNamesAreKeywords | backend/app.py:145-159 | every first name of the person check is itself a rejected keyword |
| Classify.SuffixesAreKeywords | backend/app.py:150-171 | every educational suffix, lower-cased, is itself a rejected keyword |
| Classify.OutdoorSportsRejectedAsWritten | backend/app.py:163-186 | "Outdoor Sports" meets the outdoor-sports exception, yet the filter as written rejects it |
| Classify.IsValidBrandMeaning | backend/app.py:184-186 | the corrected filter accepts a name exactly when it meets the outdoor-sports exception or passes the rejections; on every other name it agrees with the source; it accepts "Outdoor Sports" |
| Classify.IsValidBrand | backend/app.py:184-186 | the corrected filter of the finding below; its meaning is stated by `Classify.IsValidBrandMeaning` |
| Classify.CategorizePlacement | backend/app.py:194-219 | the category is ad or in-game, and it is ad exactly when the type is an ad type, or is not an in-game type and the context is `commercial` |
| Classify.CategoryOfKnownType | backend/app.py:206-214 | for one of the ten listed types the context does not matter, and the category is ad exactly for the five ad types |
| Classify.ValidateTimeline | backend/app.py:113-117 | a timeline is accepted exactly when it has two values and ends after it starts; it is then returned unchanged, and otherwise the ordering error is reported for two values |
| Grouping.WithCategory | backend/app.py:1308-1313 | a missing category is set to `categorize_sponsorship_placement` of the type and context (empty when missing), an existing one is kept, and no other field changes |
| Grouping.Kept | backend/app.py:1304-1306 | an appearance is kept when its stripped brand name is non-empty and `is_valid_brand` as written accepts it |
| Grouping.Exposure | backend/app.py:1336-1339 | end minus start of a timeline with at least two values, 0 otherwise; summed by `Grouping.Summarize` |
| Grouping.ValidTimelineExposure | backend/app.py:1336-1339 | an appearance whose timeline would pass the `BrandAppearance` validator has positive exposure |
| Grouping.Summarize | backend/app.py:1314-1355 | a brand's accumulator lists its appearances in order, puts each in exactly one category, and its two category times add up to the total exposure, which is the sum of end - start |
| Grouping.SummarizeAds | backend/app.py:1327-1337 | the ad list is the ad appearances in order, and the ad time is their summed exposure |
| Grouping.SummarizeInGame | backend/app.py:1327-1337 | the in-game list is the other appearances in order, and the in-game time is their summed exposure |
| Grouping.SummarizeHighImpact | backend/app.py:1343-1347 | the high-impact count is the number of appearances with a celebration, interview or commercial context, primary prominence or high attention |
| Grouping.SummarizeContexts | backend/app.py:1339-1341 | the contexts are exactly the appearances' contexts (`unknown` when missing), each listed once |
| Grouping.GroupAllKeys | backend/app.py:1302-1335 | the brands grouped are exactly those with a kept appearance, and the key order lists each of them once |
| Grouping.GroupAllData | backend/app.py:1302-1355 | each brand's accumulator summarizes exactly that brand's kept, categorized appearances |
| Grouping.GroupAll | backend/app.py:1302-1355 | the grouping loop as a fold over the appearances; stated by `Grouping.GroupAllKeys`, `Grouping.GroupAllData` and `Grouping.GroupAllOrder` |
| Grouping.GroupAllOrder | backend/app.py:1315-1325 | the dictionary lists the brands in the order each kept brand first occurs |
| Grouping.FlattenJoin | backend/app.py:1475-1477 | joining the accumulators' appearance lists in key order joins each brand's kept appearances |
| Grouping.GroupAllFlatten | backend/app.py:1475-1477 | the raw-detection list is each kept brand's appearances, in input order, brand after brand in first-occurrence order |
| Grouping.FlattenIsPermutation | backend/app.py:1475-1477 | the flat raw-detection list is a permutation of the kept, categorized appearances |
| Grouping.TotalAppearancesFlatten | backend/app.py:1367-1477 | the summed per-brand appearance counts equal the length of the raw-detection list |
| Grouping.AddAppearance | backend/app.py:1321-1347 | adding one appearance updates the accumulator as the fold step does |
| Grouping.GroupOne | backend/app.py:1303-1347 | one iteration of the grouping loop is one step of the fold over the appearances |
| Grouping.GroupAppearances | backend/app.py:1302-1355 | the loop computes the fold over all appearances |
| Metrics.BreakdownPartition | backend/app.py:1436-1447 | the breakdown counts the ad and in-game appearances, which add up to all of them; the category times add up to the total; the percentages add up to 100, or are both 0 without exposure |
| Metrics.AverageWeights | backend/app.py:1397-1415 | the averages are the plain means of the prominence and attention weights, 0.5 for no appearance |
| Metrics.AverageWeightBounds | backend/app.py:1397-1415 | both averages lie between 0.3 and 1.0 |
| Metrics.MetricOfMeaning | backend/app.py:1417-1449 | a brand's metric record holds its appearances, their count and summed exposure, the high-impact count, the category partition, the distinct contexts, bounded averages, the positive default sentiment and the given AI figures |
| Metrics.MetricOf | backend/app.py:1417-1449 | one brand's metric record built from its accumulator; stated by `Metrics.MetricOfMeaning` |
| Metrics.BuildBrandMetrics | backend/app.py:1370-1449 | one metric record per grouped brand, in key order |
| Metrics.CollectDetections | backend/app.py:1475-1477 | the raw detections are the brands' appearance lists joined in key order |
| Metrics.TotalOf | backend/app.py:1367 | the total appearance count is the sum of the per-brand counts |
| Metrics.MetricsPerBrand | backend/app.py:1302-1449 | the records follow the brands' first-occurrence order, name each brand with a kept appearance exactly once, and each summarizes exactly that brand's appearances |
| Metrics.KeysCount | backend/app.py:1368 | the number of brands is the length of the key order |
| Metrics.AnalyzeAppearances | backend/app.py:1302-1491 | the report's summary counts the brands and the raw detections; the raw detections are each brand's kept appearances, brand after brand in first-occurrence order (a permutation of the kept appearances); its metrics follow the same brand order, name each kept brand once and summarize that brand's appearances |
| Effectiveness.WindowsCount | backend/app.py:666-688 | there is one engagement window per appearance with a two-value timeline, and each is optimal or suboptimal |
| Effectiveness.WindowsQuality | backend/app.py:673-686 | as many windows are marked optimal as there are two-value placements mentioning a high-engagement keyword |
| Effectiveness.WindowsRated | backend/app.py:666-688 | the i-th window is made from the i-th two-value placement, is marked optimal or suboptimal, and is optimal exactly when that placement's description mentions a high-engagement keyword |
| Effectiveness.Windows | backend/app.py:666-688 | the windows the rating loop appends; stated by `Effectiveness.WindowsRated`, `Effectiveness.WindowsCount` and `Effectiveness.WindowsDuration` |
| Effectiveness.WindowsDuration | backend/app.py:667-698 | the windows' durations sum to the exposure of the two-value appearances, each being end - start of its range |
| Effectiveness.RatePlacements | backend/app.py:666-688 | the loop counts optimal and suboptimal placements and appends the windows in input order |
| Effectiveness.PlacementEffectiveness | backend/app.py:649-702 | empty input gives no metrics; otherwise the counts partition the windows, the score is 100·optimal/total in [0, 100] (0 with no window), and the screen time is the summed window duration |
| Effectiveness.TotalDuration | backend/app.py:698 | the total screen time is the sum of the window durations |
| Common.Percentage | backend/app.py:1436-1447 | the percentage times the total is 100 times the part when the total is positive, and it is 0 otherwise |
| Common.PercentageBounds | backend/app.py:1436-1447 | a part of a total is between 0 and 100 percent |
| Common.PercentagesComplement | backend/app.py:1436-1447 | two parts that make up a positive total have percentages adding up to 100 |
| Offset.ShiftTimeline | backend/app.py:1684-1690 | an empty timeline stays empty, a one-value timeline raises the IndexError, any other becomes its first two values moved by the offset |
| Offset.ShiftAppearance | backend/app.py:1683-1691 | the shifted copy differs from the original only in its timeline |
| Offset.ShiftAllMeaning | backend/app.py:1681-1691 | a list is shifted exactly when no timeline has one value, element by element in order; otherwise the IndexError is reported |
| Offset.ShiftKeepsExposure | backend/app.py:1687-1690 | shifting keeps an appearance's exposure |
| Offset.ShiftAllKeepsExposure | backend/app.py:1681-1693 | shifting a list keeps its summed exposure |
| Offset.ShiftKeepsValid | backend/app.py:1687-1690 | a valid timeline stays valid once shifted |
| Offset.ShiftRoundTrip | backend/app.py:1687-1690 | shifting by `-offset` undoes a shift by `offset` |
| Offset.OffsetAppearances | backend/app.py:1681-1691 | the copying loop computes the shifted list |
| Ranking.InsertSorted | backend/app.py:1840 | inserting into a non-increasing list keeps it non-increasing |
| Ranking.InsertMultiset | backend/app.py:1840 | inserting adds exactly the new element |
| Ranking.InsertStable | backend/app.py:1840 | an inserted element goes after the equal keys already placed |
| Ranking.SortDescCorrect | backend/app.py:1840 | the sort is non-increasing in the key and a permutation of its input |
| Ranking.SortDescStable | backend/app.py:1840 | elements with equal keys keep their input order |
| Ranking.SortDescFrom | backend/app.py:1840 | every sorted element comes from the input |
| Ranking.SortDescFirstIsMax | backend/app.py:1840-1846 | the first sorted element has the largest key |
| Ranking.InsertDesc | backend/app.py:1840 | the in-place insertion computes the stable insertion |
| Ranking.SortDescending | backend/app.py:1840 | the sort method computes the stable descending sort |
| Combine.CombinedLabel | backend/app.py:1822-1827 | the label is positive above 0.1, negative below -0.1, neutral in between |
| Combine.FinalizeAll | backend/app.py:1795-1837 | one finalized entry per brand, in key order |
| Combine.MergeMetric | backend/app.py:1733-1787 | adding one record to a brand's entry; stated by `Combine.MergeMetricSums`, `Combine.MergeMetricOk` and `CombineLayout.MergeMetricLists` |
| Combine.Finalize | backend/app.py:1797-1835 | the second loop's work on one entry; stated by `Combine.FinalizeMeaning` |
| Combine.StepAnalysis | backend/app.py:1670-1790 | one iteration of the first loop; stated by `Combine.FoldLast` and `Combine.StepSome` |
| Combine.Combined | backend/app.py:1656-1868 | the whole combination; stated by the `Combined…` lemmas below and by `CombineLayout.CombinedLists` |
| Combine.BrandsConcat | backend/app.py:1709-1711 | the brands of two record lists joined are the brands of each |
| Combine.MergeIntoKeys | backend/app.py:1709-1733 | merging a record keys its entry by its brand and adds that brand to the keys |
| Combine.MergeAllKeys | backend/app.py:1709-1787 | merging a video's records adds exactly their brands |
| Combine.FoldKeys | backend/app.py:1670-1790 | the combined table holds exactly the brands of all records of the non-falsy analyses |
| Combine.FoldLast | backend/app.py:1670-1672 | a falsy analysis is skipped and a later one is one more step |
| Combine.StepSome | backend/app.py:1674-1790 | one video appends its shifted detections, adds its duration and appearance count, appends its slot and advances the offset by its length in seconds |
| Combine.FoldTotals | backend/app.py:1664-1790 | the final offset, total duration and total appearances are sums over the non-falsy analyses |
| Combine.FoldSlots | backend/app.py:1700-1706 | the k-th slot is the k-th non-falsy video, starting at the summed lengths of the videos before it and ending its own length later |
| Combine.SlotsContiguous | backend/app.py:1700-1790 | with non-negative durations, the first video starts at 0, each ends where the next starts, and none ends before it starts |
| Combine.ContiguousSlots | backend/app.py:1700-1706 | slots placed at running sums of non-negative lengths are contiguous |
| Combine.MergeMetricOk | backend/app.py:1739-1775 | merging a record raises exactly when one of its appearance or placement timelines has one value |
| Combine.MergeAllOk | backend/app.py:1709-1787 | merging a video's records fails exactly when one of them cannot be shifted, with the IndexError |
| Combine.FoldOk | backend/app.py:1670-1790 | the combination fails exactly when some non-falsy analysis holds a one-value timeline, with the IndexError |
| Combine.FoldDetections | backend/app.py:1681-1693 | the combined raw detections are as many as all videos' raw detections and keep their summed exposure |
| Combine.TotalsOverSnoc | backend/app.py:1734-1787 | the per-brand sums grow by exactly the next record's figures, and the contexts by its contexts |
| Combine.MergeMetricSums | backend/app.py:1733-1787 | merging a record adds its exposure, appearances, high-impact moments, social mentions and category figures, and adds its contexts to the set |
| Combine.NoRecordsOfBrand | backend/app.py:1711 | a brand not yet seen has no records |
| Combine.MergedEntry | backend/app.py:1711-1787 | a merged entry's sums are the sums over its brand's records so far, with scores still unset |
| Combine.MergedEntrySums | backend/app.py:1711-1787 | after merging a record, its brand's entry sums all of that brand's records |
| Combine.MergeIntoSums | backend/app.py:1709-1787 | merging keeps every entry equal to the sums over its brand's records |
| Combine.MergeAllSums | backend/app.py:1709-1787 | merging a video's records keeps every entry equal to the sums over its brand's records |
| Combine.FoldSums | backend/app.py:1670-1790 | each combined entry holds the sums of its brand's records over all non-falsy videos |
| Combine.FinalizeMeaning | backend/app.py:1795-1837 | a finalized entry keeps the sums; when the brand has appearances its scores are the plain means over its records and the label follows the mean sentiment, otherwise no score is set; percentages are recomputed from the summed exposures |
| Combine.BalancedSums | backend/app.py:1784-1787 | when each record's category times add up to its total, the summed category times add up to the summed total |
| Combine.FinalizePercentages | backend/app.py:1829-1835 | for balanced records, a brand with exposure gets category percentages adding up to 100 |
| Combine.MetricOfBalanced | backend/app.py:1436-1447 | every per-video metric record is balanced |
| Combine.FinalizeAllAt | backend/app.py:1795-1837 | the i-th finalized entry finalizes the i-th brand's entry |
| Combine.FirstSeenBrands | backend/app.py:1709-1711 | the first-seen order lists exactly the brands of the records |
| Combine.FirstSeenSnoc | backend/app.py:1711 | a record of a new brand appends that brand; a known brand changes nothing |
| Combine.MergeAllOrder | backend/app.py:1709-1711 | the table's key order stays the first-seen order of the records merged |
| Combine.WellKeyedFirstSeen | backend/app.py:1711-1730 | a table built by first sight is keyed by brand |
| Combine.FirstSeenDistinct | backend/app.py:1711 | the first-seen order lists each brand once |
| Combine.FoldOrder | backend/app.py:1670-1790 | the combined table's key order is the first-seen order of all records |
| Combine.FinalizeAllBrands | backend/app.py:1795-1837 | the i-th finalized entry is of the i-th brand |
| Combine.CombinedFails | backend/app.py:1656-1690 | no analyses raises "No successful analyses to combine"; otherwise the combination succeeds exactly when no non-falsy analysis holds a one-value timeline, and fails with the IndexError |
| Combine.CombinedSummaryMeaning | backend/app.py:1661-1866 | the summary counts the requested videos and the distinct brands, sums durations and appearances, places each video right after the earlier ones; the raw detections are each video's detections shifted by that video's start, video after video (so count and exposure are kept); the inputs are passed through |
| Combine.CombinedRanking | backend/app.py:1839-1847 | the brand list is non-increasing in exposure, names every brand of the records exactly once, and the top brand is its first entry (none when empty), whose exposure is the largest |
| Combine.RankingOf | backend/app.py:1840-1846 | sorting the finalized entries gives a non-increasing list of distinct brands, exactly the table's, with the largest exposure first |
| Combine.RankedBrands | backend/app.py:1840 | the sorted list names exactly the table's brands |
| Combine.RankedFirstIsMax | backend/app.py:1843-1846 | the first sorted entry has the largest exposure |
| Combine.DistinctAfterSort | backend/app.py:1840 | sorting entries of distinct brands keeps them distinct |
| Combine.DistinctOnce | backend/app.py:1795-1837 | each finalized entry occurs once |
| Combine.CombinedStable | backend/app.py:1795-1840 | brands of equal exposure keep the order in which they were first seen across the videos |
| Combine.FinalizedEntry | backend/app.py:1795-1837 | every finalized entry is faithful to its brand's records: sums, the union of their contexts, means, label and percentages |
| Combine.CombinedEntries | backend/app.py:1733-1840 | every ranked entry holds the sums of its brand's records across all videos, the union of their contexts, the plain means of their scores and the recomputed percentages |
| Combine.CombinedIsRanked | backend/app.py:1793-1840 | the brand list is the finalized table sorted by exposure |
| Combine.RecordsOfBrand | backend/app.py:1808-1814 | a brand of the table has at least one record to average over |
| Combine.FoldLaidOut | backend/app.py:1670-1693 | the first loop's detections are each video's detections shifted by the summed length of the videos before it, video after video |
| CombineLayout.BrandListSnoc | backend/app.py:1739-1776 | one more record extends its brand's list by that record's list, shifted by its video's start |
| CombineLayout.MergeMetricLists | backend/app.py:1739-1776 | merging a record extends the entry's appearance, ad and in-game lists by the record's lists, shifted |
| CombineLayout.MergeIntoLists | backend/app.py:1709-1776 | merging a record keeps every entry's lists equal to its brand's shifted lists so far |
| CombineLayout.MergeAllLists | backend/app.py:1709-1787 | merging a video's records keeps every entry's lists equal to its brand's shifted lists so far |
| CombineLayout.FoldLists | backend/app.py:1670-1790 | after the first loop, each entry's three lists are its brand's lists from every video, each shifted by its own video's start, in input order |
| CombineLayout.FinalizeKeepsLists | backend/app.py:1795-1837 | the second loop changes neither an entry's brand nor its lists |
| CombineLayout.FinalizedLists | backend/app.py:1795-1837 | a finalized entry's lists are its brand's shifted lists |
| CombineLayout.CombinedLists | backend/app.py:1733-1840 | every ranked entry's appearance, ad and in-game lists are its brand's lists from every video, each shifted by its own video's start |
| CombineLoop.MergeAllErrSticky | backend/app.py:1709-1787 | once a record raises, the rest of the video's records do not matter |
| CombineLoop.FoldErrSticky | backend/app.py:1670-1790 | once a video raises, the later videos do not matter |
| CombineLoop.MergeRecord | backend/app.py:1733-1787 | the in-place aggregation of one record computes the merge |
| CombineLoop.MergeRecords | backend/app.py:1709-1787 | the loop over a video's records computes the merge of all of them |
| CombineLoop.CollectRecords | backend/app.py:1809-1814 | scanning a video's records adds those of the brand, in order |
| CombineLoop.RecordsSnoc | backend/app.py:1808-1809 | a falsy analysis adds no record |
| CombineLoop.RecordsOfBrand | backend/app.py:1808-1814 | the nested loops collect exactly the brand's records over all analyses |
| CombineLoop.MeanScore | backend/app.py:1816-1819 | the score average is the plain mean, 0 for no record |
| CombineLoop.FinalizeEntry | backend/app.py:1797-1835 | finalizing one entry computes the finalize definition |
| CombineLoop.AccumulateAnalyses | backend/app.py:1661-1790 | the first loop computes the fold over the analyses, IndexError included |
| CombineLoop.FinalizeTable | backend/app.py:1793-1837 | the second loop finalizes the entries in key order |
| CombineLoop.CombineVideoAnalyses | backend/app.py:1656-1868 | the whole combination computes `Combined`, about which the lemmas above are proved |

## Left out

- Flask routes, static file serving, uploads and the `analyze_video` route are HTTP plumbing and are not part of this model.
- The calls to the video-understanding service, OpenAI and web search are external. So are `calculate_ai_contextual_score`, `estimate_social_engagement`, `generate_executive_summary` and `gather_brand_intelligence`. Their figures enter the model as parameters: a contextual score and a social-mention count per brand.
- Threads, the thread pool and the lock are left out. Each job-table call is atomic. The combination takes its analyses as an explicit sequence, so no claim is made about the completion order `as_completed` produces.
- `datetime.now()` and ISO timestamps are an integer clock in seconds passed in by the caller.
- `round(x, n)` is the identity and floats are exact reals. `np.mean` is the exact mean.
- Pydantic models are library validation; only the timeline check of `BrandAppearance` is modelled.
- `dev.py` is a process launcher and is not part of this model.
- Progress messages built with f-strings (brand counts, video ids) are parameters of the lifecycle functions.
- JobStore.BatchProgress: integer division `completed*80 / total` stands for `int(completed/total*80)`. The two agree on non-negative values in exact arithmetic, but float rounding is not modelled.
- The multi-video job's lifecycle (0, the per-video progress, 85, completed or failed) is modelled only through `BatchProgress`. Its update sequence is not.
- `cleanup_old_jobs` is never called by the backend; it is modelled as written.
- A falsy analysis is `None`. The averaging pass of `combine_video_analyses` calls `.get` on every analysis, so a literal `None` would raise there. The model treats a falsy analysis as an empty one (no records), which is what an empty dict does.
- Missing dictionary keys become defaults: a missing timeline is the empty list (`[0, 0]` in grouping, which also gives exposure 0), a missing brand is the empty string, a missing context is `unknown`.
- Contexts of a combined entry are a set, so the order `list(set)` produces is not modelled.
- Common.Words: its contract states only that every word is non-empty and occurs in the name; the exact split is its definition.
- `sponsorship_category` is filled only when the key is absent. A key present with the value `null` stays unset in the source and such an appearance counts as in-game. The model has no absent/null distinction: it fills every missing category from the placement rule.
- `cleanup_old_jobs`' default age of 24 hours is the constant `DefaultCleanupHours`, used by `JobStore.AnalysisStatus.CleanupDefault`.
- The `BrandAppearance` timeline validator runs only in the route that builds Pydantic models, which is not part of this model; `Grouping.ValidTimelineExposure` states what it would guarantee for the exposure.
- ASCII only: `str.lower`, `str.isupper` and `str.strip` are modelled on ASCII letters and ASCII whitespace.

## Findings

| source | as written | input that shows it | evidently intended | confidence | as-written member | corrected member |
|---|---|---|---|---|---|---|
| backend/app.py:163-186 | the "Outdoor Sports" exception comes after the keyword loop, and `sports` is a rejected keyword, so the exception can never apply | `is_valid_brand("Outdoor Sports")` returns False | names mentioning an outdoor sport and no school word are accepted | high (not executed) | Classify.OutdoorSportsRejectedAsWritten | Classify.IsValidBrandMeaning |

The grouping pass (`Grouping.Kept`, `Grouping.GroupOne`) follows the source and applies the filter as written, so its results are about the backend as it runs; the corrected filter and its property stand beside it.
