// Where combine_video_analyses puts a brand's lists on the combined timeline:
// each combined entry's appearance, ad and in-game lists are the per-video
// lists of its brand, each shifted by the start of its own video (the summed
// duration of the non-falsy analyses before it), laid end to end.

module CombineLayout {
  import opened Common
  import opened Grouping
  import opened Metrics
  import opened Offset
  import opened Ranking
  import opened Combine

  // ---------------------------------------------------------------------------
  // A brand's appearance, ad and in-game lists
  // ---------------------------------------------------------------------------

  /** The three lists of a brand that the first loop shifts and extends. */
  datatype ListKind = AppearanceList | AdList | InGameList

  function RecordList(m: BrandMetric, kind: ListKind): seq<Appearance> {
    match kind
    case AppearanceList => m.appearances
    case AdList => m.adPlacements
    case InGameList => m.inGamePlacements
  }

  function EntryList(c: CombinedMetric, kind: ListKind): seq<Appearance> {
    match kind
    case AppearanceList => c.appearances
    case AdList => c.adPlacements
    case InGameList => c.inGamePlacements
  }

  /** A metric record with the start, on the combined timeline, of the video it comes from. */
  datatype Placed = Placed(record: BrandMetric, start: real)

  function PlaceAll(ms: seq<BrandMetric>, start: real): (r: seq<Placed>)
    ensures |r| == |ms|
  {
    if ms == [] then [] else PlaceAll(ms[..|ms| - 1], start) + [Placed(ms[|ms| - 1], start)]
  }

  /** Every metric record of the videos, in input order, each with its video's start. */
  function PlacedRecords(p: seq<VideoReport>): seq<Placed>
  {
    if p == [] then []
    else
      var p' := p[..|p| - 1];
      PlacedRecords(p') + PlaceAll(p[|p| - 1].brandMetrics, Sum(p', DurationSeconds))
  }

  /** Reference definition: one list of brand `b`, record after record, each shifted by its video's start. */
  function BrandList(ps: seq<Placed>, b: string, kind: ListKind): Result<seq<Appearance>>
  {
    if ps == [] then Ok([])
    else
      var x := ps[|ps| - 1];
      match BrandList(ps[..|ps| - 1], b, kind)
      case Err(e) => Err(e)
      case Ok(prefix) =>
        if x.record.brand != b then Ok(prefix)
        else
          match ShiftAll(RecordList(x.record, kind), x.start)
          case Err(e) => Err(e)
          case Ok(l) => Ok(prefix + l)
  }

  /** Each entry's three lists are its brand's shifted lists; a brand without an entry has none. */
  ghost predicate EntryLists(t: Table, seen: seq<Placed>) {
    (forall b, kind :: b in t.metrics ==> BrandList(seen, b, kind) == Ok(EntryList(t.metrics[b], kind))) &&
    (forall b, kind :: b !in t.metrics ==> BrandList(seen, b, kind) == Ok([]))
  }

  lemma BrandListSnoc(ps: seq<Placed>, x: Placed, b: string, kind: ListKind)
    ensures BrandList(ps + [x], b, kind) ==
      match BrandList(ps, b, kind)
      case Err(e) => Err(e)
      case Ok(prefix) =>
        if x.record.brand != b then Ok(prefix)
        else
          match ShiftAll(RecordList(x.record, kind), x.start)
          case Err(e) => Err(e)
          case Ok(l) => Ok(prefix + l)
  {
    SnocFront(ps, x);
  }

  /** Merging a record extends each list of the entry by that record's list, shifted. */
  lemma MergeMetricLists(c: CombinedMetric, m: BrandMetric, start: real, kind: ListKind)
    requires MergeMetric(c, m, start).Ok?
    ensures ShiftAll(RecordList(m, kind), start).Ok?
    ensures EntryList(MergeMetric(c, m, start).value, kind)
         == EntryList(c, kind) + ShiftAll(RecordList(m, kind), start).value
  {
  }

  lemma MergeIntoLists(t: Table, seen: seq<Placed>, m: BrandMetric, start: real)
    requires EntryLists(t, seen)
    requires MergeInto(t, m, start).Ok?
    ensures EntryLists(MergeInto(t, m, start).value, seen + [Placed(m, start)])
  {
    var t', x := MergeInto(t, m, start).value, Placed(m, start);
    var name := m.brand;
    var c := if name in t.metrics then t.metrics[name] else NewCombined(name);
    forall b, kind | b in t'.metrics
      ensures BrandList(seen + [x], b, kind) == Ok(EntryList(t'.metrics[b], kind))
    {
      BrandListSnoc(seen, x, b, kind);
      if b == name {
        MergeMetricLists(c, m, start, kind);
        assert t'.metrics[b] == MergeMetric(c, m, start).value;
        assert EntryList(NewCombined(name), kind) == [];
      } else {
        assert t'.metrics[b] == t.metrics[b];
      }
    }
    forall b, kind | b !in t'.metrics
      ensures BrandList(seen + [x], b, kind) == Ok([])
    {
      BrandListSnoc(seen, x, b, kind);
    }
  }

  lemma {:induction false} MergeAllLists(t: Table, seen: seq<Placed>, ms: seq<BrandMetric>, start: real)
    requires EntryLists(t, seen)
    requires MergeAll(t, ms, start).Ok?
    ensures EntryLists(MergeAll(t, ms, start).value, seen + PlaceAll(ms, start))
  {
    if ms == [] {
      assert seen + PlaceAll(ms, start) == seen;
    } else {
      var ms', m := ms[..|ms| - 1], ms[|ms| - 1];
      MergeAllLists(t, seen, ms', start);
      var t' := MergeAll(t, ms', start).value;
      MergeIntoLists(t', seen + PlaceAll(ms', start), m, start);
      assert seen + PlaceAll(ms, start) == (seen + PlaceAll(ms', start)) + [Placed(m, start)];
    }
  }

  /** After the first loop, every entry's lists are its brand's lists from every video, shifted. */
  lemma {:induction false} FoldLists(analyses: seq<Option<VideoReport>>)
    requires Fold(analyses).Ok?
    ensures EntryLists(Fold(analyses).value.table, PlacedRecords(Present(analyses)))
  {
    if analyses != [] {
      var s, a := analyses[..|analyses| - 1], analyses[|analyses| - 1];
      SplitLast(analyses);
      FoldLast(s, a);
      FoldLists(s);
      if a.Some? {
        var r, st0, p0 := a.value, Fold(s).value, Present(s);
        StepSome(st0, r);
        FoldTotals(s);
        assert Present(analyses) == p0 + [r];
        SnocFront(p0, r);
        MergeAllLists(st0.table, PlacedRecords(p0), r.brandMetrics, st0.offset);
      } else {
        assert Present(analyses) == Present(s) && Fold(analyses) == Fold(s);
      }
    }
  }

  // ---------------------------------------------------------------------------
  // The combined report
  // ---------------------------------------------------------------------------

  /** A combined entry whose three lists are its brand's lists from every video, each shifted by its video's start. */
  predicate LaidOutEntry(f: CombinedMetric, ps: seq<Placed>) {
    forall kind :: BrandList(ps, f.brand, kind) == Ok(EntryList(f, kind))
  }

  /** Finalizing an entry keeps its brand and its three lists. */
  lemma FinalizeKeepsLists(c: CombinedMetric, all: seq<BrandMetric>, kind: ListKind)
    ensures Finalize(c, all).brand == c.brand
    ensures EntryList(Finalize(c, all), kind) == EntryList(c, kind)
  {
  }

  lemma FinalizedLists(t: Table, all: seq<BrandMetric>, ps: seq<Placed>, k: nat)
    requires forall b :: b in t.order ==> b in t.metrics
    requires k < |t.order| && t.metrics[t.order[k]].brand == t.order[k]
    requires EntryLists(t, ps)
    ensures LaidOutEntry(FinalizeAll(t.metrics, t.order, all)[k], ps)
  {
    var b := t.order[k];
    FinalizeAllAt(t.metrics, t.order, all, k);
    var f := FinalizeAll(t.metrics, t.order, all)[k];
    forall kind ensures BrandList(ps, f.brand, kind) == Ok(EntryList(f, kind)) {
      FinalizeKeepsLists(t.metrics[b], all, kind);
    }
  }

  /** Each ranked entry's appearance, ad and in-game lists are laid out on the combined timeline. */
  lemma CombinedLists(analyses: seq<Option<VideoReport>>, videoIds: seq<string>, i: nat)
    requires Combined(analyses, videoIds).Ok?
    requires i < |Combined(analyses, videoIds).value.combinedBrandMetrics|
    ensures LaidOutEntry(Combined(analyses, videoIds).value.combinedBrandMetrics[i], PlacedRecords(Present(analyses)))
  {
    var t, all := Fold(analyses).value.table, Records(analyses);
    CombinedIsRanked(analyses, videoIds);
    var k := SortDescFrom(FinalizeAll(t.metrics, t.order, all), ExposureKey, i);
    FoldKeys(analyses);
    FoldSums(analyses);
    FoldLists(analyses);
    assert EntrySums(t.metrics, all, t.order[k]);
    FinalizedLists(t, all, PlacedRecords(Present(analyses)), k);
  }
}
