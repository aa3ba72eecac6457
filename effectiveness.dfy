// calculate_placement_effectiveness: a counting pass over a brand's
// appearances that rates each placement with a two-value timeline as optimal
// (its description mentions a high-engagement moment) or suboptimal, and
// derives a placement score and visibility figures from the windows.

module Effectiveness {
  import opened Common
  import opened Grouping

  const OptimalKeywords: seq<string> := ["goal", "celebration", "replay", "highlight", "scoring"]

  /** Only placements whose timeline holds exactly two values are rated. */
  predicate HasWindow(a: Appearance) {
    |a.timeline| == 2
  }

  /** The lower-cased description mentions one of the high-engagement keywords. */
  predicate MentionsHighEngagement(a: Appearance) {
    exists k :: k in OptimalKeywords && Contains(Lower(a.description.GetOr("")), k)
  }

  predicate OptimalPlacement(a: Appearance) {
    HasWindow(a) && MentionsHighEngagement(a)
  }

  predicate SuboptimalPlacement(a: Appearance) {
    HasWindow(a) && !MentionsHighEngagement(a)
  }

  datatype EngagementWindow = EngagementWindow(
    timeRange: seq<real>,
    duration: real,
    placementType: string,
    quality: string,
    context: string)

  function WindowOf(a: Appearance): EngagementWindow
    requires HasWindow(a)
  {
    EngagementWindow(
      [a.timeline[0], a.timeline[1]], a.timeline[1] - a.timeline[0], a.placementType.GetOr("unknown"),
      if MentionsHighEngagement(a) then "optimal" else "suboptimal",
      a.context.GetOr("unknown"))
  }

  /** engagement_windows: one window per rated placement, in input order. */
  function Windows(apps: seq<Appearance>): seq<EngagementWindow>
  {
    if apps == [] then []
    else
      var a := apps[|apps| - 1];
      Windows(apps[..|apps| - 1]) + (if HasWindow(a) then [WindowOf(a)] else [])
  }

  function WindowDuration(w: EngagementWindow): real {
    w.duration
  }

  predicate IsOptimalWindow(w: EngagementWindow) {
    w.quality == "optimal"
  }

  /** The windows are exactly the rated placements, as many as there are placements with a two-value timeline. */
  lemma {:induction false} WindowsCount(apps: seq<Appearance>)
    ensures |Windows(apps)| == Count(apps, HasWindow)
    ensures Count(apps, HasWindow) == Count(apps, OptimalPlacement) + Count(apps, SuboptimalPlacement)
  {
    if apps != [] {
      WindowsCount(apps[..|apps| - 1]);
    }
  }

  /** As many windows are marked optimal as there are optimal placements. */
  lemma {:induction false} WindowsQuality(apps: seq<Appearance>)
    ensures Count(Windows(apps), IsOptimalWindow) == Count(apps, OptimalPlacement)
  {
    if apps != [] {
      var s, a := apps[..|apps| - 1], apps[|apps| - 1];
      WindowsQuality(s);
      if HasWindow(a) {
        assert "suboptimal" != "optimal";
        assert IsOptimalWindow(WindowOf(a)) <==> OptimalPlacement(a);
        assert Windows(apps) == Windows(s) + [WindowOf(a)];
        CountSnoc(Windows(s), WindowOf(a), IsOptimalWindow);
      } else {
        assert Windows(apps) == Windows(s);
      }
    }
  }

  /**
   * Window by window: the i-th window is made from the i-th placement with a
   * two-value timeline, and it is marked optimal exactly when that
   * placement's description mentions a high-engagement moment.
   */
  lemma {:induction false} WindowsRated(apps: seq<Appearance>)
    ensures var rated := Filter(apps, HasWindow);
      |Windows(apps)| == |rated| &&
      forall i :: 0 <= i < |rated| ==>
        Windows(apps)[i] == WindowOf(rated[i]) &&
        (IsOptimalWindow(Windows(apps)[i]) <==> MentionsHighEngagement(rated[i])) &&
        (Windows(apps)[i].quality == "optimal" || Windows(apps)[i].quality == "suboptimal")
  {
    if apps != [] {
      var s, a := apps[..|apps| - 1], apps[|apps| - 1];
      WindowsRated(s);
      var w, rated := Windows(s), Filter(s, HasWindow);
      assert "suboptimal" != "optimal";
      if HasWindow(a) {
        assert Windows(apps) == w + [WindowOf(a)];
        assert Filter(apps, HasWindow) == rated + [a];
      } else {
        assert Windows(apps) == w;
        assert Filter(apps, HasWindow) == rated;
      }
    }
  }

  /** Each window keeps its placement's time range, and the durations add up to the placements' exposure. */
  lemma {:induction false} WindowsDuration(apps: seq<Appearance>)
    ensures Sum(Windows(apps), WindowDuration) == Sum(Filter(apps, HasWindow), Exposure)
    ensures forall w :: w in Windows(apps) ==> |w.timeRange| == 2 && w.duration == w.timeRange[1] - w.timeRange[0]
  {
    if apps != [] {
      var s, a := apps[..|apps| - 1], apps[|apps| - 1];
      WindowsDuration(s);
      if HasWindow(a) {
        assert Windows(apps) == Windows(s) + [WindowOf(a)];
        assert Filter(apps, HasWindow) == Filter(s, HasWindow) + [a];
        SumSnoc(Windows(s), WindowOf(a), WindowDuration);
        SumSnoc(Filter(s, HasWindow), a, Exposure);
      } else {
        assert Windows(apps) == Windows(s);
        assert Filter(apps, HasWindow) == Filter(s, HasWindow);
      }
    }
  }

  datatype VisibilityMetrics = VisibilityMetrics(
    averageDuration: real,
    totalScreenTime: real,
    screenTimePercentage: real)

  /** The metrics dictionary; missed_opportunities and recommendations are always left empty. */
  datatype PlacementMetrics = PlacementMetrics(
    optimalPlacements: nat,
    suboptimalPlacements: nat,
    missedOpportunities: seq<string>,
    placementScore: real,
    visibilityMetrics: VisibilityMetrics,
    engagementWindows: seq<EngagementWindow>,
    recommendations: seq<string>)

  /** The rating loop: counts the optimal and suboptimal placements and records their windows. */
  method RatePlacements(apps: seq<Appearance>)
    returns (optimal: nat, suboptimal: nat, windows: seq<EngagementWindow>)
    ensures optimal == Count(apps, OptimalPlacement)
    ensures suboptimal == Count(apps, SuboptimalPlacement)
    ensures windows == Windows(apps)
  {
    optimal, suboptimal, windows := 0, 0, [];
    for i := 0 to |apps|
      invariant optimal == Count(apps[..i], OptimalPlacement)
      invariant suboptimal == Count(apps[..i], SuboptimalPlacement)
      invariant windows == Windows(apps[..i])
    {
      var app := apps[i];
      TakeSnoc(apps, i);
      TakeTake(apps, i);
      CountSnoc(apps[..i], app, OptimalPlacement);
      CountSnoc(apps[..i], app, SuboptimalPlacement);
      if |app.timeline| == 2 {
        var startTime, endTime := app.timeline[0], app.timeline[1];
        var isOptimal := MentionsHighEngagement(app);
        if isOptimal {
          optimal := optimal + 1;
        } else {
          suboptimal := suboptimal + 1;
        }
        windows := windows + [EngagementWindow(
          [startTime, endTime], endTime - startTime, app.placementType.GetOr("unknown"),
          if isOptimal then "optimal" else "suboptimal", app.context.GetOr("unknown"))];
      }
    }
    assert apps[..|apps|] == apps;
  }

  /**
   * calculate_placement_effectiveness on a brand's appearances. An empty
   * list yields the empty dictionary, None here; the brand name is unused.
   */
  method PlacementEffectiveness(apps: seq<Appearance>, videoDuration: real) returns (r: Option<PlacementMetrics>)
    ensures r.None? <==> apps == []
    ensures r.Some? ==>
      var m := r.value;
      m.engagementWindows == Windows(apps) &&
      m.optimalPlacements == Count(apps, OptimalPlacement) &&
      m.suboptimalPlacements == Count(apps, SuboptimalPlacement) &&
      m.optimalPlacements + m.suboptimalPlacements == |m.engagementWindows| &&
      0.0 <= m.placementScore <= 100.0 &&
      (m.optimalPlacements + m.suboptimalPlacements == 0 ==> m.placementScore == 0.0) &&
      m.placementScore == Percentage(m.optimalPlacements as real, (m.optimalPlacements + m.suboptimalPlacements) as real) &&
      m.visibilityMetrics.totalScreenTime == Sum(Filter(apps, HasWindow), Exposure) &&
      m.visibilityMetrics.averageDuration == MeanOr(m.engagementWindows, WindowDuration, 0.0) &&
      m.visibilityMetrics.screenTimePercentage == Percentage(m.visibilityMetrics.totalScreenTime, videoDuration) &&
      m.missedOpportunities == [] && m.recommendations == []
  {
    if |apps| == 0 {
      return None;
    }
    var optimal, suboptimal, windows := RatePlacements(apps);
    WindowsCount(apps);
    WindowsDuration(apps);
    var total := optimal + suboptimal;
    var score := Percentage(optimal as real, total as real);
    PercentageBounds(optimal as real, total as real);
    var screenTime := TotalDuration(windows);
    var average := if |windows| > 0 then screenTime / |windows| as real else 0.0;
    var percentage := if videoDuration > 0.0 then screenTime / videoDuration * 100.0 else 0.0;
    r := Some(PlacementMetrics(optimal, suboptimal, [], score,
      VisibilityMetrics(average, screenTime, percentage), windows, []));
  }

  /** sum(w['duration'] for w in windows). */
  method TotalDuration(windows: seq<EngagementWindow>) returns (total: real)
    ensures total == Sum(windows, WindowDuration)
  {
    total := 0.0;
    for i := 0 to |windows|
      invariant total == Sum(windows[..i], WindowDuration)
    {
      TakeTake(windows, i);
      total := total + windows[i].duration;
    }
    assert windows[..|windows|] == windows;
  }
}
