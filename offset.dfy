// The timeline offset of combine_video_analyses: every detection of a video
// is moved onto the combined timeline by adding the running start offset of
// that video to both ends of its time range.

module Offset {
  import opened Common
  import opened Classify
  import opened Grouping

  /** What Python reports when `timeline[1]` is read from a one-element list. */
  const IndexErrorMessage: string := "list index out of range"

  /** The shift reads `timeline[0]` and `timeline[1]` of every non-empty timeline. */
  predicate Shiftable(t: seq<real>) {
    |t| != 1
  }

  /**
   * An empty timeline is copied unchanged; any other becomes the two-value
   * list of its first two values moved by `offset` (values past the second
   * are dropped).
   */
  function ShiftTimeline(t: seq<real>, offset: real): (r: Result<seq<real>>)
    ensures r.Ok? <==> Shiftable(t)
    ensures r.Err? ==> r.message == IndexErrorMessage
    ensures t == [] ==> r == Ok([])
    ensures |t| >= 2 ==> r == Ok([t[0] + offset, t[1] + offset])
  {
    if t == [] then Ok(t)
    else if |t| == 1 then Err(IndexErrorMessage)
    else Ok([t[0] + offset, t[1] + offset])
  }

  /** `appearance.copy()` with the timeline shifted; every other field is kept. */
  function ShiftAppearance(a: Appearance, offset: real): (r: Result<Appearance>)
    ensures r.Ok? <==> Shiftable(a.timeline)
    ensures r.Ok? ==> r.value == a.(timeline := r.value.timeline)
  {
    match ShiftTimeline(a.timeline, offset)
    case Err(m) => Err(m)
    case Ok(t) => Ok(a.(timeline := t))
  }

  function ShiftAll(s: seq<Appearance>, offset: real): Result<seq<Appearance>>
  {
    if s == [] then Ok([])
    else
      match ShiftAll(s[..|s| - 1], offset)
      case Err(m) => Err(m)
      case Ok(prefix) =>
        match ShiftAppearance(s[|s| - 1], offset)
        case Err(m) => Err(m)
        case Ok(a) => Ok(prefix + [a])
  }

  /**
   * A list is shifted exactly when none of its timelines has a single
   * value; the result then shifts each element in place, and otherwise the
   * IndexError is reported.
   */
  lemma {:induction false} ShiftAllMeaning(s: seq<Appearance>, offset: real)
    ensures ShiftAll(s, offset).Ok? <==> forall a :: a in s ==> Shiftable(a.timeline)
    ensures ShiftAll(s, offset).Err? ==> ShiftAll(s, offset).message == IndexErrorMessage
    ensures ShiftAll(s, offset).Ok? ==>
      |ShiftAll(s, offset).value| == |s| &&
      forall i :: 0 <= i < |s| ==> ShiftAppearance(s[i], offset) == Ok(ShiftAll(s, offset).value[i])
  {
    if s != [] {
      var s', x := s[..|s| - 1], s[|s| - 1];
      SplitLast(s);
      ShiftAllMeaning(s', offset);
    }
  }

  /** Moving a time range does not change its length. */
  lemma ShiftKeepsExposure(a: Appearance, offset: real)
    requires Shiftable(a.timeline)
    ensures Exposure(ShiftAppearance(a, offset).value) == Exposure(a)
  {
  }

  /** Shifting a whole list keeps its total exposure. */
  lemma {:induction false} ShiftAllKeepsExposure(s: seq<Appearance>, offset: real)
    requires ShiftAll(s, offset).Ok?
    ensures Sum(ShiftAll(s, offset).value, Exposure) == Sum(s, Exposure)
  {
    if s != [] {
      var s', x := s[..|s| - 1], s[|s| - 1];
      ShiftAllKeepsExposure(s', offset);
      var prefix := ShiftAll(s', offset).value;
      var y := ShiftAppearance(x, offset).value;
      ShiftKeepsExposure(x, offset);
      SumSnoc(prefix, y, Exposure);
    }
  }

  /** A shifted valid timeline stays valid: still two values, still ending after it starts. */
  lemma ShiftKeepsValid(a: Appearance, offset: real)
    requires ValidateTimeline(a.timeline).Ok?
    ensures ShiftAppearance(a, offset).Ok?
    ensures ValidateTimeline(ShiftAppearance(a, offset).value.timeline).Ok?
  {
  }

  /** Shifting back by the same offset restores an empty or two-value timeline. */
  lemma ShiftRoundTrip(a: Appearance, offset: real)
    requires |a.timeline| == 0 || |a.timeline| == 2
    ensures ShiftAppearance(a, offset).Ok?
    ensures ShiftAppearance(ShiftAppearance(a, offset).value, -offset) == Ok(a)
  {
    if |a.timeline| == 2 {
      var t := a.timeline;
      assert [t[0] + offset + -offset, t[1] + offset + -offset] == t;
    }
  }

  /** One of the offset loops: copies each record, shifting its timeline when it has one. */
  method OffsetAppearances(s: seq<Appearance>, offset: real) returns (r: Result<seq<Appearance>>)
    ensures r == ShiftAll(s, offset)
  {
    var shifted: seq<Appearance> := [];
    for i := 0 to |s|
      invariant ShiftAll(s[..i], offset) == Ok(shifted)
    {
      TakeTake(s, i);
      var copy := s[i];
      if copy.timeline != [] {
        if |copy.timeline| < 2 {
          ShiftAllMeaning(s, offset);
          assert s[i] in s;
          return Err(IndexErrorMessage);
        }
        var original := copy.timeline;
        copy := copy.(timeline := [original[0] + offset, original[1] + offset]);
      }
      shifted := shifted + [copy];
    }
    assert s[..|s|] == s;
    r := Ok(shifted);
  }
}
