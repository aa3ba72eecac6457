// The stateless rules of the backend: which uploads are accepted, which
// detected names count as commercial brands, how a placement is classified
// as an ad or an in-game placement, and when a timeline is well formed.

module Classify {
  import opened Common

  // ---------------------------------------------------------------------------
  // Upload file names
  // ---------------------------------------------------------------------------

  const AllowedExtensions: set<string> := {"mp4", "avi", "mov", "wmv", "flv", "webm", "mkv"}

  /** The text after the last '.', as `name.rsplit('.', 1)[1]` yields it; None without a '.'. */
  function Extension(name: string): (r: Option<string>)
    ensures r.Some? <==> '.' in name
    ensures r.Some? ==> '.' !in r.value && EndsWith(name, "." + r.value)
  {
    if name == [] then None
    else if name[|name| - 1] == '.' then Some("")
    else
      var prefix := name[..|name| - 1];
      assert name == prefix + [name[|name| - 1]];
      match Extension(prefix)
      case None => None
      case Some(e) => Some(e + [name[|name| - 1]])
  }

  /** allowed_file: the name has a '.' and its last extension, lower-cased, is a video type. */
  function AllowedFile(name: string): (ok: bool)
    ensures ok ==> '.' in name && name[|name| - 1] != '.'
  {
    match Extension(name)
    case None => false
    case Some(ext) => Lower(ext) in AllowedExtensions
  }

  /** A name built as stem + "." + ext is accepted exactly when ext is a video type, whatever the stem. */
  lemma {:induction false} AllowedFileOfParts(stem: string, ext: string)
    requires '.' !in ext
    ensures AllowedFile(stem + "." + ext) <==> Lower(ext) in AllowedExtensions
  {
    ExtensionOfParts(stem, ext);
  }

  lemma {:induction false} ExtensionOfParts(stem: string, ext: string)
    requires '.' !in ext
    ensures Extension(stem + "." + ext) == Some(ext)
    decreases |ext|
  {
    var name := stem + "." + ext;
    if ext == [] {
      assert name[|name| - 1] == '.';
    } else {
      var e' := ext[..|ext| - 1];
      assert name[..|name| - 1] == stem + "." + e';
      assert ext == e' + [ext[|ext| - 1]];
      ExtensionOfParts(stem, e');
    }
  }

  // ---------------------------------------------------------------------------
  // Brand filter
  // ---------------------------------------------------------------------------

  const NonBrandKeywords: seq<string> := [
    "high school", "college", "university", "team", "football", "basketball",
    "baseball", "soccer", "athletics", "sports", "club", "academy", "institute",
    "school", "district", "county", "city", "state", "national", "tournament",
    "championship", "league", "division", "conference", "guy", "john", "mike",
    "david", "robert", "james", "william", "richard", "charles", "joe"
  ]

  const EducationalSuffixes: seq<string> := ["College", "University", "School", "Academy", "Institute"]

  const PersonFirstNames: seq<string> := ["guy", "john", "mike", "david", "robert"]

  const GenericPlaceNames: seq<string> := ["berkeley", "cambridge", "oxford", "stanford"]

  const KnownBrands: seq<string> := [
    "ford", "nike", "adidas", "coca-cola", "pepsi", "honda", "toyota",
    "microsoft", "apple", "google", "amazon", "walmart", "target",
    "hon-dah", "hondah"
  ]

  const SchoolWords: seq<string> := ["school", "college", "university"]

  predicate HasKeyword(lower: string) {
    exists k :: k in NonBrandKeywords && Contains(lower, k)
  }

  predicate LooksLikePerson(words: seq<string>) {
    |words| == 2 && words[0] != [] && words[1] != [] && IsUpper(words[0][0]) && IsUpper(words[1][0]) &&
    exists w :: w in words && Lower(w) in PersonFirstNames
  }

  predicate IsPlaceName(words: seq<string>, lower: string) {
    |words| == 1 && lower in GenericPlaceNames
  }

  /** The "Outdoor Sports" exception: the name mentions an outdoor sport and no school word. */
  predicate OutdoorSportsName(lower: string) {
    Contains(lower, "outdoor sport") && !exists b :: b in SchoolWords && Contains(lower, b)
  }

  /**
   * is_valid_brand exactly as the source orders its checks: the rejections
   * (person name, keyword, educational suffix, place name) come first, and the
   * whitelists after them.
   */
  function IsValidBrandAsWritten(raw: string): bool
  {
    var name := Strip(raw);
    var words := Words(name);
    var lower := Lower(name);
    if LooksLikePerson(words) then false
    else if HasKeyword(lower) then false
    else if exists s :: s in EducationalSuffixes && EndsWith(name, s) then false
    else if IsPlaceName(words, lower) then false
    else if OutdoorSportsName(lower) then true
    else if exists k :: k in KnownBrands && Contains(lower, k) then true
    else true
  }

  lemma LowerLiteral(w: string, l: string)
    requires |w| == |l| && forall i :: 0 <= i < |w| ==> LowerChar(w[i]) == l[i]
    ensures Lower(w) == l
  {
  }

  lemma FirstNamesAreKeywords()
    ensures forall w :: w in PersonFirstNames ==> w in NonBrandKeywords
  {
  }

  lemma SuffixesAreKeywords()
    ensures forall s :: s in EducationalSuffixes ==> Lower(s) in NonBrandKeywords
  {
    LowerLiteral("College", "college");
    LowerLiteral("University", "university");
    LowerLiteral("School", "school");
    LowerLiteral("Academy", "academy");
    LowerLiteral("Institute", "institute");
  }

  /**
   * What is_valid_brand decides, once its dead branches are removed: a name is
   * rejected exactly when its lower-cased form contains a non-brand keyword or
   * it is a single place-name word. The person-name and suffix checks only
   * reject names that already contain a keyword, and the whitelists come too
   * late to accept anything the rejections refused.
   */
  lemma {:induction false} IsValidBrandAsWrittenMeaning(raw: string)
    ensures IsValidBrandAsWritten(raw) <==>
      !HasKeyword(Lower(Strip(raw))) && !IsPlaceName(Words(Strip(raw)), Lower(Strip(raw)))
  {
    var name := Strip(raw);
    var words := Words(name);
    var lower := Lower(name);
    if LooksLikePerson(words) {
      var w :| w in words && Lower(w) in PersonFirstNames;
      ContainsLower(name, w);
      FirstNamesAreKeywords();
      assert HasKeyword(lower);
    }
    if s :| s in EducationalSuffixes && EndsWith(name, s) {
      ContainsSuffix(name, s);
      ContainsLower(name, s);
      SuffixesAreKeywords();
      assert HasKeyword(lower);
    }
  }

  lemma KeywordRejects(raw: string)
    requires HasKeyword(Lower(Strip(raw)))
    ensures !IsValidBrandAsWritten(raw)
  {
    IsValidBrandAsWrittenMeaning(raw);
  }

  lemma OutdoorSportsLower()
    ensures Lower("Outdoor Sports") == "outdoor sports"
  {
    LowerLiteral("Outdoor Sports", "outdoor sports");
  }

  lemma OutdoorSportsStrip()
    ensures Strip("Outdoor Sports") == "Outdoor Sports"
  {
    var s := "Outdoor Sports";
    assert !IsSpace(s[0]) && !IsSpace(s[|s| - 1]);
  }

  lemma OutdoorSportsIsOutdoor()
    ensures OutdoorSportsName("outdoor sports")
  {
    var lower := "outdoor sports";
    assert lower[0..13] == "outdoor sport";
    ContainsIn(lower, 0, 13);
    forall b | b in SchoolWords ensures !Contains(lower, b) {
      var c := if b == "school" then 'h' else if b == "college" then 'c' else 'n';
      assert c in b && c !in lower;
      if Contains(lower, b) {
        ContainsChar(lower, b, c);
      }
    }
  }

  lemma OutdoorSportsHasKeyword()
    ensures HasKeyword("outdoor sports")
  {
    var lower := "outdoor sports";
    assert lower[8..14] == "sports";
    ContainsIn(lower, 8, 14);
    assert "sports" in NonBrandKeywords;
  }

  /** As written, the brand "Outdoor Sports" is rejected: it contains the keyword "sports". */
  lemma OutdoorSportsRejectedAsWritten()
    ensures Strip("Outdoor Sports") == "Outdoor Sports"
    ensures OutdoorSportsName(Lower("Outdoor Sports"))
    ensures !IsValidBrandAsWritten("Outdoor Sports")
  {
    OutdoorSportsStrip();
    OutdoorSportsLower();
    OutdoorSportsIsOutdoor();
    OutdoorSportsHasKeyword();
    KeywordRejects("Outdoor Sports");
  }

  /**
   * is_valid_brand with the "Outdoor Sports" exception placed before the
   * keyword rejections it is meant to override; otherwise as written.
   */
  function IsValidBrand(raw: string): bool
  {
    OutdoorSportsName(Lower(Strip(raw))) || IsValidBrandAsWritten(raw)
  }

  /** The corrected filter accepts "Outdoor Sports", and keeps every other verdict of the source. */
  lemma {:induction false} IsValidBrandMeaning(raw: string)
    ensures IsValidBrand(raw) <==>
      OutdoorSportsName(Lower(Strip(raw))) ||
      (!HasKeyword(Lower(Strip(raw))) && !IsPlaceName(Words(Strip(raw)), Lower(Strip(raw))))
    ensures !OutdoorSportsName(Lower(Strip(raw))) ==> (IsValidBrand(raw) <==> IsValidBrandAsWritten(raw))
    ensures IsValidBrand("Outdoor Sports")
  {
    IsValidBrandAsWrittenMeaning(raw);
    OutdoorSportsRejectedAsWritten();
  }

  // ---------------------------------------------------------------------------
  // Sponsorship category
  // ---------------------------------------------------------------------------

  const AdPlacement: string := "ad_placement"
  const InGamePlacement: string := "in_game_placement"

  const AdPlacementTypes: set<string> := {"digital_overlay", "ctv_ad", "overlay_ad", "squeeze_ad", "commercial"}
  const InGamePlacementTypes: set<string> := {"logo", "jersey_sponsor", "stadium_signage", "product_placement", "audio_mention"}

  /** categorize_sponsorship_placement: always one of the two categories. */
  function CategorizePlacement(placementType: string, context: string): (r: string)
    ensures r == AdPlacement || r == InGamePlacement
    ensures r == AdPlacement <==>
      placementType in AdPlacementTypes || (placementType !in InGamePlacementTypes && context == "commercial")
  {
    if placementType in AdPlacementTypes then AdPlacement
    else if placementType in InGamePlacementTypes then InGamePlacement
    else if context == "commercial" then AdPlacement
    else InGamePlacement
  }

  /** The context only matters for types outside both lists. */
  lemma CategoryOfKnownType(placementType: string, c1: string, c2: string)
    requires placementType in AdPlacementTypes + InGamePlacementTypes
    ensures CategorizePlacement(placementType, c1) == CategorizePlacement(placementType, c2)
    ensures CategorizePlacement(placementType, c1) == AdPlacement <==> placementType in AdPlacementTypes
  {
    assert AdPlacementTypes * InGamePlacementTypes == {};
  }

  // ---------------------------------------------------------------------------
  // Timeline of a BrandAppearance
  // ---------------------------------------------------------------------------

  const TimelineLengthError: string := "timeline must hold exactly two values"
  const TimelineOrderError: string := "End time must be after start time"

  /** The BrandAppearance timeline rule: exactly two values, and the end after the start. */
  function ValidateTimeline(t: seq<real>): (r: Result<seq<real>>)
    ensures r.Ok? <==> |t| == 2 && t[0] < t[1]
    ensures r.Ok? ==> r.value == t
    ensures r.Err? && |t| == 2 ==> r.message == TimelineOrderError
  {
    if |t| != 2 then Err(TimelineLengthError)
    else if t[1] <= t[0] then Err(TimelineOrderError)
    else Ok(t)
  }
}
