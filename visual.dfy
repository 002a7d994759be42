/**
 * The image stage: choosing the image files of a directory listing, running
 * the per-image classifier over them, and aggregating the answers into a
 * summary (image count, image types in first-seen order, up to ten distinct
 * colours, the mean professionalism score rounded to one decimal) and an
 * overall assessment bucketed from the unrounded mean.
 */
module Visual {
  import opened Wrappers
  import opened Records
  import Filters

  const ImageExtensions := [".png", ".jpg", ".jpeg", ".gif", ".bmp", ".webp"]

  /** ASCII lower-casing, which is all `str.lower()` needs to decide these suffixes. */
  function LowerChar(c: char): char {
    if 'A' <= c <= 'Z' then (c as int + 32) as char else c
  }

  function Lower(s: string): (r: string)
    ensures |r| == |s|
    ensures forall k :: 0 <= k < |s| ==> r[k] == LowerChar(s[k])
  {
    seq(|s|, k requires 0 <= k < |s| => LowerChar(s[k]))
  }

  predicate IsImageName(name: string) {
    exists e :: e in ImageExtensions && Text.EndsWith(Lower(name), e)
  }

  /** The listing entries kept as image files, in listing order. */
  function ImageFiles(listing: seq<string>): (r: seq<string>)
    ensures |r| <= |listing|
    ensures forall f :: f in r <==> f in listing && IsImageName(f)
  {
    if listing == [] then []
    else
      var rest := ImageFiles(listing[..|listing| - 1]);
      var f := listing[|listing| - 1];
      assert listing == listing[..|listing| - 1] + [f];
      if IsImageName(f) then rest + [f] else rest
  }

  /** The image-file list is the comprehension over the listing that keeps the
      image names unchanged: each passing entry once, in listing order. */
  lemma {:induction false} ImageFilesFilter(listing: seq<string>)
    ensures ImageFiles(listing) == Filters.FilterMap(listing, IsImageName, (f: string) => f)
    decreases |listing|
  {
    if listing != [] {
      ImageFilesFilter(listing[..|listing| - 1]);
    }
  }

  /** The files the stage analyses: none when the directory does not exist. */
  function FilesToAnalyse(listing: Option<seq<string>>): (r: seq<string>)
    ensures listing.None? ==> r == []
    ensures listing.Some? ==> r == ImageFiles(listing.value)
  {
    match listing
    case None => []
    case Some(names) => ImageFiles(names)
  }

  /** Apply the per-image classifier to every file, in order. */
  method AnalyseAll(files: seq<string>, analyse: string -> ImageResult) returns (analyses: seq<ImageResult>)
    ensures |analyses| == |files|
    ensures forall k :: 0 <= k < |files| ==> analyses[k] == analyse(files[k])
  {
    analyses := [];
    for k := 0 to |files|
      invariant |analyses| == k
      invariant forall m :: 0 <= m < k ==> analyses[m] == analyse(files[m])
    {
      analyses := analyses + [analyse(files[k])];
    }
  }

  /** `img.get('brand_analysis', {}).get('professionalism_score', 5)` */
  function ScoreOf(img: ImageResult): (r: real)
    ensures img.brandAnalysis.None? || img.brandAnalysis.value.professionalismScore.None? ==> r == 5.0
    ensures img.brandAnalysis.Some? && img.brandAnalysis.value.professionalismScore.Some? ==>
      r == img.brandAnalysis.value.professionalismScore.value
  {
    match img.brandAnalysis
    case None => 5.0
    case Some(b) => b.professionalismScore.GetOr(5.0)
  }

  /** `img.get('visual_elements', {}).get('dominant_colors', [])` */
  function ColorsOf(img: ImageResult): seq<string> {
    match img.visualElements
    case None => []
    case Some(v) => v.dominantColors.GetOr([])
  }

  /** `img.get('visual_elements', {}).get('image_type', 'unknown')` */
  function TypeOf(img: ImageResult): string {
    match img.visualElements
    case None => "unknown"
    case Some(v) => v.imageType.GetOr("unknown")
  }

  function ScoreSum(xs: seq<ImageResult>): real {
    if xs == [] then 0.0 else ScoreSum(xs[..|xs| - 1]) + ScoreOf(xs[|xs| - 1])
  }

  /** The colours of all images, concatenated in order. */
  function AllColors(xs: seq<ImageResult>): seq<string> {
    if xs == [] then [] else AllColors(xs[..|xs| - 1]) + ColorsOf(xs[|xs| - 1])
  }

  function TypeList(xs: seq<ImageResult>): (r: seq<string>)
    ensures |r| == |xs|
    ensures forall k :: 0 <= k < |xs| ==> r[k] == TypeOf(xs[k])
  {
    seq(|xs|, k requires 0 <= k < |xs| => TypeOf(xs[k]))
  }

  predicate NoDuplicates(s: seq<string>) {
    forall i, j :: 0 <= i < j < |s| ==> s[i] != s[j]
  }

  /** The distinct elements of `xs`, each where it first occurs. */
  function FirstSeen(xs: seq<string>): (r: seq<string>)
    ensures NoDuplicates(r)
    ensures forall x :: x in r <==> x in xs
    ensures |r| <= |xs|
  {
    if xs == [] then []
    else
      var p := FirstSeen(xs[..|xs| - 1]);
      var x := xs[|xs| - 1];
      assert xs == xs[..|xs| - 1] + [x];
      if x in p then p else p + [x]
  }

  /** Index of the first occurrence of `x` in `xs`. */
  function IndexIn(xs: seq<string>, x: string): (r: nat)
    requires x in xs
    ensures r < |xs| && xs[r] == x && forall k :: 0 <= k < r ==> xs[k] != x
  {
    if xs[0] == x then 0 else 1 + IndexIn(xs[1..], x)
  }

  lemma IndexInPrefix(xs: seq<string>, x: string, n: nat)
    requires n <= |xs| && x in xs[..n]
    ensures x in xs && IndexIn(xs, x) == IndexIn(xs[..n], x)
  {
    var i := IndexIn(xs[..n], x);
    assert xs[i] == x;
    var j := IndexIn(xs, x);
    assert j <= i;
    assert xs[..n][j] == x;
  }

  /** `FirstSeen` keeps the order of first occurrences. */
  lemma {:induction false} FirstSeenOrder(xs: seq<string>)
    ensures forall i, j :: 0 <= i < j < |FirstSeen(xs)| ==>
      IndexIn(xs, FirstSeen(xs)[i]) < IndexIn(xs, FirstSeen(xs)[j])
  {
    if xs != [] {
      var init := xs[..|xs| - 1];
      var x := xs[|xs| - 1];
      var p := FirstSeen(init);
      FirstSeenOrder(init);
      forall y | y in p ensures IndexIn(xs, y) == IndexIn(init, y) {
        IndexInPrefix(xs, y, |xs| - 1);
        assert xs[..|xs| - 1] == init;
      }
      if x !in p {
        assert forall k :: 0 <= k < |xs| - 1 ==> xs[k] == init[k];
        assert IndexIn(xs, x) == |xs| - 1;
      }
    }
  }

  /** `list(set(all_colors))[:10]`, with the set iterated in first-seen order. */
  function CommonColors(all: seq<string>): (r: seq<string>)
    ensures |r| <= 10
    ensures NoDuplicates(r)
    ensures forall c :: c in r ==> c in all
    ensures |r| < 10 ==> forall c :: c in all ==> c in r
  {
    var d := FirstSeen(all);
    if |d| <= 10 then d
    else
      assert forall k :: 0 <= k < 10 ==> d[..10][k] == d[k];
      d[..10]
  }

  /** Python's `round(x, 1)` on an exact value: to the nearest tenth, ties to an even tenth. */
  function Round1(x: real): (r: real)
    ensures (r * 10.0).Floor as real == r * 10.0
    ensures -0.05 <= r - x <= 0.05
    ensures x * 10.0 - (x * 10.0).Floor as real == 0.5 ==> (r * 10.0).Floor % 2 == 0
  {
    var y := x * 10.0;
    var f := y.Floor;
    var d := y - f as real;
    var n := if d > 0.5 then f + 1 else if d < 0.5 then f else if f % 2 == 0 then f else f + 1;
    n as real / 10.0
  }

  function AbsReal(v: real): real {
    if v < 0.0 then -v else v
  }

  /** No tenth is nearer to `x` than `round(x, 1)` (distances scaled by ten). */
  lemma Round1Nearest(x: real, m: int)
    ensures AbsReal(x * 10.0 - Round1(x) * 10.0) <= AbsReal(x * 10.0 - m as real)
  {
    var y := x * 10.0;
    var f := y.Floor;
    assert f as real <= y < f as real + 1.0;
    assert m <= f || m >= f + 1;
  }

  datatype ImageSummary = ImageSummary(
    totalImages: nat, imageTypes: seq<string>, commonColors: seq<string>, avgProfessionalismScore: real)

  datatype Assessment = Assessment(visualConsistency: string, brandStrength: string, marketingImpact: string)

  datatype ImageAnalysis = ImageAnalysis(
    individualAnalyses: seq<ImageResult>, summary: ImageSummary, overallAssessment: Assessment)

  /** The unrounded mean score; the divisor is at least one, so no images give 0. */
  function Average(xs: seq<ImageResult>): (r: real)
    ensures |xs| == 0 ==> r == 0.0
    ensures |xs| > 0 ==> r * |xs| as real == ScoreSum(xs)
  {
    ScoreSum(xs) / (if |xs| > 1 then |xs| as real else 1.0)
  }

  function Consistency(avg: real): string {
    if avg >= 7.0 then "high" else if avg >= 5.0 then "medium" else "low"
  }

  function Strength(avg: real): string {
    if avg >= 8.0 then "strong" else if avg >= 6.0 then "moderate" else "weak"
  }

  function Impact(count: nat, avg: real): string {
    if count > 0 && avg >= 7.0 then "high" else "medium"
  }

  /** The record the image stage stores for `analyses`: every analysis, their
      count, each image type once, at most ten distinct colours drawn from the
      images, and a score rounded to a tenth. */
  function ImageAnalysisOf(analyses: seq<ImageResult>): (r: ImageAnalysis)
    ensures r.individualAnalyses == analyses && r.summary.totalImages == |analyses|
    ensures NoDuplicates(r.summary.imageTypes)
    ensures forall t :: t in r.summary.imageTypes <==> exists k :: 0 <= k < |analyses| && TypeOf(analyses[k]) == t
    ensures |r.summary.commonColors| <= 10 && NoDuplicates(r.summary.commonColors)
    ensures forall c :: c in r.summary.commonColors ==> c in AllColors(analyses)
    ensures (r.summary.avgProfessionalismScore * 10.0).Floor as real == r.summary.avgProfessionalismScore * 10.0
  {
    var avg := Average(analyses);
    ImageAnalysis(
      analyses,
      ImageSummary(|analyses|, FirstSeen(TypeList(analyses)), CommonColors(AllColors(analyses)), Round1(avg)),
      Assessment(Consistency(avg), Strength(avg), Impact(|analyses|, avg)))
  }

  /** The aggregation of the image stage over `analyses`. */
  method Aggregate(analyses: seq<ImageResult>) returns (ia: ImageAnalysis)
    ensures ia == ImageAnalysisOf(analyses)
    ensures ia.individualAnalyses == analyses
    ensures ia.summary.totalImages == |analyses|
    ensures ia.summary.imageTypes == FirstSeen(TypeList(analyses))
    ensures ia.summary.commonColors == CommonColors(AllColors(analyses))
    ensures ia.summary.avgProfessionalismScore == Round1(Average(analyses))
    ensures ia.overallAssessment ==
      Assessment(Consistency(Average(analyses)), Strength(Average(analyses)), Impact(|analyses|, Average(analyses)))
  {
    var total := |analyses|;
    var avg := ScoreSum(analyses) / (if total > 1 then total as real else 1.0);
    var allColors: seq<string> := [];
    var imageTypes: seq<string> := [];
    for k := 0 to total
      invariant allColors == AllColors(analyses[..k])
      invariant imageTypes == FirstSeen(TypeList(analyses[..k]))
    {
      assert analyses[..k + 1][..k] == analyses[..k];
      allColors := allColors + ColorsOf(analyses[k]);
      var t := TypeOf(analyses[k]);
      assert TypeList(analyses[..k + 1])[..k] == TypeList(analyses[..k]);
      if t !in imageTypes {
        imageTypes := imageTypes + [t];
      }
    }
    assert analyses[..total] == analyses;
    ia := ImageAnalysis(
      analyses,
      ImageSummary(total, imageTypes, CommonColors(allColors), Round1(avg)),
      Assessment(Consistency(avg), Strength(avg), Impact(total, avg)));
  }

  /** With no images the mean is 0, so the assessment is low, weak and medium. */
  lemma NoImagesAssessment()
    ensures Average([]) == 0.0
    ensures Consistency(Average([])) == "low" && Strength(Average([])) == "weak"
      && Impact(0, Average([])) == "medium"
  {
  }

  /** The mean lies between any bounds of the individual scores. */
  lemma {:induction false} ScoreSumBounds(xs: seq<ImageResult>, lo: real, hi: real)
    requires forall k :: 0 <= k < |xs| ==> lo <= ScoreOf(xs[k]) <= hi
    ensures |xs| as real * lo <= ScoreSum(xs) <= |xs| as real * hi
  {
    if xs != [] {
      var init := xs[..|xs| - 1];
      assert forall k :: 0 <= k < |init| ==> init[k] == xs[k];
      ScoreSumBounds(init, lo, hi);
    }
  }

  lemma AverageBounds(xs: seq<ImageResult>, lo: real, hi: real)
    requires |xs| > 0
    requires forall k :: 0 <= k < |xs| ==> lo <= ScoreOf(xs[k]) <= hi
    ensures lo <= Average(xs) <= hi
  {
    ScoreSumBounds(xs, lo, hi);
  }

  /** Images that all failed score 5 each: a medium, weak, medium assessment. */
  lemma AllFailedAssessment(xs: seq<ImageResult>)
    requires |xs| > 0
    requires forall k :: 0 <= k < |xs| ==> xs[k].brandAnalysis.Some? && xs[k].brandAnalysis.value.professionalismScore == Some(5.0)
    ensures Average(xs) == 5.0
    ensures Consistency(Average(xs)) == "medium" && Strength(Average(xs)) == "weak" && Impact(|xs|, Average(xs)) == "medium"
  {
    AverageBounds(xs, 5.0, 5.0);
  }

  /** The three buckets agree: a strong brand or a high impact means high consistency. */
  lemma AssessmentCoherent(count: nat, avg: real)
    ensures Strength(avg) == "strong" ==> Consistency(avg) == "high"
    ensures Impact(count, avg) == "high" <==> count > 0 && Consistency(avg) == "high"
    ensures Consistency(avg) == "low" ==> Strength(avg) == "weak"
  {
  }
}
