/**
 * The synthesis stage's rules: the content score, the email-type chain, the
 * competitive insights and recommendations (independent conditions with
 * fixed fallbacks), the image descriptions and the replication blueprint,
 * and the final record they make up.
 */
module Synthesis {
  import opened Wrappers
  import opened Records
  import opened Visual
  import Extractor
  import Filters

  /** The dictionary handed to the rules. The pipeline always passes the content
      stage's `{raw_data, analysis}` wrapper; a bare analysis dictionary is what
      the rules would see if called with the analysis itself. */
  datatype ContentDict = Wrapper(rawData: Extractor.RawData, analysis: Analysis) | Bare(dict: Analysis)

  const EmptyAnalysis := Analysis(None, None, None, None, None, None)

  /** `content.get("analysis", content)`, used by the score and the email type. */
  function Unwrapped(c: ContentDict): Analysis {
    match c
    case Wrapper(_, a) => a
    case Bare(a) => a
  }

  /** `content.get("analysis", {})`, used for the final record and the blueprint. */
  function AnalysisEntry(c: ContentDict): Analysis {
    match c
    case Wrapper(_, a) => a
    case Bare(_) => EmptyAnalysis
  }

  /** The top-level category lookups of the insight and recommendation rules: on
      the wrapper they find no category at all. */
  function TopTriggers(c: ContentDict): Option<PsychologicalTriggers> {
    if c.Wrapper? then None else c.dict.psychologicalTriggers
  }

  function TopCta(c: ContentDict): Option<CtaDna> {
    if c.Wrapper? then None else c.dict.ctaDna
  }

  function TopOffer(c: ContentDict): Option<OfferDna> {
    if c.Wrapper? then None else c.dict.offerDna
  }

  function TopVoice(c: ContentDict): Option<BrandVoiceDna> {
    if c.Wrapper? then None else c.dict.brandVoiceDna
  }

  // ---------------------------------------------------------------- lookups

  /** `.get("urgency_score", 0)` */
  function UrgencyOf(t: Option<PsychologicalTriggers>): real {
    if t.Some? then t.value.urgencyScore.GetOr(0.0) else 0.0
  }

  function SocialProofOf(t: Option<PsychologicalTriggers>): Option<string> {
    if t.Some? then t.value.socialProofStrength else None
  }

  function OpenRateOf(s: Option<SubjectLineDna>): Option<string> {
    if s.Some? then s.value.predictedOpenRate else None
  }

  function PrimaryOf(c: Option<CtaDna>): Option<PrimaryCta> {
    if c.Some? then c.value.primaryCta else None
  }

  function CtaUrgencyOf(c: Option<CtaDna>): Option<string> {
    var p := PrimaryOf(c);
    if p.Some? then p.value.urgencyLevel else None
  }

  function ActionTypeOf(c: Option<CtaDna>): Option<string> {
    var p := PrimaryOf(c);
    if p.Some? then p.value.actionType else None
  }

  /** `.get("secondary_ctas", [])` */
  function SecondaryCtasOf(c: Option<CtaDna>): seq<string> {
    if c.Some? then c.value.secondaryCtas.GetOr([]) else []
  }

  /** `.get("cta_count", 0)` */
  function CtaCountOf(c: Option<CtaDna>): int {
    if c.Some? then c.value.ctaCount.GetOr(0) else 0
  }

  function DiscountOf(o: Option<OfferDna>): Option<string> {
    if o.Some? then o.value.discountType else None
  }

  function GuaranteeOf(o: Option<OfferDna>): Option<string> {
    if o.Some? then o.value.guaranteeType else None
  }

  function TemperatureOf(v: Option<BrandVoiceDna>): Option<string> {
    if v.Some? then v.value.emotionalTemperature else None
  }

  // ---------------------------------------------------------- content score

  function Min(x: real, y: real): real {
    if x <= y then x else y
  }

  /** `min(urgency_score / 10 * 2, 2)`: at most two points, all of them from 10 on. */
  function UrgencyTerm(u: real): (r: real)
    ensures r <= 2.0
    ensures u >= 10.0 ==> r == 2.0
    ensures u >= 0.0 ==> r >= 0.0
    ensures u <= 10.0 ==> r == u / 5.0
  {
    Min(u / 10.0 * 2.0, 2.0)
  }

  function OpenRateTerm(a: Analysis): real {
    var rate := OpenRateOf(a.subjectLineDna);
    if rate == Some("high") then 1.5 else if rate == Some("medium") then 0.5 else 0.0
  }

  function CtaTerm(a: Analysis): real {
    if CtaUrgencyOf(a.ctaDna) == Some("high") then 1.0 else 0.0
  }

  /** Half a point unless the discount type is literally "none"; an absent one earns it. */
  function OfferTerm(a: Analysis): real {
    if DiscountOf(a.offerDna) != Some("none") then 0.5 else 0.0
  }

  /** The content score: base 5 plus the four terms, rounded to a tenth, capped at 10. */
  function ContentScore(a: Analysis): (r: real)
    ensures r <= 10.0
  {
    Min(Round1(5.0 + OpenRateTerm(a) + UrgencyTerm(UrgencyOf(a.psychologicalTriggers)) + CtaTerm(a) + OfferTerm(a)), 10.0)
  }

  /** `_calculate_content_score`, accumulating the score term by term. */
  method CalculateContentScore(content: ContentDict) returns (score: real)
    ensures score == ContentScore(Unwrapped(content))
    ensures score <= 10.0
  {
    var analysis := Unwrapped(content);
    score := 5.0;
    var rate := OpenRateOf(analysis.subjectLineDna);
    if rate == Some("high") {
      score := score + 1.5;
    } else if rate == Some("medium") {
      score := score + 0.5;
    }
    var urgency := UrgencyOf(analysis.psychologicalTriggers);
    score := score + Min(urgency / 10.0 * 2.0, 2.0);
    if CtaUrgencyOf(analysis.ctaDna) == Some("high") {
      score := score + 1.0;
    }
    if DiscountOf(analysis.offerDna) != Some("none") {
      score := score + 0.5;
    }
    score := Min(Round1(score), 10.0);
  }

  /** Rounding to a tenth is monotone. */
  lemma Round1Monotone(x: real, y: real)
    requires x <= y
    ensures Round1(x) <= Round1(y)
  {
    var fx, fy := (x * 10.0).Floor, (y * 10.0).Floor;
    assert fx <= fy;
  }

  /** Rounding to a tenth never falls below a tenth it starts above. */
  lemma Round1AtLeast(x: real, n: int)
    requires x >= n as real / 10.0
    ensures Round1(x) >= n as real / 10.0
  {
    assert Round1(n as real / 10.0) == n as real / 10.0 by {
      assert (n as real / 10.0 * 10.0) == n as real;
    }
    Round1Monotone(n as real / 10.0, x);
  }

  /** A non-negative (or absent) urgency keeps the score at or above the base 5. */
  lemma ContentScoreAtLeastBase(a: Analysis)
    requires UrgencyOf(a.psychologicalTriggers) >= 0.0
    ensures 5.0 <= ContentScore(a)
  {
    Round1AtLeast(5.0 + OpenRateTerm(a) + UrgencyTerm(UrgencyOf(a.psychologicalTriggers)) + CtaTerm(a) + OfferTerm(a), 50);
  }

  function WithUrgency(a: Analysis, u: real): Analysis {
    var t := if a.psychologicalTriggers.Some? then a.psychologicalTriggers.value
             else PsychologicalTriggers(None, None, None, None, None);
    a.(psychologicalTriggers := Some(t.(urgencyScore := Some(u))))
  }

  /** More urgency never lowers the score, and beyond 10 it no longer raises it. */
  lemma ContentScoreMonotoneInUrgency(a: Analysis, u: real, v: real)
    requires u <= v
    ensures ContentScore(WithUrgency(a, u)) <= ContentScore(WithUrgency(a, v))
    ensures u >= 10.0 ==> ContentScore(WithUrgency(a, u)) == ContentScore(WithUrgency(a, v))
  {
    var au, av := WithUrgency(a, u), WithUrgency(a, v);
    assert OpenRateTerm(au) == OpenRateTerm(av) && CtaTerm(au) == CtaTerm(av) && OfferTerm(au) == OfferTerm(av);
    assert UrgencyTerm(u) <= UrgencyTerm(v);
    Round1Monotone(5.0 + OpenRateTerm(au) + UrgencyTerm(u) + CtaTerm(au) + OfferTerm(au),
                   5.0 + OpenRateTerm(av) + UrgencyTerm(v) + CtaTerm(av) + OfferTerm(av));
  }

  // ------------------------------------------------------------- email type

  /** `_determine_email_type`; `mentionsProduct` stands for the test on the
      dictionary's printed form. */
  function EmailType(content: ContentDict, mentionsProduct: bool): (r: string)
    ensures DiscountOf(Unwrapped(content).offerDna) != Some("none") <==> r == "promotional_sale"
    ensures r == "welcome_onboarding" <==>
      DiscountOf(Unwrapped(content).offerDna) == Some("none") && ActionTypeOf(Unwrapped(content).ctaDna) == Some("signup")
    ensures r == "product_launch" <==>
      DiscountOf(Unwrapped(content).offerDna) == Some("none") && ActionTypeOf(Unwrapped(content).ctaDna) != Some("signup")
      && mentionsProduct
    ensures r == "newsletter_engagement" <==>
      DiscountOf(Unwrapped(content).offerDna) == Some("none") && ActionTypeOf(Unwrapped(content).ctaDna) != Some("signup")
      && !mentionsProduct
    ensures r in {"promotional_sale", "welcome_onboarding", "product_launch", "newsletter_engagement"}
  {
    var a := Unwrapped(content);
    if DiscountOf(a.offerDna) != Some("none") then "promotional_sale"
    else if ActionTypeOf(a.ctaDna) == Some("signup") then "welcome_onboarding"
    else if mentionsProduct then "product_launch"
    else "newsletter_engagement"
  }

  /** A missing discount type (or a missing offer category) counts as an offer:
      the email is promotional and the score earns the offer half point. */
  lemma MissingDiscountIsPromotional(content: ContentDict, mentionsProduct: bool)
    requires DiscountOf(Unwrapped(content).offerDna).None?
    ensures EmailType(content, mentionsProduct) == "promotional_sale"
    ensures OfferTerm(Unwrapped(content)) == 0.5
  {
  }

  // ------------------------------------------------- insights, recommendations

  // The messages of the insight and recommendation rules.
  const StrongUrgency := "Strong urgency creation"
  const ProfessionalVisuals := "Professional visual design"
  const MultipleOptions := "Multiple engagement options"
  const ProfessionalPresentation := "Professional presentation"
  const AddTestimonials := "Add customer testimonials and reviews"
  const AddGuarantee := "Include risk-reversal guarantee"
  const OptimizeConversion := "Optimize conversion elements"
  const EngagingVoice := "Emotionally engaging brand voice"
  const ClearCommunication := "Clear communication"
  const IncreaseUrgency := "Increase urgency and scarcity elements"
  const AddSecondaryCtas := "Add secondary CTA options"
  const AddSocialProof := "Include customer testimonials and social proof"
  const EnhanceVisuals := "Enhance visual design quality"
  const OptimizeMobile := "Optimize for mobile viewing"
  const TestSubjectLines := "A/B test subject lines"

  datatype Insights = Insights(strengths: seq<string>, opportunities: seq<string>, competitiveAdvantages: seq<string>)

  /** `xs or fallback` */
  function OrElse(xs: seq<string>, fallback: seq<string>): (r: seq<string>)
    ensures xs != [] ==> r == xs
    ensures xs == [] ==> r == fallback
  {
    if xs != [] then xs else fallback
  }

  /** The one-message list of a rule whose condition holds, else nothing. */
  function Keep(condition: bool, message: string): (r: seq<string>)
    ensures message in r <==> condition
    ensures forall m :: m in r ==> m == message
  {
    if condition then [message] else []
  }

  function Strengths(content: ContentDict, visuals: ImageAnalysis): seq<string> {
    Keep(UrgencyOf(TopTriggers(content)) >= 7.0, StrongUrgency)
    + Keep(visuals.summary.avgProfessionalismScore >= 8.0, ProfessionalVisuals)
    + Keep(|SecondaryCtasOf(TopCta(content))| > 0, MultipleOptions)
  }

  function Opportunities(content: ContentDict): seq<string> {
    Keep(SocialProofOf(TopTriggers(content)) == Some("low"), AddTestimonials)
    + Keep(GuaranteeOf(TopOffer(content)) == Some("none"), AddGuarantee)
  }

  function Advantages(content: ContentDict): seq<string> {
    Keep(TemperatureOf(TopVoice(content)) == Some("warm"), EngagingVoice)
  }

  function InsightsOf(content: ContentDict, visuals: ImageAnalysis): Insights {
    Insights(
      OrElse(Strengths(content, visuals), [ProfessionalPresentation]),
      OrElse(Opportunities(content), [OptimizeConversion]),
      OrElse(Advantages(content), [ClearCommunication]))
  }

  /** `_generate_competitive_insights`, appending to three local lists. */
  method GenerateInsights(content: ContentDict, visuals: ImageAnalysis) returns (ins: Insights)
    ensures ins == InsightsOf(content, visuals)
    ensures ins.strengths != [] && ins.opportunities != [] && ins.competitiveAdvantages != []
  {
    var strengths: seq<string> := [];
    var opportunities: seq<string> := [];
    var advantages: seq<string> := [];
    if UrgencyOf(TopTriggers(content)) >= 7.0 {
      strengths := strengths + [StrongUrgency];
    }
    if visuals.summary.avgProfessionalismScore >= 8.0 {
      strengths := strengths + [ProfessionalVisuals];
    }
    if |SecondaryCtasOf(TopCta(content))| > 0 {
      strengths := strengths + [MultipleOptions];
    }
    assert strengths == Strengths(content, visuals);
    if SocialProofOf(TopTriggers(content)) == Some("low") {
      opportunities := opportunities + [AddTestimonials];
    }
    if GuaranteeOf(TopOffer(content)) == Some("none") {
      opportunities := opportunities + [AddGuarantee];
    }
    assert opportunities == Opportunities(content);
    if TemperatureOf(TopVoice(content)) == Some("warm") {
      advantages := advantages + [EngagingVoice];
    }
    ins := Insights(
      OrElse(strengths, [ProfessionalPresentation]),
      OrElse(opportunities, [OptimizeConversion]),
      OrElse(advantages, [ClearCommunication]));
  }

  /** On a bare analysis each strength is listed exactly when its condition holds,
      and the fallback exactly when none does. */
  lemma StrengthsOfBareAnalysis(a: Analysis, visuals: ImageAnalysis)
    ensures var s := InsightsOf(Bare(a), visuals).strengths;
      (StrongUrgency in s <==> UrgencyOf(a.psychologicalTriggers) >= 7.0)
      && (ProfessionalVisuals in s <==> visuals.summary.avgProfessionalismScore >= 8.0)
      && (MultipleOptions in s <==> |SecondaryCtasOf(a.ctaDna)| > 0)
      && (ProfessionalPresentation in s <==>
            UrgencyOf(a.psychologicalTriggers) < 7.0 && visuals.summary.avgProfessionalismScore < 8.0
            && SecondaryCtasOf(a.ctaDna) == [])
  {
    var t := Strengths(Bare(a), visuals);
    assert ProfessionalPresentation !in t;
    assert t == [] <==>
      (UrgencyOf(a.psychologicalTriggers) < 7.0 && visuals.summary.avgProfessionalismScore < 8.0
       && SecondaryCtasOf(a.ctaDna) == []);
  }

  /** Every opportunity and advantage on a bare analysis is listed exactly when its condition holds. */
  lemma OpportunitiesOfBareAnalysis(a: Analysis, visuals: ImageAnalysis)
    ensures var i := InsightsOf(Bare(a), visuals);
      (AddTestimonials in i.opportunities <==> SocialProofOf(a.psychologicalTriggers) == Some("low"))
      && (AddGuarantee in i.opportunities <==> GuaranteeOf(a.offerDna) == Some("none"))
      && (EngagingVoice in i.competitiveAdvantages <==> TemperatureOf(a.brandVoiceDna) == Some("warm"))
      && (i.competitiveAdvantages == [ClearCommunication] <==> TemperatureOf(a.brandVoiceDna) != Some("warm"))
  {
    var o := Opportunities(Bare(a));
    assert OptimizeConversion !in o;
  }

  /** What the pipeline gets: on the wrapper only the visual rule can fire. */
  lemma InsightsOfWrapper(raw: Extractor.RawData, a: Analysis, visuals: ImageAnalysis)
    ensures InsightsOf(Wrapper(raw, a), visuals) == Insights(
      if visuals.summary.avgProfessionalismScore >= 8.0 then [ProfessionalVisuals] else [ProfessionalPresentation],
      [OptimizeConversion],
      [ClearCommunication])
  {
  }

  function Recommended(content: ContentDict, visuals: ImageAnalysis, score: real): seq<string> {
    Keep(score < 7.0, IncreaseUrgency)
    + Keep(CtaCountOf(TopCta(content)) < 2, AddSecondaryCtas)
    + Keep(SocialProofOf(TopTriggers(content)) != Some("high"), AddSocialProof)
    + Keep(visuals.summary.avgProfessionalismScore < 8.0, EnhanceVisuals)
  }

  const RecommendationFallback := [OptimizeMobile, TestSubjectLines]

  function RecommendationsOf(content: ContentDict, visuals: ImageAnalysis, score: real): seq<string> {
    OrElse(Recommended(content, visuals, score), RecommendationFallback)
  }

  /** `_generate_recommendations`, appending to a local list. */
  method GenerateRecommendations(content: ContentDict, visuals: ImageAnalysis, score: real) returns (recs: seq<string>)
    ensures recs == RecommendationsOf(content, visuals, score)
    ensures recs != []
  {
    recs := [];
    if score < 7.0 {
      recs := recs + [IncreaseUrgency];
    }
    if CtaCountOf(TopCta(content)) < 2 {
      recs := recs + [AddSecondaryCtas];
    }
    if SocialProofOf(TopTriggers(content)) != Some("high") {
      recs := recs + [AddSocialProof];
    }
    if visuals.summary.avgProfessionalismScore < 8.0 {
      recs := recs + [EnhanceVisuals];
    }
    recs := OrElse(recs, RecommendationFallback);
  }

  /** Each recommendation is listed exactly when its condition holds, and the
      fallback pair exactly when none holds. */
  lemma RecommendationsExact(content: ContentDict, visuals: ImageAnalysis, score: real)
    ensures var r := RecommendationsOf(content, visuals, score);
      (IncreaseUrgency in r <==> score < 7.0)
      && (AddSecondaryCtas in r <==> CtaCountOf(TopCta(content)) < 2)
      && (AddSocialProof in r <==> SocialProofOf(TopTriggers(content)) != Some("high"))
      && (EnhanceVisuals in r <==> visuals.summary.avgProfessionalismScore < 8.0)
      && (r == RecommendationFallback <==>
            score >= 7.0 && CtaCountOf(TopCta(content)) >= 2
            && SocialProofOf(TopTriggers(content)) == Some("high") && visuals.summary.avgProfessionalismScore >= 8.0)
  {
    var t := Recommended(content, visuals, score);
    assert OptimizeMobile !in t;
    assert RecommendationFallback[0] == OptimizeMobile;
  }

  /** Called with the wrapper, as the pipeline does, the CTA and social-proof
      recommendations are always given. */
  lemma WrapperAlwaysRecommendsCtaAndSocialProof(raw: Extractor.RawData, a: Analysis, visuals: ImageAnalysis, score: real)
    ensures AddSecondaryCtas in RecommendationsOf(Wrapper(raw, a), visuals, score)
    ensures AddSocialProof in RecommendationsOf(Wrapper(raw, a), visuals, score)
  {
    RecommendationsExact(Wrapper(raw, a), visuals, score);
  }

  // ----------------------------------------------------- image descriptions

  datatype ImageDescription = ImageDescription(
    filename: string, visualDescription: string, peopleDetails: string, textInImage: string,
    objectsDetected: seq<string>, sceneContext: string)

  /** The description of one analysed image; a missing raw visual description
      reads as an empty dictionary, so every field takes its default. */
  function Describe(img: ImageResult): (r: ImageDescription)
    ensures r.filename == img.filename.GetOr("unknown")
    ensures img.rawVisualDescription.None? ==>
      r == ImageDescription(r.filename, "No description", "No people detected", "No text detected", [], "unknown")
  {
    var d := img.rawVisualDescription.GetOr(RawVisualDescription(None, None, None, None, None));
    ImageDescription(
      img.filename.GetOr("unknown"), d.sceneDescription.GetOr("No description"),
      d.peopleDetails.GetOr("No people detected"), d.textInImage.GetOr("No text detected"),
      d.objectsPresent.GetOr([]), d.settingContext.GetOr("unknown"))
  }

  predicate HasRawDescription(img: ImageResult) {
    img.rawVisualDescription.Some?
  }

  function DescriptionsOf(xs: seq<ImageResult>): (r: seq<ImageDescription>)
    ensures |r| <= |xs|
    ensures forall k :: 0 <= k < |xs| && xs[k].rawVisualDescription.Some? ==> Describe(xs[k]) in r
  {
    if xs == [] then []
    else
      var init := xs[..|xs| - 1];
      var last := xs[|xs| - 1];
      assert forall k :: 0 <= k < |xs| - 1 ==> init[k] == xs[k];
      if last.rawVisualDescription.Some? then DescriptionsOf(init) + [Describe(last)] else DescriptionsOf(init)
  }

  /** The descriptions are exactly those of the images carrying a raw visual
      description, in order: the comprehension filtered by that test. */
  lemma {:induction false} DescriptionsOfFilter(xs: seq<ImageResult>)
    ensures DescriptionsOf(xs) == Filters.FilterMap(xs, HasRawDescription, Describe)
    decreases |xs|
  {
    if xs != [] {
      DescriptionsOfFilter(xs[..|xs| - 1]);
    }
  }

  /** `_extract_image_descriptions`: one entry per analysed image that has a raw
      visual description, in order. */
  method ExtractImageDescriptions(visuals: ImageAnalysis) returns (ds: seq<ImageDescription>)
    ensures ds == DescriptionsOf(visuals.individualAnalyses)
  {
    var xs := visuals.individualAnalyses;
    ds := [];
    for k := 0 to |xs|
      invariant ds == DescriptionsOf(xs[..k])
    {
      assert xs[..k + 1][..k] == xs[..k];
      if xs[k].rawVisualDescription.Some? {
        ds := ds + [Describe(xs[k])];
      }
    }
    assert xs[..|xs|] == xs;
  }

  /** Images whose analysis failed contribute no description. */
  lemma {:induction false} FailedImagesHaveNoDescriptions(names: seq<string>, errors: seq<string>)
    requires |names| == |errors|
    ensures DescriptionsOf(seq(|names|, k requires 0 <= k < |names| => FailedImage(names[k], errors[k]))) == []
  {
    if names != [] {
      var n := |names| - 1;
      var xs := seq(|names|, k requires 0 <= k < |names| => FailedImage(names[k], errors[k]));
      FailedImagesHaveNoDescriptions(names[..n], errors[..n]);
      assert xs[..n] == seq(n, k requires 0 <= k < n => FailedImage(names[..n][k], errors[..n][k]));
    }
  }

  // --------------------------------------------------- replication blueprint

  datatype SubjectLineFormula = SubjectLineFormula(structure: string, keyTriggers: seq<string>, optimalLength: int)
  datatype ContentStructureFormula = ContentStructureFormula(openingHook: string, ctaStrategy: string, closingTechnique: string)
  datatype VisualFormula = VisualFormula(colorPalette: seq<string>, designStyle: string, imageTypes: seq<string>)
  datatype Blueprint = Blueprint(subjectLineFormula: SubjectLineFormula, contentStructure: ContentStructureFormula,
                                 visualFormula: VisualFormula)

  /** `xs[:n]` */
  function Take(xs: seq<string>, n: nat): (r: seq<string>)
    ensures |r| <= n && |r| <= |xs| && r == xs[..|r|]
    ensures |r| == n || r == xs
  {
    if |xs| <= n then xs else xs[..n]
  }

  /** `_create_replication_blueprint`, given the analysis entry and the image analysis. */
  function ReplicationBlueprint(a: Analysis, visuals: ImageAnalysis): (r: Blueprint)
    ensures var p := r.visualFormula.colorPalette; var cs := visuals.summary.commonColors;
      |p| == (if |cs| < 3 then |cs| else 3) && p == cs[..|p|]
    ensures r.visualFormula.designStyle == "modern" && r.visualFormula.imageTypes == visuals.summary.imageTypes
    ensures a.subjectLineDna.None? ==> r.subjectLineFormula == SubjectLineFormula("Unknown", [], 50)
    ensures a.contentStructureDna.None? ==>
      r.contentStructure.openingHook == "benefit" && r.contentStructure.closingTechnique == "benefit"
    ensures a.ctaDna.None? ==> r.contentStructure.ctaStrategy == "single_focus"
  {
    var s := a.subjectLineDna;
    var c := a.contentStructureDna;
    Blueprint(
      SubjectLineFormula(
        if s.Some? then s.value.text.GetOr("Unknown") else "Unknown",
        if s.Some? then s.value.emotionalTriggers.GetOr([]) else [],
        if s.Some? then s.value.length.GetOr(50) else 50),
      ContentStructureFormula(
        if c.Some? then c.value.openingHookType.GetOr("benefit") else "benefit",
        if a.ctaDna.Some? then a.ctaDna.value.ctaStrategy.GetOr("single_focus") else "single_focus",
        if c.Some? then c.value.closingTechnique.GetOr("benefit") else "benefit"),
      VisualFormula(Take(visuals.summary.commonColors, 3), "modern", visuals.summary.imageTypes))
  }

  /** The palette is at most three distinct colours, each one some image's dominant colour. */
  lemma BlueprintPalette(a: Analysis, visuals: ImageAnalysis, analyses: seq<ImageResult>)
    requires visuals.summary.commonColors == CommonColors(AllColors(analyses))
    ensures var p := ReplicationBlueprint(a, visuals).visualFormula.colorPalette;
      |p| <= 3 && NoDuplicates(p) && forall c :: c in p ==> c in AllColors(analyses)
  {
    var p := ReplicationBlueprint(a, visuals).visualFormula.colorPalette;
    assert forall k :: 0 <= k < |p| ==> p[k] == visuals.summary.commonColors[k];
  }

  /** With nothing to read, every blueprint entry takes its default. */
  lemma EmptyAnalysisBlueprint(visuals: ImageAnalysis)
    ensures ReplicationBlueprint(EmptyAnalysis, visuals).subjectLineFormula == SubjectLineFormula("Unknown", [], 50)
    ensures ReplicationBlueprint(EmptyAnalysis, visuals).contentStructure == ContentStructureFormula("benefit", "single_focus", "benefit")
  {
  }

  // ------------------------------------------------------------ final record

  datatype MetaData = MetaData(emailType: string, overallEffectivenessScore: real, contentScore: real,
                               visualScore: real, analysisTimestamp: string)

  /** The final record; `rawData` is `None` when the dictionary had no raw data
      (every raw field then takes its empty default). */
  datatype EmailDna = EmailDna(
    metaData: MetaData, rawData: Option<Extractor.RawData>, imageDescriptions: seq<ImageDescription>,
    contentDna: Analysis, visualDna: ImageAnalysis, competitiveIntelligence: Insights,
    actionableRecommendations: seq<string>, replicationBlueprint: Blueprint)

  /** The overall score: the mean of the content and visual scores, rounded to a tenth. */
  function OverallScore(contentScore: real, visualScore: real): (r: real)
    ensures Min(contentScore, visualScore) - 0.05 <= r <= Max(contentScore, visualScore) + 0.05
    ensures (r * 10.0).Floor as real == r * 10.0 && -0.05 <= r - (contentScore + visualScore) / 2.0 <= 0.05
  {
    Round1((contentScore + visualScore) / 2.0)
  }

  function Max(x: real, y: real): real {
    if x >= y then x else y
  }

  /** The final record: its scores are bounded as the score rules promise, its
      type is one of the four categories, raw data is present exactly when the
      dictionary carried it, and every insight and recommendation list is non-empty. */
  function DnaOf(content: ContentDict, visuals: ImageAnalysis, timestamp: string, mentionsProduct: bool): (r: EmailDna)
    ensures r.metaData.contentScore <= 10.0 && r.metaData.visualScore == visuals.summary.avgProfessionalismScore
    ensures var m := r.metaData;
      Min(m.contentScore, m.visualScore) - 0.05 <= m.overallEffectivenessScore <= Max(m.contentScore, m.visualScore) + 0.05
    ensures r.metaData.overallEffectivenessScore == OverallScore(r.metaData.contentScore, r.metaData.visualScore)
    ensures r.metaData.emailType in {"promotional_sale", "welcome_onboarding", "product_launch", "newsletter_engagement"}
    ensures r.metaData.analysisTimestamp == timestamp
    ensures r.rawData.Some? <==> content.Wrapper?
    ensures |r.imageDescriptions| <= |visuals.individualAnalyses| && r.visualDna == visuals
    ensures r.actionableRecommendations != []
    ensures r.competitiveIntelligence.strengths != [] && r.competitiveIntelligence.opportunities != []
      && r.competitiveIntelligence.competitiveAdvantages != []
  {
    var contentScore := ContentScore(Unwrapped(content));
    var visualScore := visuals.summary.avgProfessionalismScore;
    var overall := OverallScore(contentScore, visualScore);
    EmailDna(
      MetaData(EmailType(content, mentionsProduct), overall, contentScore, visualScore, timestamp),
      if content.Wrapper? then Some(content.rawData) else None,
      DescriptionsOf(visuals.individualAnalyses),
      AnalysisEntry(content), visuals, InsightsOf(content, visuals),
      RecommendationsOf(content, visuals, overall),
      ReplicationBlueprint(AnalysisEntry(content), visuals))
  }

  /** `dna_synthesizer`'s computation of the final record. */
  method Synthesize(content: ContentDict, visuals: ImageAnalysis, timestamp: string, mentionsProduct: bool)
    returns (dna: EmailDna)
    ensures dna == DnaOf(content, visuals, timestamp, mentionsProduct)
  {
    var contentScore := CalculateContentScore(content);
    var visualScore := visuals.summary.avgProfessionalismScore;
    var overall := OverallScore(contentScore, visualScore);
    var emailType := EmailType(content, mentionsProduct);
    var insights := GenerateInsights(content, visuals);
    var recs := GenerateRecommendations(content, visuals, overall);
    var descriptions := ExtractImageDescriptions(visuals);
    dna := EmailDna(
      MetaData(emailType, overall, contentScore, visualScore, timestamp),
      if content.Wrapper? then Some(content.rawData) else None,
      descriptions, AnalysisEntry(content), visuals, insights, recs,
      ReplicationBlueprint(AnalysisEntry(content), visuals));
  }

  /** When the content stage fell back to its default record, the email is a
      welcome/onboarding one with content score 6.1. */
  lemma DefaultAnalysisScenario(raw: Extractor.RawData, mentionsProduct: bool)
    ensures ContentScore(DefaultAnalysis) == 6.1
    ensures EmailType(Wrapper(raw, DefaultAnalysis), mentionsProduct) == "welcome_onboarding"
  {
    assert UrgencyTerm(3.0) == 0.6;
    assert (6.1 * 10.0).Floor == 61;
  }
}
