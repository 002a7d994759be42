/**
 * The records the two classifier stages get from the language model, with
 * one optional field per dictionary key the pipeline writes or reads (an
 * absent key is `None`), the fixed records used when the model's answer is
 * unusable, and the cleaning of a model reply before it is parsed: the
 * code-fence strip and, for image answers, the brace-substring fallback.
 * The model call and `json.loads` are oracles passed in as values.
 */
module Records {
  import opened Wrappers
  import opened Text

  datatype SubjectLineDna = SubjectLineDna(
    text: Option<string>, length: Option<int>, emotionalTriggers: Option<seq<string>>,
    powerWords: Option<seq<string>>, personalizationLevel: Option<string>,
    urgencyIndicators: Option<seq<string>>, predictedOpenRate: Option<string>)

  datatype ContentStructureDna = ContentStructureDna(
    wordCount: Option<int>, paragraphCount: Option<int>, openingHookType: Option<string>,
    valuePropositions: Option<seq<string>>, socialProofElements: Option<seq<string>>,
    scarcitySignals: Option<seq<string>>, closingTechnique: Option<string>)

  datatype PrimaryCta = PrimaryCta(
    text: Option<string>, actionType: Option<string>, urgencyLevel: Option<string>, position: Option<string>)

  datatype CtaDna = CtaDna(
    primaryCta: Option<PrimaryCta>, secondaryCtas: Option<seq<string>>, ctaCount: Option<int>,
    ctaStrategy: Option<string>)

  datatype PsychologicalTriggers = PsychologicalTriggers(
    urgencyScore: Option<real>, scarcityIndicators: Option<seq<string>>, authorityMarkers: Option<seq<string>>,
    reciprocityElements: Option<seq<string>>, socialProofStrength: Option<string>)

  datatype OfferDna = OfferDna(
    discountType: Option<string>, discountValue: Option<int>, offerPresentation: Option<string>,
    bonusItems: Option<seq<string>>, guaranteeType: Option<string>)

  datatype BrandVoiceDna = BrandVoiceDna(
    tone: Option<string>, personalityTraits: Option<seq<string>>, emotionalTemperature: Option<string>,
    formalityLevel: Option<string>, readingLevel: Option<string>)

  /** The content analysis: six categories, each possibly absent. */
  datatype Analysis = Analysis(
    subjectLineDna: Option<SubjectLineDna>, contentStructureDna: Option<ContentStructureDna>,
    ctaDna: Option<CtaDna>, psychologicalTriggers: Option<PsychologicalTriggers>,
    offerDna: Option<OfferDna>, brandVoiceDna: Option<BrandVoiceDna>)

  datatype VisualElements = VisualElements(
    imageType: Option<string>, dominantColors: Option<seq<string>>, textContent: Option<string>,
    designStyle: Option<string>)

  datatype BrandAnalysis = BrandAnalysis(
    professionalismScore: Option<real>, brandConsistency: Option<string>, visualAppeal: Option<string>)

  datatype MarketingEffectiveness = MarketingEffectiveness(
    ctaVisibility: Option<string>, emotionalImpact: Option<string>, attentionGrabbing: Option<string>,
    mobileFriendly: Option<bool>)

  datatype TechnicalQuality = TechnicalQuality(
    resolution: Option<string>, composition: Option<string>, colorHarmony: Option<string>)

  datatype RawVisualDescription = RawVisualDescription(
    sceneDescription: Option<string>, peopleDetails: Option<string>, objectsPresent: Option<seq<string>>,
    textInImage: Option<string>, settingContext: Option<string>)

  /** One entry of `individual_analyses`: the parsed model answer for one image, or
      the placeholder built when that image could not be analysed. */
  datatype ImageResult = ImageResult(
    filename: Option<string>, error: Option<string>, rawVisualDescription: Option<RawVisualDescription>,
    visualElements: Option<VisualElements>, brandAnalysis: Option<BrandAnalysis>,
    marketingEffectiveness: Option<MarketingEffectiveness>, technicalQuality: Option<TechnicalQuality>,
    recommendations: Option<seq<string>>)

  /** What the model service gives back: reply text, or a failure with its message. */
  datatype Reply = Answered(text: string) | CallFailed(message: string)

  /** What `json.loads` gives: a record, or the message of the decoding error. */
  datatype Parsed<T> = Decoded(value: T) | Undecodable(message: string)

  /** The content classification used whenever the content stage's answer is unusable. */
  const DefaultAnalysis := Analysis(
    Some(SubjectLineDna(Some("Welcome"), Some(7), Some(["welcome"]), Some([]), Some("basic"), Some([]), Some("medium"))),
    Some(ContentStructureDna(Some(200), Some(3), Some("benefit"), Some(["membership benefits"]), Some([]), Some([]), Some("benefit"))),
    Some(CtaDna(Some(PrimaryCta(Some("Get Started"), Some("signup"), Some("low"), Some("bottom"))), Some([]), Some(1), Some("single_focus"))),
    Some(PsychologicalTriggers(Some(3.0), Some([]), Some([]), Some([]), Some("low"))),
    Some(OfferDna(Some("none"), Some(0), Some("none"), Some([]), Some("none"))),
    Some(BrandVoiceDna(Some("friendly"), Some(["helpful"]), Some("warm"), Some("casual"), Some("middle_school"))))

  /** The placeholder for an image whose analysis failed with `error`. */
  function FailedImage(filename: string, error: string): (r: ImageResult)
    ensures r.filename == Some(filename) && r.error == Some(error)
    ensures r.rawVisualDescription.None?
    ensures r.brandAnalysis.Some? && r.brandAnalysis.value.professionalismScore == Some(5.0)
    ensures r.visualElements.Some? && r.visualElements.value.imageType == Some("unknown")
      && r.visualElements.value.dominantColors == Some([])
  {
    ImageResult(
      Some(filename), Some(error), None,
      Some(VisualElements(Some("unknown"), Some([]), Some(""), Some("unknown"))),
      Some(BrandAnalysis(Some(5.0), Some("unknown"), Some("unknown"))),
      Some(MarketingEffectiveness(Some("unknown"), Some("unknown"), Some("unknown"), Some(false))),
      Some(TechnicalQuality(Some("unknown"), Some("unknown"), Some("unknown"))),
      Some(["Unable to analyze - check image format and accessibility"]))
  }

  const Fence := "```"
  const JsonFence := "```json"

  /** The reply cleaning of both stages: strip, drop a leading "```json", then a
      leading "```", then a trailing "```", and strip again. What it leaves is
      stripped and no longer than the reply. */
  function StripFences(reply: string): (r: string)
    ensures Strip(r) == r && |r| <= |reply|
  {
    var t0 := Strip(reply);
    var t1 := if StartsWith(t0, JsonFence) then t0[|JsonFence|..] else t0;
    var t2 := if StartsWith(t1, Fence) then t1[|Fence|..] else t1;
    var t3 := if EndsWith(t2, Fence) then t2[..|t2| - |Fence|] else t2;
    StripIdempotent(t3);
    Strip(t3)
  }

  /** A reply fenced as "```json" J "```" is cleaned to strip(J), whenever J itself does
      not begin with a fence (a backtick-only J shorter than a fence included). */
  lemma FencedReplyIsUnwrapped(j: string)
    requires !StartsWith(j, Fence)
    ensures StripFences(JsonFence + j + Fence) == Strip(j)
  {
    var s := JsonFence + j + Fence;
    assert s[0] == '`' && s[|s| - 1] == '`';
    StripOfUnpadded(s);
    assert StartsWith(s, JsonFence) by { assert s[..|JsonFence|] == JsonFence; }
    var t1 := s[|JsonFence|..];
    assert t1 == j + Fence;
    FenceTailIsDropped(j);
  }

  /** After the "```json" is gone, the fence cleaning turns J "```" back into J. */
  lemma FenceTailIsDropped(j: string)
    requires !StartsWith(j, Fence)
    ensures var t1 := j + Fence;
      var t2 := if StartsWith(t1, Fence) then t1[|Fence|..] else t1;
      (if EndsWith(t2, Fence) then t2[..|t2| - |Fence|] else t2) == j
  {
    var t1 := j + Fence;
    if |j| >= 3 {
      assert t1[..3] == j[..3];
      assert t1[|t1| - 3..] == Fence;
      assert t1[..|t1| - 3] == j;
    } else if StartsWith(t1, Fence) {
      ShortBackticks(j);
    } else {
      assert t1[|t1| - 3..] == Fence;
      assert t1[..|t1| - 3] == j;
    }
  }

  /** A J shorter than a fence that, followed by a fence, starts with one is made
      of backticks only: dropping a fence from the front leaves J. */
  lemma ShortBackticks(j: string)
    requires |j| < 3 && StartsWith(j + Fence, Fence)
    ensures (j + Fence)[3..] == j
  {
    var t := j + Fence;
    assert t[..3] == Fence;
    forall k | 0 <= k < |j| ensures t[3 + k] == j[k] {
      assert j[k] == t[k] == Fence[k];
      assert t[3 + k] == Fence[3 + k - |j|];
    }
  }

  /** A reply with no fence at either end, once stripped, is only stripped. */
  lemma UnfencedReplyIsStripped(reply: string)
    requires !StartsWith(Strip(reply), Fence) && !EndsWith(Strip(reply), Fence)
    ensures StripFences(reply) == Strip(reply)
  {
    var t0 := Strip(reply);
    assert !StartsWith(t0, JsonFence) by {
      if |JsonFence| <= |t0| {
        assert t0[..|Fence|] == t0[..|JsonFence|][..|Fence|];
      }
    }
    StripIdempotent(reply);
  }

  /** The text of the regular expression `\{.*\}` (DOTALL) in `s`: from the first
      `{` to the last `}` after it. */
  function BraceSpan(s: string): (r: Option<string>)
    ensures r.Some? ==> |r.value| >= 2 && r.value[0] == '{' && r.value[|r.value| - 1] == '}'
    ensures r.Some? <==> exists i, j :: 0 <= i < j < |s| && s[i] == '{' && s[j] == '}'
  {
    var i := FirstIndexOf(s, '{', 0);
    var j := LastIndexOf(s, '}');
    if i < j && j < |s| then Some(s[i..j + 1])
    else None
  }

  /** Index of the last `c` in `s`, or `|s|` when there is none. */
  function LastIndexOf(s: string, c: char): (r: nat)
    ensures r <= |s|
    ensures r < |s| ==> s[r] == c && forall k :: r < k < |s| ==> s[k] != c
    ensures r == |s| ==> forall k :: 0 <= k < |s| ==> s[k] != c
  {
    if s == [] then 0
    else if s[|s| - 1] == c then |s| - 1
    else
      var r := LastIndexOf(s[..|s| - 1], c);
      assert forall k :: 0 <= k < |s| - 1 ==> s[..|s| - 1][k] == s[k];
      if r == |s| - 1 then |s| else r
  }

  /** The brace substring, when there is one, is a piece of `s` that starts at the
      first `{` of `s` and ends at the last `}` of `s`. */
  lemma BraceSpanBounds(s: string) returns (i: nat)
    requires BraceSpan(s).Some?
    ensures i + |BraceSpan(s).value| <= |s| && BraceSpan(s).value == s[i..i + |BraceSpan(s).value|]
    ensures forall k :: 0 <= k < i ==> s[k] != '{'
    ensures forall k :: i + |BraceSpan(s).value| <= k < |s| ==> s[k] != '}'
  {
    i := FirstIndexOf(s, '{', 0);
  }

  /** The content stage's classification: the parsed fence-stripped reply, or the
      default record when the call or the parse fails. */
  function ContentClassification(reply: Reply, parse: string -> Parsed<Analysis>): (r: Analysis)
    ensures reply.CallFailed? ==> r == DefaultAnalysis
    ensures reply.Answered? ==>
      r == (match parse(StripFences(reply.text)) case Decoded(a) => a case Undecodable(_) => DefaultAnalysis)
  {
    match reply
    case CallFailed(_) => DefaultAnalysis
    case Answered(text) =>
      match parse(StripFences(text))
      case Decoded(a) => a
      case Undecodable(_) => DefaultAnalysis
  }

  /** `analyze_single_image` once the model has replied: parse the cleaned reply;
      failing that, parse its brace substring; failing that (or when the call
      failed), the placeholder carrying the error message. */
  function AnalyzeImage(filename: string, reply: Reply, parse: string -> Parsed<ImageResult>): (r: ImageResult)
    ensures reply.CallFailed? ==> r == FailedImage(filename, reply.message)
    ensures reply.Answered? && parse(StripFences(reply.text)).Decoded? ==> r == parse(StripFences(reply.text)).value
    ensures reply.Answered? && parse(StripFences(reply.text)).Undecodable? && BraceSpan(StripFences(reply.text)).None? ==>
      r == FailedImage(filename, NoJsonMessage(StripFences(reply.text)))
    ensures reply.Answered? && parse(StripFences(reply.text)).Undecodable? && BraceSpan(StripFences(reply.text)).Some? ==>
      var b := BraceSpan(StripFences(reply.text)).value;
      r == (if parse(b).Decoded? then parse(b).value else FailedImage(filename, parse(b).message))
  {
    match reply
    case CallFailed(message) => FailedImage(filename, message)
    case Answered(text) =>
      var content := StripFences(text);
      match parse(content)
      case Decoded(v) => v
      case Undecodable(_) =>
        match BraceSpan(content)
        case None => FailedImage(filename, NoJsonMessage(content))
        case Some(b) =>
          match parse(b)
          case Decoded(v) => v
          case Undecodable(message) => FailedImage(filename, message)
  }

  /** The message of the error raised when no brace substring is found. */
  function NoJsonMessage(content: string): string {
    "No valid JSON found in response: " + (if |content| <= 200 then content else content[..200]) + "..."
  }
}
