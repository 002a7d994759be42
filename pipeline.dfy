/**
 * The three-stage workflow: content analysis, image analysis, synthesis,
 * run in that order over one shared state. Each stage writes its own entry
 * of the state and the status, and nothing else.
 */
module Pipeline {
  import opened Wrappers
  import opened Records
  import opened Visual
  import opened Synthesis
  import Extractor

  datatype Status = Starting | ContentAnalyzed | ImagesAnalyzed | Complete

  /** The classifier applied to one image file, given the model's reply for it. */
  function AnalyseFile(replyFor: string -> Reply, parse: string -> Parsed<ImageResult>): string -> ImageResult {
    f => AnalyzeImage(f, replyFor(f), parse)
  }

  /** The per-image answers the image stage collects for a directory listing. */
  function AnalysesFor(listing: Option<seq<string>>, replyFor: string -> Reply, parse: string -> Parsed<ImageResult>): (r: seq<ImageResult>)
    ensures |r| == |FilesToAnalyse(listing)|
    ensures forall k :: 0 <= k < |r| ==>
      r[k] == AnalyzeImage(FilesToAnalyse(listing)[k], replyFor(FilesToAnalyse(listing)[k]), parse)
  {
    var files := FilesToAnalyse(listing);
    seq(|files|, k requires 0 <= k < |files| => AnalyzeImage(files[k], replyFor(files[k]), parse))
  }

  /** The content stage's record: the extracted facts beside the classification. */
  method CombineContent(fileText: string, reply: Reply, parse: string -> Parsed<Analysis>) returns (c: ContentDict)
    ensures c.Wrapper?
    ensures c == Wrapper(Extractor.RawContentOf(fileText), ContentClassification(reply, parse))
  {
    var rawData := Extractor.ExtractRawContent(fileText);
    var analysis := ContentClassification(reply, parse);
    c := Wrapper(rawData, analysis);
  }

  /** The shared state; an entry holding `None` is still the empty dictionary it
      starts as. Each stage's `modifies` clause names the one entry it writes and
      the status: every other entry keeps its value. */
  class EmailDnaWorkflow {
    var emailContent: string
    var imagesDir: string
    var contentAnalysis: Option<ContentDict>
    var imageAnalysis: Option<ImageAnalysis>
    var finalDna: Option<EmailDna>
    var status: Status

    /** Which entries are filled is decided by the status. */
    ghost predicate Valid()
      reads this
    {
      && (status == Starting ==> contentAnalysis.None? && imageAnalysis.None? && finalDna.None?)
      && (status != Starting ==> contentAnalysis.Some? && contentAnalysis.value.Wrapper?)
      && (status == ContentAnalyzed ==> imageAnalysis.None? && finalDna.None?)
      && (status == ImagesAnalyzed ==> imageAnalysis.Some? && finalDna.None?)
      && (status == Complete ==> imageAnalysis.Some? && finalDna.Some?)
    }

    /** The initial state: two paths, three empty entries, status "starting". */
    constructor (emailContent: string, imagesDir: string)
      ensures Valid() && status == Starting
      ensures this.emailContent == emailContent && this.imagesDir == imagesDir
    {
      this.emailContent := emailContent;
      this.imagesDir := imagesDir;
      contentAnalysis := None;
      imageAnalysis := None;
      finalDna := None;
      status := Starting;
    }

    /** `content_agent`, given the text read from `emailContent` and the model's reply. */
    method ContentAgent(fileText: string, reply: Reply, parse: string -> Parsed<Analysis>)
      requires Valid() && status == Starting
      modifies this`contentAnalysis, this`status
      ensures Valid() && status == ContentAnalyzed
      ensures contentAnalysis == Some(Wrapper(Extractor.RawContentOf(fileText), ContentClassification(reply, parse)))
    {
      var combined := CombineContent(fileText, reply, parse);
      StoreContent(combined);
    }

    /** The content stage's write: its entry and the status. */
    method StoreContent(c: ContentDict)
      requires Valid() && status == Starting && c.Wrapper?
      modifies this`contentAnalysis, this`status
      ensures Valid() && status == ContentAnalyzed && contentAnalysis == Some(c)
    {
      contentAnalysis := Some(c);
      status := ContentAnalyzed;
    }

    /** `image_agent`, given the listing of `imagesDir` (`None` when it does not
        exist) and the model's reply for each file. */
    method ImageAgent(listing: Option<seq<string>>, replyFor: string -> Reply, parse: string -> Parsed<ImageResult>)
      requires Valid() && status == ContentAnalyzed
      modifies this`imageAnalysis, this`status
      ensures Valid() && status == ImagesAnalyzed
      ensures imageAnalysis == Some(ImageAnalysisOf(AnalysesFor(listing, replyFor, parse)))
    {
      var files := FilesToAnalyse(listing);
      var analyses := AnalyseAll(files, AnalyseFile(replyFor, parse));
      assert analyses == AnalysesFor(listing, replyFor, parse);
      var aggregated := Aggregate(analyses);
      StoreImages(aggregated);
    }

    /** The image stage's write: its entry and the status. */
    method StoreImages(ia: ImageAnalysis)
      requires Valid() && status == ContentAnalyzed
      modifies this`imageAnalysis, this`status
      ensures Valid() && status == ImagesAnalyzed && imageAnalysis == Some(ia)
    {
      imageAnalysis := Some(ia);
      status := ImagesAnalyzed;
    }

    /** `dna_synthesizer`, given the timestamp and whether the printed content
        dictionary mentions "product". */
    method DnaSynthesizer(timestamp: string, mentionsProduct: bool)
      requires Valid() && status == ImagesAnalyzed
      modifies this`finalDna, this`status
      ensures Valid() && status == Complete
      ensures finalDna == Some(DnaOf(contentAnalysis.value, imageAnalysis.value, timestamp, mentionsProduct))
    {
      var dna := Synthesize(contentAnalysis.value, imageAnalysis.value, timestamp, mentionsProduct);
      StoreDna(dna);
    }

    /** The synthesis stage's write: its entry and the status. */
    method StoreDna(dna: EmailDna)
      requires Valid() && status == ImagesAnalyzed
      modifies this`finalDna, this`status
      ensures Valid() && status == Complete && finalDna == Some(dna)
    {
      finalDna := Some(dna);
      status := Complete;
    }

    /** The three stages in order, from the initial state to "complete" (each
        stage's own contract gives the entry it writes). Because the rules see the
        wrapper, the CTA and social-proof recommendations are always part of the
        result. */
    method Run(fileText: string, contentReply: Reply, parseContent: string -> Parsed<Analysis>,
               listing: Option<seq<string>>, replyFor: string -> Reply, parseImage: string -> Parsed<ImageResult>,
               timestamp: string, mentionsProduct: bool)
      requires Valid() && status == Starting
      modifies this`contentAnalysis, this`imageAnalysis, this`finalDna, this`status
      ensures Valid() && status == Complete && finalDna.Some?
      ensures "Add secondary CTA options" in finalDna.value.actionableRecommendations
      ensures "Include customer testimonials and social proof" in finalDna.value.actionableRecommendations
    {
      ContentAgent(fileText, contentReply, parseContent);
      ImageAgent(listing, replyFor, parseImage);
      DnaSynthesizer(timestamp, mentionsProduct);
      PipelineRecommendations(contentAnalysis.value, imageAnalysis.value, timestamp, mentionsProduct);
    }
  }

  /** The final record built from the wrapper recommends more CTAs and social proof. */
  lemma PipelineRecommendations(c: ContentDict, v: ImageAnalysis, timestamp: string, mentionsProduct: bool)
    requires c.Wrapper?
    ensures "Add secondary CTA options" in DnaOf(c, v, timestamp, mentionsProduct).actionableRecommendations
    ensures "Include customer testimonials and social proof" in DnaOf(c, v, timestamp, mentionsProduct).actionableRecommendations
  {
    WrapperAlwaysRecommendsCtaAndSocialProof(c.rawData, c.analysis, v,
      OverallScore(ContentScore(Unwrapped(c)), v.summary.avgProfessionalismScore));
  }

  /** With no image directory the synthesized record reports no images and the
      fixed zero-image assessment. */
  lemma MissingDirectoryGivesEmptyImageAnalysis(replyFor: string -> Reply, parse: string -> Parsed<ImageResult>)
    ensures var ia := ImageAnalysisOf(AnalysesFor(None, replyFor, parse));
      ia.summary.totalImages == 0 && ia.summary.avgProfessionalismScore == 0.0
      && ia.summary.imageTypes == [] && ia.summary.commonColors == []
      && ia.overallAssessment == Assessment("low", "weak", "medium")
  {
    assert AnalysesFor(None, replyFor, parse) == [];
    NoImagesAssessment();
    assert Round1(0.0) == 0.0;
  }
}
