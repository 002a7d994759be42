/**
 * The Markdown fact extractor of the content stage: from the Markdown text of
 * one email it takes the subject, sender and date (each with a fixed
 * fallback), the image links and text links, the embedded image references,
 * three anchored sections, a clean text with the markup removed, and count
 * statistics. It calls nothing outside itself.
 */
module Extractor {
  import opened Wrappers
  import opened Text
  import opened Patterns
  import opened Filters

  datatype LinkType = ImageLinkType | TextLinkType

  /** One entry of `extracted_links`; `position` is always "body". */
  datatype ExtractedLink = ExtractedLink(url: string, anchorText: string, linkType: LinkType, position: string)

  /** One entry of `image_references`; `imageType` is always "embedded_image". */
  datatype ImageReference = ImageReference(altText: string, imagePath: string, imageType: string)

  datatype ContentSection =
    | Benefits(content: string, benefitsList: seq<string>)
    | MainMessage(content: string)
    | FooterSocial(content: string, socialPlatforms: seq<string>)

  datatype OriginalEmail = OriginalEmail(subjectLine: string, sender: string, date: string,
                                         fullBodyText: string, rawMarkdown: string)

  datatype ContentStats = ContentStats(totalCharacters: nat, totalWords: nat, totalLinks: nat,
                                       totalImages: nat, formatType: string)

  /** The `raw_data` record. */
  datatype RawData = RawData(originalEmail: OriginalEmail, extractedLinks: seq<ExtractedLink>,
                             imageReferences: seq<ImageReference>, contentSections: seq<ContentSection>,
                             contentStats: ContentStats)

  const NoSubject := "No subject found"
  const UnknownSender := "Unknown sender"
  const UnknownDate := "Unknown date"
  const FromMarker := "**From:**"
  const DateMarker := "**Date:**"

  const BenefitsAnchor := "## Your benefits..."
  const BenefitsEnds := ["##", "---", "\n\n\U{A9}"]
  const MainMessageAnchor := "## Enjoy your unlocked benefits"
  const MainMessageEnds := ["## Your benefits"]
  const FooterAnchor := "**Follow us:**"
  const FooterEnds := ["---", "\n\nYou are receiving"]

  /** A header field as recorded: one line, stripped. */
  predicate FieldLine(v: string) {
    Lacks(v, '\n') && Strip(v) == v
  }

  /** The stripped group of a search, or the fallback when the search fails;
      a one-line group and a one-line fallback give one stripped line. */
  function GroupOr(g: Option<string>, fallback: string): (r: string)
    requires g.Some? ==> Lacks(g.value, '\n')
    requires FieldLine(fallback)
    ensures FieldLine(r)
    ensures g.None? ==> r == fallback
  {
    match g
    case Some(v) => StripKeepsLacks(v, '\n'); StripIdempotent(v); Strip(v)
    case None => fallback
  }

  lemma FallbacksAreFieldLines()
    ensures FieldLine(NoSubject) && FieldLine(UnknownSender) && FieldLine(UnknownDate)
  {
    StripOfUnpadded(NoSubject);
    StripOfUnpadded(UnknownSender);
    StripOfUnpadded(UnknownDate);
  }

  /** The subject: the first `#` line's text, stripped, or the fallback. */
  function SubjectLine(content: string): (r: string)
    ensures FieldLine(r)
  {
    FallbacksAreFieldLines();
    GroupOr(SearchHeading(content, 0), NoSubject)
  }

  /** The sender: the text after the first `**From:**`, stripped, or the fallback. */
  function Sender(content: string): (r: string)
    ensures FieldLine(r)
  {
    FallbacksAreFieldLines();
    GroupOr(SearchLabel(content, FromMarker, 0), UnknownSender)
  }

  /** The date: the text after the first `**Date:**`, stripped, or the fallback. */
  function Date(content: string): (r: string)
    ensures FieldLine(r)
  {
    FallbacksAreFieldLines();
    GroupOr(SearchLabel(content, DateMarker, 0), UnknownDate)
  }

  /** A document none of whose lines starts with `#` has the fallback subject. */
  lemma NoHeadingGivesFallbackSubject(content: string)
    requires forall p :: 0 <= p < |content| && (p == 0 || content[p - 1] == '\n') ==> content[p] != '#'
    ensures SubjectLine(content) == NoSubject
  {
    assert forall p :: 0 <= p < |content| ==> !HeadingHit(content, p);
    SearchHeadingFails(content, 0);
  }

  /** A document without `**From:**` has the fallback sender. */
  lemma NoFromGivesFallbackSender(content: string)
    requires forall p :: 0 <= p < |content| ==> !At(content, FromMarker, p)
    ensures Sender(content) == UnknownSender
  {
    assert forall p :: 0 <= p < |content| ==> !LabelHit(content, FromMarker, p);
  }

  /** A document without `**Date:**` has the fallback date. */
  lemma NoDateGivesFallbackDate(content: string)
    requires forall p :: 0 <= p < |content| ==> !At(content, DateMarker, p)
    ensures Date(content) == UnknownDate
  {
    assert forall p :: 0 <= p < |content| ==> !LabelHit(content, DateMarker, p);
  }

  /** A heading, sender or date line that is present is never reported as missing
      unless its own text is the fallback: the search fails exactly when every
      occurrence of the marker is followed by nothing but newlines. */
  lemma SubjectFoundWhenHeadingHasText(content: string, p: nat)
    requires p < |content| && (p == 0 || content[p - 1] == '\n') && content[p] == '#'
    requires exists x :: p < x < |content| && content[x] != '\n'
    ensures SearchHeading(content, 0).Some?
  {
    var x :| p < x < |content| && content[x] != '\n';
    assert SpaceThenLine(content, p + 1).Some?;
    assert HeadingHit(content, p);
    SearchHeadingFails(content, 0);
  }

  /** Entries for `[![text](image)](url)` matches, in order. */
  function ImageLinkEntries(ms: seq<Match>): (r: seq<ExtractedLink>)
    ensures |r| == |ms|
    ensures forall k :: 0 <= k < |r| ==> r[k] == ExtractedLink(ms[k].group2, ms[k].group1, ImageLinkType, "body")
  {
    if ms == [] then [] else ImageLinkEntries(ms[..|ms| - 1]) + [ExtractedLink(ms[|ms| - 1].group2, ms[|ms| - 1].group1, ImageLinkType, "body")]
  }

  /** Entries for `[text](url)` matches whose url does not start with `images/`, in order. */
  function TextLinkEntries(ms: seq<Match>): (r: seq<ExtractedLink>)
    ensures |r| <= |ms|
    ensures forall k :: 0 <= k < |r| ==> r[k].linkType == TextLinkType && !StartsWith(r[k].url, "images/")
    ensures forall k :: 0 <= k < |ms| && !StartsWith(ms[k].group2, "images/") ==>
      ExtractedLink(ms[k].group2, ms[k].group1, TextLinkType, "body") in r
  {
    if ms == [] then []
    else
      var init := TextLinkEntries(ms[..|ms| - 1]);
      var m := ms[|ms| - 1];
      assert forall k :: 0 <= k < |ms| - 1 ==> ms[..|ms| - 1][k] == ms[k];
      if StartsWith(m.group2, "images/") then init
      else init + [ExtractedLink(m.group2, m.group1, TextLinkType, "body")]
  }

  /** The text links kept in `extracted_links`: those not pointing into `images/`. */
  predicate KeepsTextLink(m: Match) {
    !StartsWith(m.group2, "images/")
  }

  function TextLinkEntry(m: Match): ExtractedLink {
    ExtractedLink(m.group2, m.group1, TextLinkType, "body")
  }

  /** The text-link entries are exactly the comprehension over the kept
      matches: each kept match gives its entry, in order, and nothing else. */
  lemma {:induction false} TextLinkEntriesFilter(ms: seq<Match>)
    ensures TextLinkEntries(ms) == FilterMap(ms, KeepsTextLink, TextLinkEntry)
    decreases |ms|
  {
    if ms != [] {
      TextLinkEntriesFilter(ms[..|ms| - 1]);
    }
  }

  /** `extracted_links`: all image links, then the text links that survive the filter. */
  function ExtractedLinks(content: string): (r: seq<ExtractedLink>)
    ensures var n := |FindAll(ImageLink, content, 0)|;
      n <= |r| && (forall k :: 0 <= k < n ==> r[k].linkType == ImageLinkType)
      && r[n..] == TextLinkEntries(FindAll(TextLink, content, 0))
  {
    ImageLinkEntries(FindAll(ImageLink, content, 0)) + TextLinkEntries(FindAll(TextLink, content, 0))
  }

  /** `image_references`: every `![alt](path)` match, in order. */
  function ImageReferences(ms: seq<Match>): (r: seq<ImageReference>)
    ensures |r| == |ms|
    ensures forall k :: 0 <= k < |r| ==> r[k] == ImageReference(ms[k].group1, ms[k].group2, "embedded_image")
  {
    if ms == [] then [] else ImageReferences(ms[..|ms| - 1]) + [ImageReference(ms[|ms| - 1].group1, ms[|ms| - 1].group2, "embedded_image")]
  }

  /** The first captured group of each match (what `findall` returns for a one-group pattern). */
  function Groups(ms: seq<Match>): (r: seq<string>)
    ensures |r| == |ms| && forall k :: 0 <= k < |r| ==> r[k] == ms[k].group1
  {
    seq(|ms|, k requires 0 <= k < |ms| => ms[k].group1)
  }

  /** The three anchored sections, each present exactly when its search succeeds. */
  function BenefitsSection(content: string): Option<ContentSection> {
    match SearchSection(content, BenefitsAnchor, BenefitsEnds, 0)
    case None => None
    case Some(g) => var text := Strip(g); Some(Benefits(text, Groups(FindAll(BoldLink, text, 0))))
  }

  function MainMessageSection(content: string): Option<ContentSection> {
    match SearchSection(content, MainMessageAnchor, MainMessageEnds, 0)
    case None => None
    case Some(g) => Some(MainMessage(Strip(g)))
  }

  function FooterSection(content: string): Option<ContentSection> {
    match SearchSection(content, FooterAnchor, FooterEnds, 0)
    case None => None
    case Some(g) => var text := Strip(g); Some(FooterSocial(text, Groups(FindAll(Link, text, 0))))
  }

  function SectionList(o: Option<ContentSection>): (r: seq<ContentSection>)
    ensures |r| <= 1 && (r == [] <==> o.None?)
  {
    if o.Some? then [o.value] else []
  }

  /** `content_sections`, in the order benefits, main message, footer. */
  function ContentSections(content: string): (r: seq<ContentSection>)
    ensures |r| <= 3
  {
    SectionList(BenefitsSection(content)) + SectionList(MainMessageSection(content)) + SectionList(FooterSection(content))
  }

  /** The place of each kind of section in `content_sections`. */
  function Rank(c: ContentSection): nat {
    match c
    case Benefits(_, _) => 0
    case MainMessage(_) => 1
    case FooterSocial(_, _) => 2
  }

  /** `content_sections` holds each kind at most once, in the order benefits,
      main message, footer, and holds a kind exactly when its search succeeds,
      as the section that search gives. */
  lemma ContentSectionsOrder(content: string)
    ensures var r := ContentSections(content);
      && (forall a, b :: 0 <= a < b < |r| ==> Rank(r[a]) < Rank(r[b]))
      && (forall k :: 0 <= k < |r| ==>
            Some(r[k]) == (if r[k].Benefits? then BenefitsSection(content)
                           else if r[k].MainMessage? then MainMessageSection(content)
                           else FooterSection(content)))
      && (BenefitsSection(content).Some? ==> BenefitsSection(content).value in r)
      && (MainMessageSection(content).Some? ==> MainMessageSection(content).value in r)
      && (FooterSection(content).Some? ==> FooterSection(content).value in r)
  {
    var b, m, f := BenefitsSection(content), MainMessageSection(content), FooterSection(content);
    assert b.Some? ==> b.value.Benefits?;
    assert m.Some? ==> m.value.MainMessage?;
    assert f.Some? ==> f.value.FooterSocial?;
    ListOrder(b, m, f);
  }

  lemma ListOrder(b: Option<ContentSection>, m: Option<ContentSection>, f: Option<ContentSection>)
    requires b.Some? ==> b.value.Benefits?
    requires m.Some? ==> m.value.MainMessage?
    requires f.Some? ==> f.value.FooterSocial?
    ensures var r := SectionList(b) + SectionList(m) + SectionList(f);
      && (forall a, c :: 0 <= a < c < |r| ==> Rank(r[a]) < Rank(r[c]))
      && (forall k :: 0 <= k < |r| ==> Some(r[k]) == (if r[k].Benefits? then b else if r[k].MainMessage? then m else f))
      && (b.Some? ==> b.value in r) && (m.Some? ==> m.value in r) && (f.Some? ==> f.value in r)
  {
  }

  /** Each section is present exactly when its anchor occurs with text and a
      terminator after it; the section then holds the stripped text of the
      first such occurrence, and the benefits and footer lists are the
      bold-link and link texts found in it. */
  lemma SectionsPresence(content: string)
    ensures BenefitsSection(content).None? <==>
      forall p :: 0 <= p < |content| ==> !SectionHit(content, BenefitsAnchor, BenefitsEnds, p)
    ensures MainMessageSection(content).None? <==>
      forall p :: 0 <= p < |content| ==> !SectionHit(content, MainMessageAnchor, MainMessageEnds, p)
    ensures FooterSection(content).None? <==>
      forall p :: 0 <= p < |content| ==> !SectionHit(content, FooterAnchor, FooterEnds, p)
    ensures BenefitsSection(content).Some? ==> var c := BenefitsSection(content).value;
      c.Benefits? && Strip(c.content) == c.content && c.benefitsList == Groups(FindAll(BoldLink, c.content, 0))
    ensures FooterSection(content).Some? ==> var c := FooterSection(content).value;
      c.FooterSocial? && Strip(c.content) == c.content && c.socialPlatforms == Groups(FindAll(Link, c.content, 0))
    ensures MainMessageSection(content).Some? ==> var c := MainMessageSection(content).value;
      c.MainMessage? && Strip(c.content) == c.content
  {
    SearchSectionFails(content, BenefitsAnchor, BenefitsEnds, 0);
    SearchSectionFails(content, MainMessageAnchor, MainMessageEnds, 0);
    SearchSectionFails(content, FooterAnchor, FooterEnds, 0);
    var b := SearchSection(content, BenefitsAnchor, BenefitsEnds, 0);
    if b.Some? { StripIdempotent(b.value); }
    var m := SearchSection(content, MainMessageAnchor, MainMessageEnds, 0);
    if m.Some? { StripIdempotent(m.value); }
    var f := SearchSection(content, FooterAnchor, FooterEnds, 0);
    if f.Some? { StripIdempotent(f.value); }
  }

  /** A line that `strip()` does not reduce to nothing. */
  predicate NonBlank(line: string) {
    Strip(line) != []
  }

  /** The clean-text lines are exactly the comprehension
      `[line.strip() for line in lines if line.strip()]`. */
  lemma {:induction false} StrippedNonBlankFilter(lines: seq<string>)
    requires forall k :: 0 <= k < |lines| ==> NoNewline(lines[k])
    ensures StrippedNonBlank(lines) == FilterMap(lines, NonBlank, Strip)
    decreases |lines|
  {
    if lines != [] {
      assert forall k :: 0 <= k < |lines| - 1 ==> lines[1..][k] == lines[k + 1];
      StrippedNonBlankFilter(lines[1..]);
      assert lines == [lines[0]] + lines[1..];
      FilterMapCons(lines[0], lines[1..], NonBlank, Strip);
    }
  }

  /** The stripped, nonblank lines of `lines`, in order. */
  function StrippedNonBlank(lines: seq<string>): (r: seq<string>)
    requires forall k :: 0 <= k < |lines| ==> NoNewline(lines[k])
    ensures forall k :: 0 <= k < |r| ==> CleanLine(r[k])
  {
    if lines == [] then []
    else
      assert forall k :: 0 <= k < |lines| - 1 ==> lines[1..][k] == lines[k + 1];
      var rest := StrippedNonBlank(lines[1..]);
      var line := Strip(lines[0]);
      if line == [] then rest
      else
        assert CleanLine(line) by {
          assert NoNewline(lines[0]);
          StripIdempotent(lines[0]);
          StripKeepsLacks(lines[0], '\n');
        }
        assert forall k :: 0 <= k < |rest| ==> ([line] + rest)[k + 1] == rest[k];
        [line] + rest
  }

  predicate NoNewline(line: string) {
    Lacks(line, '\n')
  }

  /** A line of the clean text: nonblank, stripped, and without a newline. */
  predicate CleanLine(line: string) {
    line != [] && Strip(line) == line && NoNewline(line)
  }

  /** `full_body_text`: the five substitutions in source order (links keep their
      text, images go, bold keeps its text, heading marks go, dividers go), then
      the nonblank lines, stripped, joined with newlines. The result has no
      blank line and every line is stripped. */
  function CleanText(content: string): (r: string)
    ensures r == [] || forall k :: 0 <= k < |SplitLines(r)| ==> CleanLine(SplitLines(r)[k])
  {
    var t1 := Sub(Link, content, 0);
    var t2 := Sub(AnyImage, t1, 0);
    var t3 := Sub(Bold, t2, 0);
    var t4 := Sub(Heading, t3, 0);
    var t5 := Sub(Divider, t4, 0);
    var lines := StrippedNonBlank(SplitLines(t5));
    if lines != [] then SplitJoinLines(lines); JoinLines(lines) else JoinLines(lines)
  }

  /** The link-collecting loops of `_extract_raw_content`: image links first,
      then the text links whose url does not start with `images/`. */
  method CollectLinks(content: string) returns (links: seq<ExtractedLink>)
    ensures links == ExtractedLinks(content)
  {
    var imageEntries := CollectImageLinks(FindAll(ImageLink, content, 0));
    var textEntries := CollectTextLinks(FindAll(TextLink, content, 0));
    links := imageEntries + textEntries;
  }

  /** The first loop of `extract_links_from_markdown`: one image-link entry per match. */
  method CollectImageLinks(imageLinks: seq<Match>) returns (links: seq<ExtractedLink>)
    ensures links == ImageLinkEntries(imageLinks)
  {
    links := [];
    var k := 0;
    while k < |imageLinks|
      invariant 0 <= k <= |imageLinks|
      invariant links == ImageLinkEntries(imageLinks[..k])
    {
      assert imageLinks[..k + 1][..k] == imageLinks[..k];
      links := links + [ExtractedLink(imageLinks[k].group2, imageLinks[k].group1, ImageLinkType, "body")];
      k := k + 1;
    }
    assert imageLinks[..k] == imageLinks;
  }

  /** The second loop: one text-link entry per match not pointing into `images/`. */
  method CollectTextLinks(markdownLinks: seq<Match>) returns (links: seq<ExtractedLink>)
    ensures links == TextLinkEntries(markdownLinks)
  {
    links := [];
    var k := 0;
    while k < |markdownLinks|
      invariant 0 <= k <= |markdownLinks|
      invariant links == TextLinkEntries(markdownLinks[..k])
    {
      assert markdownLinks[..k + 1][..k] == markdownLinks[..k];
      var url := markdownLinks[k].group2;
      if !StartsWith(url, "images/") {
        links := links + [ExtractedLink(url, markdownLinks[k].group1, TextLinkType, "body")];
      }
      k := k + 1;
    }
    assert markdownLinks[..k] == markdownLinks;
  }

  /** The image-reference loop of `_extract_raw_content`. */
  method CollectImageReferences(content: string) returns (imageRefs: seq<ImageReference>)
    ensures imageRefs == ImageReferences(FindAll(ImageRef, content, 0))
    ensures |imageRefs| == |FindAll(ImageRef, content, 0)|
  {
    var images := FindAll(ImageRef, content, 0);
    imageRefs := [];
    var k := 0;
    while k < |images|
      invariant 0 <= k <= |images|
      invariant imageRefs == ImageReferences(images[..k])
    {
      assert images[..k + 1][..k] == images[..k];
      imageRefs := imageRefs + [ImageReference(images[k].group1, images[k].group2, "embedded_image")];
      k := k + 1;
    }
    assert images[..k] == images;
  }

  /** The section-collecting part of `_extract_raw_content`: at most one section
      of each kind, in the order benefits, main message, footer. */
  method CollectSections(content: string) returns (sections: seq<ContentSection>)
    ensures sections == ContentSections(content)
    ensures |sections| <= 3
  {
    sections := [];
    var benefits := BenefitsSection(content);
    if benefits.Some? {
      sections := sections + [benefits.value];
    }
    assert sections == SectionList(benefits);
    var mainMessage := MainMessageSection(content);
    if mainMessage.Some? {
      sections := sections + [mainMessage.value];
    }
    assert sections == SectionList(benefits) + SectionList(mainMessage);
    var footer := FooterSection(content);
    if footer.Some? {
      sections := sections + [footer.value];
    }
  }

  /** The record `_extract_raw_content` builds from `content`: it keeps the
      input, its header fields are single stripped lines, and it holds at most
      three sections. */
  function RawContentOf(content: string): (r: RawData)
    ensures r.originalEmail.rawMarkdown == content
    ensures FieldLine(r.originalEmail.subjectLine) && FieldLine(r.originalEmail.sender) && FieldLine(r.originalEmail.date)
    ensures |r.contentSections| <= 3
  {
    var links := ExtractedLinks(content);
    var imageRefs := ImageReferences(FindAll(ImageRef, content, 0));
    RawData(
      OriginalEmail(SubjectLine(content), Sender(content), Date(content), CleanText(content), content),
      links, imageRefs, ContentSections(content),
      ContentStats(|content|, |Words(CleanText(content))|, |links|, |imageRefs|, "markdown"))
  }

  /** No recorded text link points into `images/`, and every image link comes
      before every text link. */
  lemma ExtractedLinksShape(content: string)
    ensures var links := ExtractedLinks(content);
      && (forall k :: 0 <= k < |links| && links[k].linkType == TextLinkType ==> !StartsWith(links[k].url, "images/"))
      && (forall a, b :: 0 <= a < b < |links| && links[b].linkType == ImageLinkType ==> links[a].linkType == ImageLinkType)
  {
    var imageEntries := ImageLinkEntries(FindAll(ImageLink, content, 0));
    var textEntries := TextLinkEntries(FindAll(TextLink, content, 0));
    var links := imageEntries + textEntries;
    assert forall j :: 0 <= j < |imageEntries| ==> links[j].linkType == ImageLinkType;
    assert forall j :: |imageEntries| <= j < |links| ==> links[j] == textEntries[j - |imageEntries|];
  }

  /** The statistics count what was recorded: the input's characters, the words of
      the clean text, the links and the image references. */
  lemma RawContentStats(content: string)
    ensures var raw := RawContentOf(content);
      raw.contentStats == ContentStats(|content|, |Words(raw.originalEmail.fullBodyText)|,
                                       |raw.extractedLinks|, |raw.imageReferences|, "markdown")
      && |raw.imageReferences| == |FindAll(ImageRef, content, 0)|
  {
    var links := ExtractedLinks(content);
    var imageRefs := ImageReferences(FindAll(ImageRef, content, 0));
    var clean := CleanText(content);
    assert RawContentOf(content).originalEmail.fullBodyText == clean;
    assert RawContentOf(content).contentStats == ContentStats(|content|, |Words(clean)|, |links|, |imageRefs|, "markdown");
  }

  /** `_extract_raw_content`. */
  method ExtractRawContent(content: string) returns (raw: RawData)
    ensures raw == RawContentOf(content)
  {
    var subject := SubjectLine(content);
    var sender := Sender(content);
    var date := Date(content);
    var links := CollectLinks(content);
    var imageRefs := CollectImageReferences(content);
    var sections := CollectSections(content);
    var cleanText := CleanText(content);
    raw := RawData(
      OriginalEmail(subject, sender, date, cleanText, content),
      links, imageRefs, sections,
      ContentStats(|content|, |Words(cleanText)|, |links|, |imageRefs|, "markdown"));
  }
}
