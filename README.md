# Email DNA: a verified model

This project models two parts of the email-analysis toolkit.

* **The email DNA pipeline** (`langgraph_agents.py`). It is a three-stage workflow over one shared state:
  * the content stage extracts raw facts from an email's Markdown text and has the language model classify it;
  * the image stage classifies every image file of a directory and aggregates the answers;
  * the synthesis stage combines both into a final record: scores, email type, insights, recommendations, image descriptions and a replication blueprint.
* **The Markdown writer** `save_email_as_markdown` (`email_to_markdown.py`). It produces the documents the pipeline reads: a sanitised file name, the image paths, and the document text.

The model follows the source's own form.

* The shared state is a class, `Pipeline.EmailDnaWorkflow`. Each agent is a method whose `modifies` clause names the one entry it writes and the status.
* Each loop of the source is a method with loop invariants, proved equal to a specification function:
  * the two link loops and the image-reference loop of the extractor;
  * the per-file analysis loop and the aggregation loop of the image stage;
  * the image-description loop of the synthesis stage;
  * the image-path loop and the image-section loop of the writer.
* Code that builds a list by appending under a chain of `if`s, with no loop, is a method with straight-line appends, proved equal to its specification function: the sections, the content score, the insights and the recommendations.
* Every filtering list comprehension of the source is proved equal to one generic function, `Filters.FilterMap`: the image files, the text links, the stripped nonblank lines and the image descriptions. Its lemmas say that it keeps exactly the passing elements, in order, each mapped. The score list summed by the image stage filters nothing and is the recursive sum `Visual.ScoreSum`.
* The regular expressions are modelled one by one with Python `re` semantics: `findall` and `sub` resume after each match, and `search` backtracks. Python's `strip`, `split()`, `split('\n')`, `'\n'.join` and `round(x, 1)` (ties to even) are modelled the same way.
* The language model and `json.loads` are parameters of the model:
  * a `Reply` is either the reply text or the message of a failed call;
  * a `Parsed<T>` is either the decoded record or the decoding error.
* A dictionary key that may be absent is an `Option` field.
* `\w` is the parameter `isWord`.
* The HTML-to-Markdown converter for nonempty HTML is the parameter `convert`.

Beyond each operation's contract, the project proves that the two files fit together. Write an email with `save_email_as_markdown` and give the document to the extractor. The extractor reads back the email's subject, sender and date, each stripped (`RoundTrip.WrittenEmailReadBack`).

The model follows the code where its behaviour is easy to misread:

* With no images the mean professionalism score is 0, although a missing per-image score counts as 5. The divisor is `max(total, 1)` over an empty sum.
* The content score is capped at 10 but has no lower bound: a negative urgency score lowers it below the base of 5.
* The vision prompt asks for a `brand_dna` entry, but the aggregation reads `brand_analysis`. A well-formed answer therefore counts as score 5. The model keeps the field the aggregation reads.
* The synthesis rules for insights and recommendations look categories up at the top level of the content dictionary. The pipeline passes them the `{raw_data, analysis}` wrapper, so those lookups always miss. The model keeps this: see `Synthesis.InsightsOfWrapper` and `Synthesis.WrapperAlwaysRecommendsCtaAndSocialProof`.

## Model

| member | source | states |
|---|---|---|
| Text.StripShape | langgraph_agents.py:107 | `strip()` removes exactly the maximal whitespace border. The result is the piece after the leading whitespace, is empty exactly when the input is blank, and neither starts nor ends with whitespace. |
| Text.StripIdempotent | langgraph_agents.py:107-115 | Stripping twice gives the same text as stripping once. |
| Text.StripPadded | langgraph_agents.py:141 | Whitespace added at either end does not change the stripped text. |
| Text.StripKeepsLacks | langgraph_agents.py:227 | Stripping adds no character, so a line without a newline stays without one. |
| Text.StripNonEmpty | langgraph_agents.py:227 | A line holding a non-whitespace character is kept by `if line.strip()`. |
| Text.SplitLines | langgraph_agents.py:227 | `split('\n')` gives at least one piece, and no piece holds a newline. |
| Text.SplitJoinLines | langgraph_agents.py:227 | Splitting the newline-join of newline-free pieces gives the pieces back. |
| Text.Words | langgraph_agents.py:242 | `split()` gives nonempty words without whitespace. |
| Text.WordsAreRuns | langgraph_agents.py:242 | The words are the maximal non-whitespace runs of the text, in order: each word sits at a position with whitespace or the text's edge on both sides, and each starts after the previous one ends. |
| Text.WordsConcat | langgraph_agents.py:242 | Together the words hold every non-whitespace character of the text, in order, and nothing else. |
| Text.WordsCount | langgraph_agents.py:242 | The number of words, `total_words`, is the number of word starts: non-whitespace characters at the start or after whitespace. |
| Text.NatToString | email_to_markdown.py:59 | The decimal rendering of the image index is a nonempty string of digits. Its value is the index, and it has no leading zero. |
| Patterns.Delimited | langgraph_agents.py:155 | A `[^x]+` group between delimiters stops at the first closing delimiter and holds none. |
| Patterns.DelimitedFails | langgraph_agents.py:155 | The delimited group fails exactly when the text ends, the opening delimiter is missing, no closing delimiter follows, or a required nonempty group is empty. |
| Patterns.MatchAt | langgraph_agents.py:155-226 | A match of any of the nine patterns at a position ends after that position and inside the text. |
| Patterns.FindAll | langgraph_agents.py:155-156 | Every `findall` match ends after its start and inside the text. |
| Patterns.FindAllAt | langgraph_agents.py:155-156 | The k-th `findall` result is the pattern's match at the k-th recorded start, which lies in the searched text. |
| Patterns.FindAllLeftmost | langgraph_agents.py:155-156 | The first match is the leftmost: the pattern matches nowhere before its start, nor anywhere when there is no match. |
| Patterns.FindAllNoOverlap | langgraph_agents.py:155-156 | The matches do not overlap: each ends at or before the start of the next. |
| Patterns.FindAllResumes | langgraph_agents.py:155-156 | No match is skipped: between the end of one match and the start of the next, and after the last, the pattern matches nowhere. |
| Patterns.Sub | langgraph_agents.py:222-226 | `re.sub` with these patterns never lengthens the text. |
| Patterns.SubSkips | langgraph_agents.py:222-226 | `re.sub` copies the text before the leftmost match unchanged. With no match it returns the text as it is. |
| Patterns.BacktrackLine | langgraph_agents.py:140 | The backtracking `(.+)` fails exactly when only newlines follow; otherwise it gives a nonempty, newline-free group. |
| Patterns.SpaceThenLine | langgraph_agents.py:144-145 | `\s*(.+)` at a position fails exactly when nothing but newlines follows it. |
| Patterns.SearchHeading | langgraph_agents.py:140-141 | The group of the MULTILINE search for `^#\s*(.+)` is one nonempty line. |
| Patterns.SearchHeadingFails | langgraph_agents.py:140-141 | The heading search fails exactly when no line start has a `#` followed by text. |
| Patterns.SearchHeadingSkips | langgraph_agents.py:140 | The search passes over positions that hold no heading. |
| Patterns.SearchHeadingFirst | langgraph_agents.py:140-141 | The group is the line of the first heading: the search from any position before it gives that heading's `\s*(.+)` group. |
| Patterns.SearchLabel | langgraph_agents.py:144-149 | The search for a marker followed by `\s*(.+)` fails exactly when no occurrence of the marker is followed by text. Its group is one nonempty line. |
| Patterns.FindAny | langgraph_agents.py:190 | The first position at which a terminator occurs, and no terminator before it. |
| Patterns.SearchSection | langgraph_agents.py:190-213 | A lazy `(.+?)` section group is never empty. |
| Patterns.SectionText | langgraph_agents.py:190-213 | The group of a section hit runs from the end of the anchor to the nearest terminator that leaves at least one character, and is never empty. |
| Patterns.SearchSectionFails | langgraph_agents.py:190-213 | The section search fails exactly when no position is an anchor followed, after at least one character, by a terminator. |
| Patterns.SectionNeedsAnchor | langgraph_agents.py:190-213 | A text without the anchor has no such section. |
| Patterns.SearchSectionSkips | langgraph_agents.py:190 | The search passes over positions that are no section hit. |
| Patterns.SearchSectionFirst | langgraph_agents.py:190-213 | The group is that of the first hit: the search from any position before it gives the first hit's section text. |
| Extractor.GroupOr | langgraph_agents.py:141-149 | A found group is stripped; a missing one gives the fallback. Either way the field is one stripped line. |
| Extractor.SubjectLine | langgraph_agents.py:140-141 | The subject is one stripped line without a newline. |
| Extractor.Sender | langgraph_agents.py:144-145 | The sender is one stripped line without a newline. |
| Extractor.Date | langgraph_agents.py:148-149 | The date is one stripped line without a newline. |
| Extractor.NoHeadingGivesFallbackSubject | langgraph_agents.py:140-141 | With no line starting with `#`, the subject is "No subject found". |
| Extractor.NoFromGivesFallbackSender | langgraph_agents.py:144-145 | Without `**From:**`, the sender is "Unknown sender". |
| Extractor.NoDateGivesFallbackDate | langgraph_agents.py:148-149 | Without `**Date:**`, the date is "Unknown date". |
| Extractor.SubjectFoundWhenHeadingHasText | langgraph_agents.py:140-141 | A `#` at a line start with any text after it makes the subject search succeed. |
| Extractor.ImageLinkEntries | langgraph_agents.py:155-162 | One image-link entry per match, in order, with url, anchor text, type and position. |
| Extractor.TextLinkEntries | langgraph_agents.py:165-174 | There is at most one entry per match, and every match whose url does not start with `images/` has its entry. |
| Extractor.TextLinkEntriesFilter | langgraph_agents.py:165-174 | The text-link entries are the comprehension over the matches that keeps exactly those whose url does not start with `images/`, in order, each as a text-link entry. |
| Extractor.ExtractedLinks | langgraph_agents.py:151-174 | The links are the image-link entries, one per image-link match, followed by the filtered text-link entries. |
| Extractor.ImageReferences | langgraph_agents.py:177-184 | One image reference per `![alt](path)` match, in order. |
| Extractor.Groups | langgraph_agents.py:194 | `findall` with one group gives each match's group, in order. |
| Extractor.SectionList | langgraph_agents.py:191-199 | A section is listed exactly when its search succeeded. |
| Extractor.ContentSections | langgraph_agents.py:186-219 | At most three sections. |
| Extractor.ContentSectionsOrder | langgraph_agents.py:186-219 | The sections come in the order benefits, main message, footer. Each listed section is its search's result, and each section that was found is listed. |
| Extractor.SectionsPresence | langgraph_agents.py:189-219 | Each section is missing exactly when its anchor is nowhere followed by a terminator. Its content is stripped. The benefits and social lists are the link texts found in that content. |
| Extractor.StrippedNonBlank | langgraph_agents.py:227 | Every kept line is nonempty, stripped and newline-free. |
| Extractor.StrippedNonBlankFilter | langgraph_agents.py:227 | The kept lines are exactly the stripped nonblank lines, in order, as in the comprehension. |
| Extractor.CleanText | langgraph_agents.py:221-227 | The clean text has no blank line, and each of its lines is stripped. |
| Extractor.CollectLinks | langgraph_agents.py:151-174 | The two link loops build the links specified by `ExtractedLinks`. |
| Extractor.CollectImageLinks | langgraph_agents.py:155-162 | The image-link loop builds one entry per match, in order. |
| Extractor.CollectTextLinks | langgraph_agents.py:165-174 | The text-link loop builds the filtered text-link entries, in order. |
| Extractor.CollectImageReferences | langgraph_agents.py:176-184 | The image-reference loop builds one reference per match. |
| Extractor.CollectSections | langgraph_agents.py:186-219 | The sections in the order benefits, main message, footer, each present exactly when found. |
| Extractor.ExtractedLinksShape | langgraph_agents.py:151-174 | No recorded text link points into `images/`, and every image link comes before every text link. |
| Extractor.RawContentStats | langgraph_agents.py:240-246 | The statistics count the input's characters, the words of the clean text, the recorded links and the image references. |
| Extractor.RawContentOf | langgraph_agents.py:135-247 | The raw-data record keeps the input as its raw Markdown. Its subject, sender and date are each one stripped line, and it has at most three sections. |
| Extractor.ExtractRawContent | langgraph_agents.py:135-247 | `_extract_raw_content` builds the raw-data record specified by `RawContentOf`. |
| Records.FailedImage | langgraph_agents.py:348-356 | The failure placeholder carries the file name and error, has no raw visual description, scores 5, and has type "unknown" with no colours. |
| Records.StripFences | langgraph_agents.py:107-115 | The fence-stripped reply is stripped and no longer than the reply. |
| Records.FencedReplyIsUnwrapped | langgraph_agents.py:107-115 | A reply fenced as "```json" J "```" is cleaned to strip(J), whenever J does not itself begin with a fence. |
| Records.FenceTailIsDropped | langgraph_agents.py:110-113 | After the "```json" is dropped, the next two fence tests turn J "```" back into J. |
| Records.ShortBackticks | langgraph_agents.py:110-111 | A J of fewer than three backticks is recovered when a fence is cut from the front of J "```". |
| Records.UnfencedReplyIsStripped | langgraph_agents.py:315-325 | A reply fenced at neither end is only stripped. |
| Records.BraceSpan | langgraph_agents.py:333-334 | The `\{.*\}` substring exists exactly when some `{` precedes some `}`. It starts with `{` and ends with `}`. |
| Records.LastIndexOf | langgraph_agents.py:333 | The greedy `.*` ends at the last `}`, and no `}` follows it. |
| Records.BraceSpanBounds | langgraph_agents.py:333-335 | The brace substring runs from the first `{` to the last `}` of the text. |
| Records.ContentClassification | langgraph_agents.py:105-125 | The parsed, fence-stripped reply; the default record when the call fails or the reply does not parse. |
| Records.AnalyzeImage | langgraph_agents.py:314-356 | A failed call gives the placeholder with its message. A parsable reply gives its record. An unparsable reply with a brace substring gives that substring's record, or the placeholder with its decoding error. An unparsable reply with no braces gives the placeholder with the "No valid JSON" message. |
| Visual.Lower | langgraph_agents.py:368 | Lower-casing keeps the length and lower-cases each character. |
| Visual.ImageFiles | langgraph_agents.py:366-368 | The result holds an entry exactly when it is in the listing and has an image extension, and is no longer than the listing. |
| Visual.ImageFilesFilter | langgraph_agents.py:366-368 | The image files are the comprehension over the listing that keeps the image names: each passing entry once, in listing order, so `total_images` is the number of image entries. |
| Visual.FilesToAnalyse | langgraph_agents.py:366-378 | A missing directory gives no files. An existing one gives its image files. |
| Visual.AnalyseAll | langgraph_agents.py:372-376 | The loop gives one analysis per file, in order. |
| Visual.ScoreOf | langgraph_agents.py:382 | An image's score is its professionalism score, or 5 when the brand analysis or the score is missing. |
| Visual.Average | langgraph_agents.py:382-383 | The mean is 0 without images. Otherwise it times the count is the score sum. |
| Visual.FirstSeen | langgraph_agents.py:386-392 | The image types: no duplicates, exactly the types that occur, no longer than the input. |
| Visual.FirstSeenOrder | langgraph_agents.py:391-392 | The image types keep the order of their first occurrences. |
| Visual.CommonColors | langgraph_agents.py:399 | At most ten distinct colours, each one some image's colour. All colours are present when fewer than ten are kept. |
| Visual.Round1 | langgraph_agents.py:400 | `round(x, 1)` is a whole number of tenths, within half a tenth of `x`. On a tie it is the even number of tenths. |
| Visual.Round1Nearest | langgraph_agents.py:400 | No whole number of tenths is nearer to `x` than `round(x, 1)`. |
| Visual.ImageAnalysisOf | langgraph_agents.py:380-407 | The summary keeps the analyses and their count. Its types are distinct and are exactly the types that occur. Its colours are at most ten distinct image colours. Its mean score is a whole number of tenths. |
| Visual.Aggregate | langgraph_agents.py:380-407 | The aggregation loop builds the summary and assessment specified by `ImageAnalysisOf`. |
| Visual.NoImagesAssessment | langgraph_agents.py:381-405 | With no images, the mean is 0 and the assessment is low, weak and medium. |
| Visual.ScoreSumBounds | langgraph_agents.py:382-383 | The score sum lies between the count times any lower bound and the count times any upper bound. |
| Visual.AverageBounds | langgraph_agents.py:382-383 | The mean lies between any bounds of the individual scores. |
| Visual.AllFailedAssessment | langgraph_agents.py:382-405 | Images that all failed average 5: the assessment is medium, weak and medium. |
| Visual.AssessmentCoherent | langgraph_agents.py:403-405 | A strong brand implies high consistency, and a low one implies weak. High impact holds exactly when there are images and consistency is high. |
| Synthesis.UrgencyTerm | langgraph_agents.py:480 | The urgency term is at most 2, equals 2 from urgency 10 on, is u/5 below 10, and is non-negative for non-negative urgency. |
| Synthesis.ContentScore | langgraph_agents.py:463-492 | The content score never exceeds 10. |
| Synthesis.CalculateContentScore | langgraph_agents.py:463-492 | The term-by-term accumulation gives the content score, at most 10. |
| Synthesis.Round1Monotone | langgraph_agents.py:492 | Rounding to a tenth is monotone. |
| Synthesis.ContentScoreAtLeastBase | langgraph_agents.py:463-492 | With a non-negative or absent urgency, the score is at least the base 5. |
| Synthesis.ContentScoreMonotoneInUrgency | langgraph_agents.py:478-480 | More urgency never lowers the score, and beyond 10 it no longer raises it. |
| Synthesis.EmailType | langgraph_agents.py:494-507 | Promotional exactly when the discount type is not "none". Welcome exactly when it is "none" and the primary action is "signup". Product launch exactly when it is "none", the action is not "signup" and the product is mentioned. Newsletter exactly when neither holds and the product is not mentioned. |
| Synthesis.MissingDiscountIsPromotional | langgraph_agents.py:487-501 | A missing discount type counts as an offer: the email is promotional, and the score earns the half point. |
| Synthesis.OrElse | langgraph_agents.py:534-536 | `xs or fallback`. |
| Synthesis.Keep | langgraph_agents.py:516-531 | A rule's message is listed exactly when its condition holds. |
| Synthesis.GenerateInsights | langgraph_agents.py:509-537 | The three lists built by appending are the specified insights, and none is empty. |
| Synthesis.StrengthsOfBareAnalysis | langgraph_agents.py:515-534 | Each strength is listed exactly when its condition holds, and the fallback exactly when none holds. |
| Synthesis.OpportunitiesOfBareAnalysis | langgraph_agents.py:523-536 | Each opportunity and advantage is listed exactly when its condition holds. |
| Synthesis.InsightsOfWrapper | langgraph_agents.py:509-537 | On the wrapper the pipeline passes, only the visual strength rule can fire. |
| Synthesis.GenerateRecommendations | langgraph_agents.py:539-555 | The list built by appending is the specified recommendation list, never empty. |
| Synthesis.RecommendationsExact | langgraph_agents.py:539-555 | Each recommendation is listed exactly when its condition holds, and the fallback pair exactly when none holds. |
| Synthesis.WrapperAlwaysRecommendsCtaAndSocialProof | langgraph_agents.py:546-550 | On the wrapper, the CTA and social-proof recommendations are always given. |
| Synthesis.Describe | langgraph_agents.py:562-569 | The description takes the file name, or "unknown". Without a raw visual description every field takes its default. |
| Synthesis.DescriptionsOf | langgraph_agents.py:557-570 | Every image with a raw visual description has its description listed, and there is at most one description per image. |
| Synthesis.DescriptionsOfFilter | langgraph_agents.py:557-570 | The descriptions are exactly those of the images carrying a raw visual description, in order, as the comprehension gives them. |
| Synthesis.ExtractImageDescriptions | langgraph_agents.py:557-570 | The loop builds the description list, in order. |
| Synthesis.FailedImagesHaveNoDescriptions | langgraph_agents.py:560-561 | Failure placeholders contribute no description. |
| Synthesis.Take | langgraph_agents.py:586 | `xs[:n]` is a prefix of length n, or all of `xs` when it is shorter. |
| Synthesis.ReplicationBlueprint | langgraph_agents.py:572-590 | The palette is the first three common colours, or all of them when there are fewer. The design is "modern" and the image types are the summary's. A missing subject, structure or CTA entry gives its defaults. |
| Synthesis.BlueprintPalette | langgraph_agents.py:586 | The palette is at most three distinct colours, each some image's colour. |
| Synthesis.EmptyAnalysisBlueprint | langgraph_agents.py:572-584 | With nothing to read, every blueprint entry takes its default. |
| Synthesis.OverallScore | langgraph_agents.py:423 | The overall score is a whole number of tenths within 0.05 of the mean of the two scores, so with `Visual.Round1Nearest` it is `round((content + visual) / 2, 1)`; it lies between the two scores up to rounding. |
| Synthesis.DnaOf | langgraph_agents.py:413-457 | The final record's content score is at most 10, and its overall score is `OverallScore` of its content and visual scores. Its type is one of the four. Raw data is present exactly on the wrapper. Its insight and recommendation lists are never empty. |
| Synthesis.Synthesize | langgraph_agents.py:413-457 | The synthesizer's computation gives the final record specified by `DnaOf`. |
| Synthesis.DefaultAnalysisScenario | langgraph_agents.py:118-125 | The fallback analysis scores 6.1 and is a welcome/onboarding email. |
| Pipeline.AnalysesFor | langgraph_agents.py:362-376 | One analysis per file to analyse: entry k is the analysis of file k with that file's reply. |
| Pipeline.CombineContent | langgraph_agents.py:127-131 | The content entry is the wrapper of the raw data and the classification. |
| Pipeline.EmailDnaWorkflow.constructor | langgraph_agents.py:617-624 | The initial state: the two paths, empty entries, status "starting". |
| Pipeline.EmailDnaWorkflow.ContentAgent | langgraph_agents.py:35-133 | Writes only the content entry and the status. The entry is the wrapper of the extracted raw data and the classification. The status becomes content_analyzed. |
| Pipeline.EmailDnaWorkflow.StoreContent | langgraph_agents.py:128-132 | The content stage's write. |
| Pipeline.EmailDnaWorkflow.ImageAgent | langgraph_agents.py:358-411 | Writes only the image entry and the status. The entry is the aggregation of the per-file analyses. The status becomes images_analyzed. |
| Pipeline.EmailDnaWorkflow.StoreImages | langgraph_agents.py:409-410 | The image stage's write. |
| Pipeline.EmailDnaWorkflow.DnaSynthesizer | langgraph_agents.py:413-461 | Writes only the final entry and the status. The entry is the record built from the two earlier entries. The status becomes complete. |
| Pipeline.EmailDnaWorkflow.StoreDna | langgraph_agents.py:459-460 | The synthesis stage's write. |
| Pipeline.EmailDnaWorkflow.Run | langgraph_agents.py:604-607 | The stages run in order from "starting" to "complete". The final record always recommends secondary CTAs and social proof. |
| Pipeline.PipelineRecommendations | langgraph_agents.py:546-550 | A record built from the wrapper holds both recommendations. |
| Pipeline.MissingDirectoryGivesEmptyImageAnalysis | langgraph_agents.py:366-407 | With no image directory: no images, score 0, no types, no colours, and the low, weak, medium assessment. |
| Markdown.KeepFilenameChars | email_to_markdown.py:46 | Only word characters, whitespace and `-` remain. |
| Markdown.KeepFilenameCharsAppend | email_to_markdown.py:46 | Removal works character by character: the kept text of a concatenation is the kept texts of its parts, in order. |
| Markdown.KeepFilenameCharsOne | email_to_markdown.py:46 | A single character is kept exactly when it is a word character, whitespace or `-`. |
| Markdown.CollapseDashes | email_to_markdown.py:47 | No whitespace and no `--` remain. A leading run becomes one `-`. Collapsing empties only the empty string. |
| Markdown.CollapseJoin | email_to_markdown.py:47 | Runs never cross a character other than `-` and whitespace: collapsing a text ending in one, followed by another text, collapses each part. |
| Markdown.CollapseRun | email_to_markdown.py:47 | A nonempty run of `-` and whitespace, followed by another character or the end, becomes exactly one `-`. |
| Markdown.SafeFilename | email_to_markdown.py:45-47 | The stem has no whitespace and no `--`, and holds only word characters and `-`. |
| Markdown.CollapseKeepsWords | email_to_markdown.py:47 | Collapsing keeps every character other than `-` and whitespace. |
| Markdown.WordSubjectIsKept | email_to_markdown.py:45-47 | A subject made only of word characters is its own file name. |
| Markdown.KeepsWords | email_to_markdown.py:46 | Word characters are all kept. |
| Markdown.CollapseKeepsPlain | email_to_markdown.py:47 | Text without `-` or whitespace is unchanged by collapsing. |
| Markdown.SafeFilenameIdempotent | email_to_markdown.py:45-47 | Sanitising a file name again changes nothing. |
| Markdown.KeepsDashedWords | email_to_markdown.py:46 | Word characters and `-` are all kept. |
| Markdown.CollapseKeepsSingleDashes | email_to_markdown.py:47 | Text without whitespace or `--` is unchanged by collapsing. |
| Markdown.Join | email_to_markdown.py:49 | The path ends with the file name, with a `/` after a directory that does not end in one. |
| Markdown.ImageFileName | email_to_markdown.py:59 | The attachment's own nonempty name. Otherwise `image_` followed by digits whose value is `i`, then `.jpg`. |
| Markdown.FallbackNamesDistinct | email_to_markdown.py:59 | Attachments without a usable name at different indices get different file names. |
| Markdown.Header | email_to_markdown.py:68-75 | The header begins with `# ` and the subject and ends with the rule `---` and a blank line. |
| Markdown.HtmlToMarkdown | email_to_markdown.py:8-11 | Empty HTML converts to the empty string. |
| Markdown.Body | email_to_markdown.py:77-81 | The text body if nonempty, else the converted HTML body if nonempty, else nothing. |
| Markdown.ImageSection | email_to_markdown.py:84-87 | The image section is present exactly when there are image paths. |
| Markdown.Document | email_to_markdown.py:67-87 | Without images the document is the header and the body. With images it ends with the line of the last image. `RoundTrip.WrittenEmailReadBack` reads its header back. |
| Markdown.SaveEmailAsMarkdown | email_to_markdown.py:39-93 | The file path from the sanitised subject, one `images/` path per attachment in order, and the document text. |
| Markdown.ImagePaths | email_to_markdown.py:52-65 | The image loop gives one relative path per attachment, in order. |
| Markdown.RenderImageSection | email_to_markdown.py:83-87 | The appending loop builds the image section. |
| RoundTrip.LineGroup | langgraph_agents.py:140 | `\s*(.+)` on a nonblank line reads that line, up to whitespace. |
| RoundTrip.SearchLabelSkips | langgraph_agents.py:144 | A search that cannot hit before a position gives what the search from there gives. |
| RoundTrip.SubjectPart | email_to_markdown.py:68 | Where the subject line sits in the written header. |
| RoundTrip.SenderPart | email_to_markdown.py:70 | Where the sender line sits in the written header. |
| RoundTrip.DatePart | email_to_markdown.py:71 | Where the date line sits in the written header. |
| RoundTrip.HeaderStars | email_to_markdown.py:68-71 | With no `*` in subject and sender, the only `*` before the date marker belong to the sender marker. |
| RoundTrip.MarkersApart | langgraph_agents.py:148 | `**Date:**` does not start inside `**From:** `. |
| RoundTrip.SubjectReadBack | langgraph_agents.py:140-141 | The subject read from a written document is the stripped subject. |
| RoundTrip.SenderReadBack | langgraph_agents.py:144-145 | The sender read from a written document is the stripped sender. |
| RoundTrip.DateReadBack | langgraph_agents.py:148-149 | The date read from a written document is the stripped date. |
| RoundTrip.WrittenEmailReadBack | email_to_markdown.py:68-75 | The extractor reads the written email's subject, sender and date back, each stripped. |

## Left out

- File and directory I/O, and the network are left out:
  - reading the email file, listing and opening images, base64 encoding;
  - creating directories, writing the Markdown file and the attachments;
  - writing the result JSON, the `print` calls.
- The text read from the email file is a parameter of the content stage. The directory listing is a parameter of the image stage, `None` when the directory does not exist.
- The model calls are parameters: a `Reply`, per file for images. So is `json.loads`, a `Parsed<T>`. The prompt texts are not modelled, since they only go to the model.
- `datetime.now().isoformat()` is the parameter `timestamp`.
- A parsed JSON value of a wrong type or `null` is out of scope. Every field present in a parsed answer has the type the pipeline expects.
- Synthesis.EmailType: the `"product" in str(content).lower()` test on the printed dictionary is the parameter `mentionsProduct`, because the model has no printed form of a Python dictionary.
- Visual.CommonColors: `list(set(...))` iterates in an unspecified order. The model takes first-seen order. Its contract states only what holds for every order: at most ten, distinct, drawn from the colours, and all of them when fewer than ten.
- Patterns.MatchAt: its contract states only where a match ends. What each pattern accepts is stated for its parts: `Patterns.Delimited`, `Patterns.DelimitedFails` and `Patterns.LinkAt`.
- Patterns.Sub: its contracts state the length bound and that text before the first match is copied (`Patterns.SubSkips`). No lemma restates the rewriting of each match, which the function spells out.
- Extractor.RawContentOf: its contract states the raw Markdown, the shape of the three header fields and the section bound. The other fields are given by the functions it calls, whose own lemmas state them.
- Synthesis.DnaOf: its contract states the bounds and shapes listed in its row, and the overall score as `OverallScore` of the two scores. The remaining fields are the results of the functions it calls, whose contracts state them.
- Vision-answer keys outside the records: a vision answer is carried only through the keys the pipeline reads or the failure placeholder writes. The other keys the vision prompt asks for (`brand_dna`, `marketing_psychology`, `technical_analysis`, `competitive_insights`, and `colors_observed` and `mood_atmosphere` inside `raw_visual_description`) pass unchanged into `visual_dna` in the source but are not part of the model's records.
- Visual.Round1: rounds the exact real value, ties to even. Python rounds the binary double nearest the value, which can differ on ties such as 0.15. Scores are reals rather than doubles.
- Visual.Lower: lower-cases ASCII letters only. This is all the extension test needs, since every extension is ASCII; `str.lower()` on other letters is not modelled.
- Markdown.KeepFilenameChars: `\w` is the parameter `isWord`, since Unicode word-character tables are not modelled. Markdown.Join treats the file name as relative, which holds when `isWord` rejects `/`, as `\w` does.
- Markdown.HtmlToMarkdown: the BeautifulSoup rewriting of nonempty HTML is the parameter `convert`. Only the empty-input case is modelled.
- Markdown.SaveEmailAsMarkdown: returns the path and the text it would write instead of writing them. Image data is not carried.
- Pipeline.EmailDnaWorkflow.Run: its contract states the final status, the presence of the final record and the two recommendations that are always given. It does not restate each entry as a function of all inputs; the three stage methods state that entry by entry.
- RoundTrip.WrittenEmailReadBack: holds for a subject, sender and date that are each one line and not blank, and for a subject and sender without `*`. Other inputs can move the markers the extractor searches for.
- The LangGraph `StateGraph` machinery is left out, and the fixed order of the three stages is modelled as `Run`. Also not part of this model: `email_parser.py`, `gmail_fetch.py`, `main.py`, `run_langgraph.py` and the tests.
- Concurrency and exceptions other than the modelled failure paths are left out.
