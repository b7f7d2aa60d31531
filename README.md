# VAST ad documents: parser, wrapper-chain resolver and stitcher

This project models the core of a Rust library for VAST video-ad documents.
A VAST document either holds a playable ad (an `InLine`) or points to another
document through a `Wrapper` and its `VASTAdTagURI`. The model covers five pieces:

- **The streaming parser** of `src/parser.rs`. It reads the root `VAST` element, its `Ad`s, their InLine or Wrapper content, creatives, linear media and tracking. Unknown elements are skipped.
- **The resolver** of `src/unwrap.rs`. It follows wrapper URIs depth first, up to ten levels, visits each URI at most once, and keeps only InLine ads.
- **The tracking collectors** of `src/stitcher.rs`. They follow wrapper URIs too, each URI at most once, and gather every wrapper's impressions, error URLs, tracking events and click URLs. They have no depth limit, so on a chain deeper than ten links they gather tracking from wrappers the resolver never reaches (`Tracking.DeepChainTrackedNotResolved`). One collector is depth first (the blocking entry point); the other uses a queue and is breadth first (the async entry point).
- **The merge.** It appends the gathered tracking to every InLine ad of the resolved document.
- **The XML writer.** It writes the merged document back out.

The files:

- `errors.dfy`: the error type and a `Result` with `:-` support.
- `models.dfy`: the document records of `src/models.rs` as datatypes.
- `numbers.dfy`: u32 attribute parsing, decimal and boolean rendering, and the case-insensitive `"true"` test.
- `xml_events.dfy`: the event stream the XML reader produces, and the attribute loop with the attribute iterator's duplicate check. Text is given already lexed into events; reading past the end yields `Eof` again.
- `parser_spec.dfy`: one recursive function per reader loop. It states what each loop produces from a cursor position.
- `parser.dfy`: the parser itself. It has one method per source function, each with a `while` loop proved equal to its function.
- `parser_props.dfy`: properties of the parser. They cover attribute precedence, text reading, subtree skipping, truncated and unclosed input, and small documents.
- `parser_runs.dfy`, `document_runs.dfy`: element trees as runs of known children, the events they are written as, and the value each run folds to. Lemmas there state which children are singular (the last one wins) and which are appended in document order.
- `parser_run_loops.dfy`, `document_run_loops.dfy`: for each element loop, that a run of children closed by the element's end tag is read to exactly the value of the run, up to whole documents.
- `unwrap.dfy`: the resolver, as a recursive method with its loop, and its specification.
- `tracking.dfy`: `extract_wrapper_tracking` and both collectors.
- `merge.dfy`: `stitch_vast_from_unwrapped`, `stitch_vast` and `stitch_vast_async`.
- `render.dfy`: the XML writer, as functions.

Fetching a URI is a map from URI to the events of the fetched document. A URI that is absent from the map is a failed fetch.

Some behaviour of the code worth knowing:

- The resolver is the recursive depth-first walk of `unwrap_vast_with_depth` (`src/unwrap.rs:27-108`).
  - A nested document that fails to parse is replaced by an empty document carrying an error, so it contributes no ads. The same holds at the root.
  - Reaching depth 10 returns an empty document whose error says so; a chain that long resolves to no ad (`Unwrap.DeepChainResolvesEmpty`).
- `skip_element` ends at the close tag of a nested element with the same name, leaving the outer close tag unread (`ParserProps.SkipStopsAtInnerClose`).
- A document without a `VAST` element parses successfully, with an empty version and no ads (`ParserProps.NoVastElement`).
- The attribute iterator reports a repeated key in one tag as an error, which the parser's `if let Ok(attr)` passes over. So the first occurrence of a key wins: `<VAST version="3.0" version="">` is a 3.0 document (`ParserProps.RepeatedVersionIgnored`).

## Model

| member | source | states |
|---|---|---|
| Numbers.ParseShowU32 | src/parser.rs:95-101 | every u32 written in decimal is read back by the numeric-attribute parser as the same value |
| Numbers.ParseU32Overflow | src/parser.rs:95-101 | a number of 2^32 or more is not a u32, so the attribute is left unset |
| Numbers.ParseU32Signs | src/parser.rs:95-101 | a leading `+` is accepted; a lone sign, a minus sign and the empty string are rejected |
| Numbers.ShowNatDecimal | src/stitcher.rs:271-273 | the decimal text of a number has that number as its value |
| Numbers.ReadShowBool | src/parser.rs:102-106 | a boolean written as `true`/`false` is read back as the same boolean |
| Numbers.IsTrueTextIgnoresCase | src/parser.rs:102-106 | the flag test lower-cases first: `TRUE` and `True` are true, while `yes` and `1` are false |
| ParserSpec.VastSpec | src/parser.rs:8-51 | a parsed document never has a top-level error, and a document with an empty version has no ads |
| ParserSpec.AdsSpec | src/parser.rs:54-74 | the ads read so far stay a prefix of the result, and the cursor stays within the input |
| ParserSpec.AdSpec | src/parser.rs:113-141 | the Ad loop keeps the attributes read from the start tag, and succeeds only by consuming `</Ad>`; the value it gives for a run of InLine and Wrapper children is stated by DocumentRunLoops.AdParse |
| ParserSpec.AdChildSpec | src/parser.rs:116-129 | an InLine, Wrapper or skipped child never changes the ad's attributes |
| ParserSpec.InlineSpec | src/parser.rs:164-215 | the impressions already read stay a prefix, and the loop succeeds only by consuming `</InLine>`; the value for a run of children is stated by DocumentRunLoops.InlineParse |
| ParserSpec.InlineChildSpec | src/parser.rs:166-203 | handling one InLine child only appends impressions and advances the cursor |
| ParserSpec.WrapperSpec | src/parser.rs:234-273 | the impressions already read stay a prefix, and the loop succeeds only by consuming `</Wrapper>`; the value for a run of children is stated by DocumentRunLoops.WrapperParse |
| ParserSpec.WrapperChildSpec | src/parser.rs:236-261 | handling one Wrapper child only appends impressions and advances the cursor |
| ParserSpec.ReadTextSpec | src/parser.rs:277-302 | a text read succeeds only by consuming a close tag, and stays within the input |
| ParserSpec.SkipSpec | src/parser.rs:305-342 | a skip succeeds only by consuming a close tag of the skipped name, and stays within the input |
| ParserSpec.AdSystemSpec | src/parser.rs:345-366 | an AdSystem read advances the cursor within the input |
| ParserSpec.ImpressionSpec | src/parser.rs:369-390 | an Impression read advances the cursor within the input |
| ParserSpec.PricingSpec | src/parser.rs:393-423 | a Pricing read advances the cursor within the input |
| ParserSpec.ExtensionSpec | src/parser.rs:450-472 | an Extension read advances the cursor within the input |
| ParserSpec.ExtensionsSpec | src/parser.rs:426-447 | the extensions read so far stay a prefix, and the loop succeeds only by consuming `</Extensions>`; the exact list is stated by ParserRunLoops.ExtensionsParse |
| ParserSpec.CreativesSpec | src/parser.rs:475-496 | the creatives read so far stay a prefix, and the loop succeeds only by consuming `</Creatives>`; the exact list is stated by ParserRunLoops.CreativesParse |
| ParserSpec.CreativeSpec | src/parser.rs:544-573 | the Creative loop succeeds only by consuming `</Creative>`; the value for a run of children is stated by ParserRunLoops.CreativeParse |
| ParserSpec.CreativeChildSpec | src/parser.rs:546-561 | handling one Creative child advances the cursor within the input; its effect is stated by ParserRunLoops.CreativeStep |
| ParserSpec.LinearSpec | src/parser.rs:587-619 | the Linear loop succeeds only by consuming `</Linear>`; the value for a run of children is stated by ParserRunLoops.LinearParse |
| ParserSpec.LinearChildSpec | src/parser.rs:589-607 | handling one Linear child advances the cursor within the input; its effect is stated by ParserRunLoops.LinearStep |
| ParserSpec.MediaFilesSpec | src/parser.rs:623-644 | the media files read so far stay a prefix, and the loop succeeds only by consuming `</MediaFiles>`; the exact list is stated by ParserRunLoops.MediaFilesParse |
| ParserSpec.MediaFileSpec | src/parser.rs:647-713 | a MediaFile read advances the cursor within the input |
| ParserSpec.VideoClicksSpec | src/parser.rs:725-754 | the ClickTracking and CustomClick URLs read so far stay prefixes, and the loop succeeds only by consuming `</VideoClicks>`; the exact value is stated by ParserRunLoops.ClicksParse |
| ParserSpec.VideoClicksChildSpec | src/parser.rs:727-742 | one VideoClicks child only appends to the two click lists |
| ParserSpec.TrackingEventsSpec | src/parser.rs:758-779 | the tracking events read so far stay a prefix, and the loop succeeds only by consuming `</TrackingEvents>`; the exact list is stated by ParserRunLoops.TrackingEventsParse |
| ParserSpec.TrackingEventSpec | src/parser.rs:782-803 | a Tracking read advances the cursor within the input |
| ParserSpec.CompanionAdsSpec | src/parser.rs:806-816 | CompanionAds is skipped and always yields an empty list of companions |
| ParserSpec.NonLinearAdsSpec | src/parser.rs:819-829 | NonLinearAds is skipped and always yields an empty list |
| Parser.ApplyAttrs | src/parser.rs:87-110 | the attribute loop, with the iterator's duplicate check, folds into the record each attribute whose key has not occurred before, in order |
| Parser.ParseVast | src/parser.rs:8-51 | the document loop returns exactly the document, or the error, that its specification gives |
| Parser.ParseAds | src/parser.rs:54-74 | the Ads loop computes its specification |
| Parser.ParseAdElement | src/parser.rs:77-142 | the attribute loop, then the child loop, compute the Ad specification from the fold of the start tag's attributes (so, through DocumentRunLoops.AdParse, a run of children gives its AdValue) |
| Parser.ParseAdChild | src/parser.rs:116-129 | one Ad child is handled as specified |
| Parser.ParseInlineElement | src/parser.rs:145-216 | the InLine loop computes its specification from the empty InLine (so, through DocumentRunLoops.InlineParse, a run of children gives its InlineValue) |
| Parser.ParseInlineChild | src/parser.rs:166-203 | one InLine child is handled as specified |
| Parser.ParseWrapperElement | src/parser.rs:219-274 | the Wrapper loop computes its specification from the empty Wrapper (so, through DocumentRunLoops.WrapperParse, a run of children gives its WrapperValue) |
| Parser.ParseWrapperChild | src/parser.rs:236-261 | one Wrapper child is handled as specified |
| Parser.ReadTextElement | src/parser.rs:277-302 | the text loop computes its specification |
| Parser.SkipElement | src/parser.rs:305-342 | the depth-counting skip loop computes its specification |
| Parser.ParseAdSystem | src/parser.rs:345-366 | AdSystem: the version attribute, then the text |
| Parser.ParseImpression | src/parser.rs:369-390 | Impression: the id attribute, then the URL text |
| Parser.ParsePricing | src/parser.rs:393-423 | Pricing: the model and currency attributes, then the value text |
| Parser.ParseExtensions | src/parser.rs:426-447 | the Extensions loop computes its specification (so, through ParserRunLoops.ExtensionsParse, every Extension is appended in order) |
| Parser.ParseExtension | src/parser.rs:450-472 | Extension: the type attribute, then the content text |
| Parser.ParseCreatives | src/parser.rs:475-496 | the Creatives loop computes its specification (so, through ParserRunLoops.CreativesParse, every Creative is appended in order) |
| Parser.ParseCreative | src/parser.rs:499-574 | the Creative attribute loop, then the child loop, compute its specification (the attributes: ParserProps.CreativeAttrsFirst; the children: ParserRunLoops.CreativeParse) |
| Parser.ParseCreativeChild | src/parser.rs:546-561 | one Creative child is handled as specified (its effect: ParserRunLoops.CreativeStep) |
| Parser.ParseLinear | src/parser.rs:577-620 | the Linear loop computes its specification (so, through ParserRunLoops.LinearParse, a run of children gives its LinearValue) |
| Parser.ParseLinearChild | src/parser.rs:589-607 | one Linear child is handled as specified (its effect: ParserRunLoops.LinearStep) |
| Parser.ParseMediaFiles | src/parser.rs:623-644 | the MediaFiles loop computes its specification (so, through ParserRunLoops.MediaFilesParse, every MediaFile is appended in order) |
| Parser.ParseMediaFile | src/parser.rs:647-713 | MediaFile: its attribute fold, then the URL text |
| Parser.ParseVideoClicks | src/parser.rs:716-755 | the VideoClicks loop computes its specification (so, through ParserRunLoops.ClicksParse, a run of children gives its ClicksValue) |
| Parser.ParseVideoClicksChild | src/parser.rs:727-742 | one VideoClicks child is handled as specified |
| Parser.ParseTrackingEvents | src/parser.rs:758-779 | the TrackingEvents loop computes its specification (so, through ParserRunLoops.TrackingEventsParse, every Tracking is appended in order) |
| Parser.ParseTrackingEvent | src/parser.rs:782-803 | Tracking: the event attribute, then the URL text |
| Parser.ParseCompanionAds | src/parser.rs:806-816 | CompanionAds is skipped, giving an empty list |
| Parser.ParseNonLinearAds | src/parser.rs:819-829 | NonLinearAds is skipped, giving an empty list |
| ParserProps.LatestCons | src/parser.rs:171-173 | the latest value of a list starting with `x` is the latest of the rest, defaulting to `x` |
| ParserProps.VersionUnseen | src/parser.rs:24-32 | once some keys have occurred, the version loop takes the first `version` attribute unless `version` is among them |
| ParserProps.VersionIsFirst | src/parser.rs:24-32 | the version is the first `version` attribute of the start tag when it decodes; a repeated one is passed over |
| ParserProps.AdAttrsUnseen | src/parser.rs:87-110 | once some keys have occurred, id, sequence and conditionalAd come from the first occurrence of each key not among them |
| ParserProps.AdAttrsFirst | src/parser.rs:87-110 | id, sequence and conditionalAd each come from the first occurrence of their key; a first value that does not decode, or a first sequence that is not a u32, leaves the field unset; repeats are passed over; the payloads are untouched |
| ParserProps.CreativeAttrsUnseen | src/parser.rs:510-539 | once some keys have occurred, id, sequence, adId and apiFramework come from the first occurrence of each key not among them |
| ParserProps.CreativeAttrsFirst | src/parser.rs:510-539 | id, sequence, adId and apiFramework each come from the first occurrence of their key; a first sequence that is not a u32 leaves it unset; repeats are passed over; the Linear is untouched |
| ParserProps.MediaFileTypeUnseen | src/parser.rs:660-667 | once some keys have occurred, the MIME type comes from the first `type` attribute unless `type` is among them |
| ParserProps.MediaFileTypeFirst | src/parser.rs:660-667 | the MIME type is the first `type` attribute when it decodes; repeats are passed over |
| ParserProps.MediaFileSizeUnseen | src/parser.rs:660-692 | once some keys have occurred, width, height and bitrate come from the first occurrence of each key not among them |
| ParserProps.MediaFileSizeFirst | src/parser.rs:660-692 | width, height and bitrate each come from the first occurrence of their key when it is a u32; repeats are passed over; the URL is untouched |
| ParserProps.VastSkipsPrologue | src/parser.rs:20-47 | events before the `VAST` start tag are passed over |
| ParserProps.NoVastElement | src/parser.rs:42-50 | input without a `VAST` element parses to an empty document with an empty version |
| ParserProps.VastVersion | src/parser.rs:22-41 | a missing, undecodable or empty first version is the MissingField error; otherwise the version is the first version attribute |
| ParserProps.RepeatedVersionIgnored | src/parser.rs:22-41 | `<VAST version="3.0" version="">` parses as a 3.0 document: the result is exactly that of the ads loop under version 3.0, never the missing-version error |
| ParserProps.LastTextFront | src/parser.rs:281-299 | the last-text function can be computed front to back, as the loop does |
| ParserProps.ReadTextIsLast | src/parser.rs:281-299 | a text read returns the last Text or CDATA payload before the first close tag, not a concatenation |
| ParserProps.ReadTextBadEntity | src/parser.rs:283-285 | text that fails to unescape is a parse error |
| ParserProps.SkipToClose | src/parser.rs:305-342 | without a nested element of the same name, a skip ends just after the matching close tag |
| ParserProps.SkipStopsAtInnerClose | src/parser.rs:312-328 | a nested element of the same name ends the skip at its own close tag |
| ParserProps.SkipTruncated | src/parser.rs:332-334 | input that ends inside a skipped element is the unexpected-end error |
| ParserProps.AdsAtEnd | src/parser.rs:54-74 | at the end of input the Ads loop stops successfully with the ads it has |
| ParserProps.AdTruncated | src/parser.rs:132-134 | input that ends inside an Ad is the unexpected-end error |
| ParserProps.InlineTruncated | src/parser.rs:206-208 | input that ends inside an InLine is the unexpected-end error |
| ParserProps.WrapperTruncated | src/parser.rs:264-266 | input that ends inside a Wrapper is the unexpected-end error |
| ParserProps.SkipNeedsClose | src/parser.rs:318-334 | a skip over input that holds no close tag of the skipped name fails, whatever else the input holds |
| ParserProps.ReadTextNeedsEnd | src/parser.rs:281-294 | a text read over input that holds no close tag fails |
| ParserProps.AdNeedsClose | src/parser.rs:131-134 | the Ad loop over input without `</Ad>` fails |
| ParserProps.InlineNeedsClose | src/parser.rs:205-208 | the InLine loop over input without `</InLine>` fails |
| ParserProps.WrapperNeedsClose | src/parser.rs:263-266 | the Wrapper loop over input without `</Wrapper>` fails |
| ParserProps.CreativeNeedsClose | src/parser.rs:563-566 | the Creative loop over input without `</Creative>` fails |
| ParserProps.LinearNeedsClose | src/parser.rs:609-612 | the Linear loop over input without `</Linear>` fails |
| ParserProps.UnclosedAdFailsAds | src/parser.rs:58-71 | the Ads loop that meets an `<Ad>` never closed fails: the ads before it are not salvaged |
| ParserProps.UnclosedAdFailsDocument | src/parser.rs:8-51 | a document whose `VAST` element holds an `<Ad>` never closed fails to parse |
| ParserProps.TruncatedDocument | src/parser.rs:54-74 | a document cut off inside an Ad fails as a whole (for every input: ParserProps.UnclosedAdFailsDocument) |
| ParserProps.AdWithBothPayloads | src/parser.rs:116-124 | an Ad with both InLine and Wrapper keeps both |
| ParserProps.InlineTitleOverwrites | src/parser.rs:171-173 | one pass of the InLine loop: an AdTitle replaces the title read so far (over a whole run: DocumentRuns.InlineTextLatest) |
| ParserProps.InlineImpressionAppends | src/parser.rs:174-177 | one pass of the InLine loop: an Impression is appended (over a whole run: DocumentRuns.InlineImpressionsAppend) |
| ParserProps.MinimalInline | src/parser.rs:145-217 | the InLine of a small document parses to a record with its title |
| ParserProps.MinimalAd | src/parser.rs:77-143 | the Ad of a small document parses with its id, its sequence and its InLine |
| ParserProps.MinimalDocument | src/parser.rs:8-216 | a small one-ad InLine document parses to the expected record |
| ParserRuns.ClickThroughLatest | src/parser.rs:729-731 | in a run of VideoClicks children the last ClickThrough wins |
| ParserRuns.ClickTrackingAppends | src/parser.rs:732-734 | every ClickTracking URL is appended, in document order |
| ParserRuns.CustomClickAppends | src/parser.rs:735-737 | every CustomClick URL is appended, in document order |
| ParserRuns.ClicksValueContents | src/parser.rs:727-742 | the three statements above, together |
| ParserRuns.LinearValueContents | src/parser.rs:589-607 | every child of Linear is singular: the last Duration, MediaFiles, VideoClicks and TrackingEvents each win |
| ParserRuns.CreativeValueContents | src/parser.rs:546-561 | the last Linear wins; a CompanionAds or NonLinearAds child gives an empty list of its kind; the attributes read from the start tag are kept |
| ParserRunLoops.ReadsText | src/parser.rs:277-302 | a text element holding one piece of text reads as that text and stops after its close tag |
| ParserRunLoops.ExtensionsParse | src/parser.rs:426-447 | a run of Extension elements closed by `</Extensions>` gives the list read so far followed by each Extension, in order, and stops after the close tag |
| ParserRunLoops.MediaFilesParse | src/parser.rs:623-644 | the same for MediaFile elements closed by `</MediaFiles>` |
| ParserRunLoops.TrackingEventsParse | src/parser.rs:758-779 | the same for Tracking elements closed by `</TrackingEvents>` |
| ParserRunLoops.ClicksParse | src/parser.rs:716-755 | a run of ClickThrough, ClickTracking and CustomClick elements closed by `</VideoClicks>` gives exactly the value of the run, and stops after the close tag |
| ParserRunLoops.LinearStep | src/parser.rs:589-607 | at the start tag of a Duration, MediaFiles, VideoClicks or TrackingEvents child, the Linear loop reads the child, sets its field and goes on after it |
| ParserRunLoops.LinearParse | src/parser.rs:577-620 | a run of Linear children closed by `</Linear>` gives exactly the value of the run |
| ParserRunLoops.CreativeStep | src/parser.rs:546-561 | at the start tag of a Linear, CompanionAds or NonLinearAds child, the Creative loop reads the child, sets its field and goes on after it |
| ParserRunLoops.CreativeParse | src/parser.rs:540-573 | a run of Creative children closed by `</Creative>` gives exactly the value of the run |
| ParserRunLoops.CreativesParse | src/parser.rs:475-496 | a run of Creative elements closed by `</Creatives>` gives the list read so far followed by each Creative (its attribute fold, then its children), in order |
| DocumentRuns.InlineTextLatest | src/parser.rs:171-189 | in a run of InLine children the last AdTitle, Description, Advertiser, Survey and Error each win |
| DocumentRuns.InlineAdSystemLatest | src/parser.rs:168-170 | the last AdSystem wins |
| DocumentRuns.InlineImpressionsAppend | src/parser.rs:174-177 | every Impression is appended, in document order |
| DocumentRuns.InlinePricingLatest | src/parser.rs:190-192 | the last Pricing wins |
| DocumentRuns.InlineExtensionsLatest | src/parser.rs:193-195 | the last Extensions list wins; lists are not merged |
| DocumentRuns.InlineCreativesLatest | src/parser.rs:196-198 | the last Creatives list wins; lists are not merged |
| DocumentRuns.InlineValueContents | src/parser.rs:166-203 | every InLine field but the impressions is singular and the last child that sets it wins; the impressions are appended in order |
| DocumentRuns.WrapperAdSystemLatest | src/parser.rs:238-240 | in a run of Wrapper children the last AdSystem wins |
| DocumentRuns.WrapperUriLatest | src/parser.rs:241-243 | the last VASTAdTagURI wins |
| DocumentRuns.WrapperImpressionsAppend | src/parser.rs:244-247 | every Impression is appended, in document order |
| DocumentRuns.WrapperErrorLatest | src/parser.rs:248-250 | the last Error wins |
| DocumentRuns.WrapperExtensionsLatest | src/parser.rs:251-253 | the last Extensions list wins |
| DocumentRuns.WrapperCreativesLatest | src/parser.rs:254-256 | the last Creatives list wins |
| DocumentRuns.WrapperValueContents | src/parser.rs:236-261 | every Wrapper field but the impressions is singular and the last child that sets it wins; the impressions are appended in order |
| DocumentRuns.AdValueContents | src/parser.rs:116-129 | the last InLine and the last Wrapper win, independently of each other; the attributes read from the start tag are kept |
| DocumentRunLoops.InlineStep | src/parser.rs:166-203 | at the start tag of a known InLine child, the loop reads the child, sets or appends its field and goes on after it |
| DocumentRunLoops.InlineParse | src/parser.rs:164-215 | a run of InLine children closed by `</InLine>` gives exactly the value of the run, and stops after the close tag |
| DocumentRunLoops.WrapperStep | src/parser.rs:236-261 | at the start tag of a known Wrapper child, the loop reads the child, sets or appends its field and goes on after it |
| DocumentRunLoops.WrapperParse | src/parser.rs:234-273 | a run of Wrapper children closed by `</Wrapper>` gives exactly the value of the run |
| DocumentRunLoops.AdStep | src/parser.rs:116-129 | at an `<InLine>` or `<Wrapper>` start tag, the Ad loop parses the whole element, stores it and goes on after its close tag |
| DocumentRunLoops.AdParse | src/parser.rs:113-141 | a run of InLine and Wrapper elements closed by `</Ad>` gives exactly the value of the run |
| DocumentRunLoops.AdsParse | src/parser.rs:54-74 | a run of complete `<Ad>` elements closed by `</VAST>` gives the ads read so far followed by each ad, in order |
| DocumentRunLoops.DocumentParse | src/parser.rs:8-51 | a whole document of complete ads parses to its version and exactly its ads, in order, with no error; with no version it is the missing-version error |
| Unwrap.InlineAds | src/unwrap.rs:55-59 | the ads kept from one level all carry an InLine |
| Unwrap.UnwrapSpec | src/unwrap.rs:27-108 | only InLine ads are returned; the visited set and fetch log only grow and stay consistent; at depth 10 or more the result is the empty 4.0 document with the depth error |
| Unwrap.UnwrapAdsSpec | src/unwrap.rs:55-99 | the ads loop keeps what it has collected and collects only InLine ads |
| Unwrap.UnwrapVastWithDepth | src/unwrap.rs:27-108 | the recursive method with its ads loop computes its specification, including the visited set it hands back |
| Unwrap.UnwrapVast | src/unwrap.rs:22-24 | never fails; returns only InLine ads; a root that does not parse gives the empty 4.0 document with the parse error; otherwise the root's version is kept and there is no error |
| Unwrap.NoFetchKeepsInline | src/unwrap.rs:55-99 | when nothing can be fetched, the result is exactly the InLine ads, in order |
| Unwrap.InlineAdsKept | src/unwrap.rs:57-59 | every InLine ad of a level is in the result (in order: Unwrap.InlineAdsInOrder) |
| Unwrap.FetchedOnce | src/unwrap.rs:66-74 | no URI is fetched twice |
| Unwrap.SelfWrapper | src/unwrap.rs:66-74 | a wrapper pointing at its own document is fetched once, and the walk ends with no ads |
| Unwrap.UnwrapAdsAcc | src/unwrap.rs:55-99 | the ads loop only appends to what it was given, and what it gives otherwise does not depend on it |
| Unwrap.UnwrapAdsSplit | src/unwrap.rs:55-99 | the loop over `a + b` is the loop over `b` started from the result of the loop over `a` |
| Unwrap.WrapperSpliced | src/unwrap.rs:62-91 | a followed wrapper's resolved ads are spliced in at the wrapper's position, and the loop goes on from the trail the followed document handed back |
| Unwrap.InlineAdsInOrder | src/unwrap.rs:55-99 | the InLine ads of a level appear in the result in their order, as a subsequence |
| Unwrap.ChainResolves | src/unwrap.rs:27-108 | a chain of distinct wrapper URIs, shorter than the depth limit and ending in a document without wrappers, resolves to the root's version and the last document's InLine ads, with no error, fetching each URI once in chain order |
| Unwrap.ChainFromTop | src/unwrap.rs:22-24 | the same from the top: fewer than ten distinct links give the last document's InLine ads under the root's version |
| Unwrap.EmptyLink | src/unwrap.rs:55-93 | a document whose only ad wraps a fresh fetchable URI that resolves to no ad resolves to no ad, under its own version |
| Unwrap.ChainHead | src/unwrap.rs:60-74 | the first link of a chain of fresh URIs wraps a fetchable, unvisited URI, and the rest is a chain of fresh URIs once it is visited |
| Unwrap.DeepChainResolvesEmpty | src/unwrap.rs:27-108 | a chain of distinct URIs that reaches depth 10 before its end resolves to no ad, under its first document's version |
| Unwrap.DeepChainNoAds | src/unwrap.rs:27-108 | by induction along such a chain, each document on it resolves to no ad |
| Unwrap.DeepChainBelow | src/unwrap.rs:27-108 | the document the first link of such a chain fetches resolves to no ad, at the limit or above it |
| Unwrap.AtLimit | src/unwrap.rs:28-37 | a document at depth 10 or deeper is not read and resolves to no ad |
| Tracking.PushAll | src/stitcher.rs:142-144 | a push loop appends the whole list |
| Tracking.PushTrackingEvents | src/stitcher.rs:155-160 | the event loop computes the map update |
| Tracking.ExtractWrapperTracking | src/stitcher.rs:140-176 | the extraction method computes its specification |
| Tracking.UrlsForAppend | src/stitcher.rs:155-160 | the URLs of a tag in a concatenation are those of each part, in order |
| Tracking.TagsAppend | src/stitcher.rs:155-160 | the tags of a concatenation are the union of both parts' tags |
| Tracking.AddEventsPerTag | src/stitcher.rs:155-160 | each tag's list is extended by that tag's URLs, in order of the events |
| Tracking.AddEventsKeys | src/stitcher.rs:156-158 | the map gains exactly the events' tags as keys |
| Tracking.ExtractContents | src/stitcher.rs:140-176 | extraction appends the wrapper's impressions, its error URL, each tag's Linear tracking URLs and its click URLs, and adds no other keys |
| Tracking.AddCreativesLists | src/stitcher.rs:151-175 | the creatives loop appends every Linear's ClickTracking and CustomClick URLs and nothing else |
| Tracking.AddCreativesPerTag | src/stitcher.rs:151-160 | the creatives loop appends every Linear's URLs of each tag, in order |
| Tracking.AddCreativePerTag | src/stitcher.rs:153-160 | one creative contributes its Linear's URLs of each tag, or nothing |
| Tracking.AddCreativeLists | src/stitcher.rs:153-175 | one creative contributes its Linear's ClickTracking and CustomClick URLs, or nothing |
| Tracking.AddCreativesKeys | src/stitcher.rs:151-160 | the creatives loop adds exactly the Linear tracking tags as keys |
| Tracking.ExtendsTrans | src/stitcher.rs:140-176 | extension of the accumulator is transitive |
| Tracking.ExtractExtends | src/stitcher.rs:140-176 | extraction only appends to the accumulator: every list and every tag's list keeps its contents as a prefix |
| Tracking.SubsetCard | src/stitcher.rs:113-121 | a subset is no larger than its superset |
| Tracking.UnfetchedMono | src/stitcher.rs:113-121 | recording more URIs never increases the number of fetchable URIs still unvisited |
| Tracking.UnfetchedVisit | src/stitcher.rs:113-121 | recording a new fetchable URI decreases that number by one |
| Tracking.CollectSpec | src/stitcher.rs:100-137 | the visited list only grows, and a document that does not parse fails the collection; along a wrapper chain the result is stated by Tracking.TrackingChainCollects |
| Tracking.CollectAdsSpec | src/stitcher.rs:109-134 | the visited list only grows; its split over a concatenation is Tracking.CollectAdsSplit |
| Tracking.Visit | src/stitcher.rs:110-121 | a wrapper's tracking is extracted before its URI is checked; only a new URI is recorded |
| Tracking.VisitGrows | src/stitcher.rs:110-121 | visiting a wrapper only extends the collection |
| Tracking.CollectGrows | src/stitcher.rs:100-137 | the depth-first collection only extends the accumulator and the visited list, and records no URI twice |
| Tracking.CollectAdsStep | src/stitcher.rs:109-134 | one step of the depth-first ads loop over a wrapper ad: visit, then follow a new fetchable URI |
| Tracking.CollectAdsGrows | src/stitcher.rs:109-134 | the same for the loop over one document's ads |
| Tracking.GrowsTrans | src/stitcher.rs:100-137 | growth of a collection is transitive |
| Tracking.CollectWrapperTrackingRecursive | src/stitcher.rs:100-137 | the recursive method with its loop computes its specification |
| Tracking.CollectWrapperTracking | src/stitcher.rs:47-51 | fails exactly when the depth-first collection fails, and otherwise returns its accumulator |
| Tracking.EnqueueSpec | src/stitcher.rs:68-92 | the loop over one document's ads only grows the visited list and the queue, and never increases the unvisited fetchable URIs plus the queue length |
| Tracking.QueueSpec | src/stitcher.rs:63-94 | the visited list only grows, and a queued document that does not parse fails the collection; along a wrapper chain the result is stated by Tracking.QueueChainCollects |
| Tracking.EnqueueGrows | src/stitcher.rs:68-92 | the ads loop of the queue variant only extends the collection |
| Tracking.QueueGrows | src/stitcher.rs:63-94 | the breadth-first collection only extends the accumulator and the visited list, and records no URI twice |
| Tracking.EnqueueStep | src/stitcher.rs:68-92 | one step of the queue variant's ads loop: a non-wrapper is skipped, a wrapper is extracted and its new fetchable URI queued |
| Tracking.EnqueueWrappers | src/stitcher.rs:68-92 | the ads loop of the queue variant computes its specification |
| Tracking.CollectWrapperTrackingQueued | src/stitcher.rs:55-97 | fails exactly when the breadth-first collection fails, and otherwise returns its accumulator |
| Tracking.WrapperTwiceInOneDocument | src/stitcher.rs:110-121 | a wrapper met twice is extracted twice but recorded once |
| Tracking.FetchedParseErrorAborts | src/stitcher.rs:122-126 | a followed document that does not parse fails the whole collection, for a wrapper at any position whose predecessors were collected without error |
| Tracking.FetchedParseErrorAbortsAtHead | src/stitcher.rs:122-126 | the same for a wrapper that is the first ad |
| Tracking.CollectAdsSplit | src/stitcher.rs:109-134 | the ads loop over `a + b` is the loop over `b` started from the result of the loop over `a`, unless that failed |
| Tracking.TrackingChainLink | src/stitcher.rs:110-131 | one link of a chain: the wrapper is extracted, its URI recorded, and the collection goes on in the fetched document |
| Tracking.TrackingChainCollects | src/stitcher.rs:100-137 | along a chain of distinct unvisited URIs the depth-first collection extracts every wrapper in chain order and records every URI in chain order |
| Tracking.ExtractAllImpressions | src/stitcher.rs:140-148 | extracting a list of wrappers appends their impressions in order |
| Tracking.TwoHopImpressions | src/stitcher.rs:47-51 | for W1 -> W2 -> a document without wrappers, the collected impressions are W1's followed by W2's, and both URIs are recorded |
| Tracking.TrackingChainIsChain | src/stitcher.rs:100-137 | a chain the collectors follow to a document without wrappers is a chain the resolver follows |
| Tracking.DeepChainTrackedNotResolved | src/stitcher.rs:47-137 | on a chain of ten or more distinct URIs the depth-first collection gathers every wrapper's tracking and records every URI, while the resolver returns the root's version with no ad |
| Tracking.QueueChainLink | src/stitcher.rs:68-94 | one link of a chain in the queue variant: the wrapper is extracted, its URI recorded, and the fetched document becomes the queue |
| Tracking.QueueChainCollects | src/stitcher.rs:55-97 | along a chain of distinct unvisited URIs the breadth-first collection extracts every wrapper and records every URI in chain order |
| Tracking.BreadthFirstIsDepthFirstOnChain | src/stitcher.rs:55-137 | on such a chain the breadth-first and depth-first collections agree |
| Tracking.EnqueueIsCollectWhenNoneFetchable | src/stitcher.rs:68-92 | with nothing to follow, the two ads loops agree and nothing is queued |
| Tracking.BreadthFirstIsDepthFirstWhenNoneFetchable | src/stitcher.rs:55-137 | on a document with no fetchable wrapper URI, both traversals give the same result |
| Stitch.TaggedContents | src/stitcher.rs:200-207 | the events made from one tag's URLs carry exactly those URLs under that tag, in order |
| Stitch.PushTagged | src/stitcher.rs:201-206 | the inner loop appends one event per URL |
| Stitch.TaggedAllContents | src/stitcher.rs:200-207 | the events made from a list of distinct tags carry, per tag, exactly that tag's map entry if listed and nothing otherwise, and no unlisted tag |
| Stitch.TakeTag | src/stitcher.rs:200-207 | taking one more map entry keeps the bookkeeping of the loop and appends that entry's events |
| Stitch.AppendedAll | src/stitcher.rs:200-207 | once every map entry is taken, the appended events are exactly the map's URLs per tag |
| Stitch.AppendTracking | src/stitcher.rs:200-207 | the Linear's events are kept as a prefix; the appended events give, per tag, exactly the map's URLs, and carry no other tag |
| Stitch.MergeLinear | src/stitcher.rs:198-227 | a Linear gets the wrapper events; its VideoClicks are extended, or created when absent and the wrappers have click URLs |
| Stitch.MergeCreative | src/stitcher.rs:197-229 | only a Linear creative changes |
| Stitch.MergeInline | src/stitcher.rs:185-229 | the wrapper impressions follow the InLine's own; the first wrapper error fills a missing Error; every creative is merged |
| Stitch.MergeAd | src/stitcher.rs:184-230 | only an ad's InLine changes; an ad without one is untouched |
| Stitch.StitchVastFromUnwrapped | src/stitcher.rs:179-234 | never fails; version, error and ad count are kept, and every ad is merged |
| Stitch.StitchVast | src/stitcher.rs:7-19 | fails exactly when the depth-first collection fails; otherwise the text renders the resolved document merged with the gathered tracking, ends with `</VAST>`, and its header carries the parsed version |
| Stitch.StitchVastAsync | src/stitcher.rs:22-34 | fails exactly when the breadth-first collection fails; otherwise the text renders the resolved document merged with the gathered tracking, ends with `</VAST>`, and its header carries the parsed version |
| Stitch.BothPipelinesAgreeWhenNoneFetchable | src/stitcher.rs:7-34 | with no fetchable wrapper URI, the blocking and async pipelines gather the same tracking |
| Stitch.BothPipelinesAgreeOnChain | src/stitcher.rs:7-34 | along a chain of distinct wrapper URIs, the blocking and async pipelines gather the same tracking |
| Stitch.TrackingMergedPerTag | src/stitcher.rs:200-207 | after the merge, each tag lists the Linear's own URLs, then the wrappers' URLs |
| Stitch.TrackingMergedEmpty | src/stitcher.rs:200-207 | merging an empty map adds no event |
| Stitch.TagsEmpty | src/stitcher.rs:200-207 | an event list without tags is empty |
| Stitch.MergedClicksNothing | src/stitcher.rs:210-227 | merging no click URLs leaves VideoClicks as it was |
| Stitch.ClicksMerged | src/stitcher.rs:210-227 | VideoClicks exists after the merge exactly when it did before or a wrapper has a click URL; the wrapper URLs follow the own ones; a created VideoClicks has no ClickThrough |
| Stitch.ErrorMerged | src/stitcher.rs:191-194 | an InLine's own Error wins; a missing one is filled by the first wrapper error URL, when there is one |
| Stitch.MergeNothing | src/stitcher.rs:179-234 | merging empty tracking returns the document unchanged |
| Render.VastToXml | src/stitcher.rs:237-260 | the output starts with the XML declaration and `<VAST version="…">`, and ends with `</VAST>` |
| Render.AdToXml | src/stitcher.rs:263-290 | the `<Ad …>` line, with attributes in the order id, sequence, conditionalAd, then the content, then `</Ad>` |
| Render.InlineToXml | src/stitcher.rs:293-370 | opens with `<InLine>` and closes with `</InLine>` |
| Render.WrapperToXml | src/stitcher.rs:373-416 | opens with `<Wrapper>` and closes with `</Wrapper>` |
| Render.CreativeToXml | src/stitcher.rs:419-457 | the `<Creative …>` line, with attributes id, sequence, adId, apiFramework, then the payloads, then `</Creative>` |
| Render.LinearToXml | src/stitcher.rs:460-538 | opens with `<Linear>` and closes with `</Linear>` |
| Render.CompanionAdsToXml | src/stitcher.rs:541-592 | opens with `<CompanionAds>` and closes with `</CompanionAds>` |
| Render.NonLinearAdsToXml | src/stitcher.rs:595-652 | opens with `<NonLinearAds>` and closes with `</NonLinearAds>` |
| Render.JoinAppend | src/stitcher.rs:254-256 | rendering a list piecewise is rendering it whole |
| Render.InlinePreferred | src/stitcher.rs:279-284 | with both payloads present, only the InLine is written |
| Render.EmptyAd | src/stitcher.rs:279-287 | an ad with neither payload is its open and close lines |
| Render.WrapperExtensionsDropped | src/stitcher.rs:373-416 | a wrapper's extensions never reach the output |
| Render.MediaTypeDropped | src/stitcher.rs:505-530 | a media file's mediaType never reaches the output |
| Render.EmptyLinear | src/stitcher.rs:460-538 | an empty Linear is its two tags |
| Render.EmptyCompanionsAndNonLinears | src/stitcher.rs:541-652 | the empty CompanionAds and NonLinearAds that the parser produces are their two tags |
| Render.VastToXmlAppendAd | src/stitcher.rs:237-260 | adding an ad at the end of the document adds its text just before `</VAST>` |
| Render.AttributeRoundTrip | src/stitcher.rs:263-290 | sequence is written in decimal and conditionalAd as true/false, so the parser reads back the same values |

## Left out

- Fetching is modelled as a map from URI to the events of the fetched document. A missing key is a failed fetch. Left out: local files, HTTP, the 3-second timeout, temporary files with random names (`fetch_vast_content`, `fetch_vast_from_url`), and logging with `println!`.
- The XML reader is given as a finished sequence of events: tokenising, whitespace trimming and UTF-8 decoding are left out.
  - Text that fails to unescape is a `Text` event without a payload.
  - An attribute whose value is not UTF-8 is an attribute without a value.
  - A reader error is an `XmlErr` event; the `quick_xml` error inside `XmlParseError` is not carried.
- Stitch.AppendTracking: the merge iterates a `HashMap` of tags, whose order is unspecified. The contract states each tag's URLs exactly and that no other tag is added. It does not state the order between different tags, or that one tag's events are contiguous.
- `unwrap_vast_async` is not part of this model; Stitch.StitchVastAsync uses the blocking resolver in its place.
- The `&mut` accumulators (`WrapperTracking`, the visited list, the unwrapped `Vast`) are passed and returned as values, so aliasing is not modelled.
- The command-line front end (`src/main.rs`) and the crate's re-exports (`src/lib.rs`) are not part of this model.
- The element runs cover documents made of the known children only. Each text child is its start tag, one text event and its end tag. Start tags whose attributes the parser ignores (InLine, Wrapper, Extensions, Creatives, the text children other than AdSystem, Impression, Pricing, Extension, MediaFile and Tracking) are written without attributes. Runs with skipped unknown elements, comments, several text events in one text child, or `Empty` elements among the children are not covered by the run lemmas; for those only the spec functions' own contracts and the methods' equality with them apply.
- AdSpec: the exact Ad value is proved only for runs of known children, by DocumentRunLoops.AdParse; for other inputs only its own contract applies.
- ParseAdElement: equal to AdSpec, so it carries the same gap.
- InlineSpec: the exact InLine value is proved only for runs of known children, by DocumentRunLoops.InlineParse; for other inputs only its own contract applies.
- ParseInlineElement: equal to InlineSpec, so it carries the same gap.
- WrapperSpec: the exact Wrapper value is proved only for runs of known children, by DocumentRunLoops.WrapperParse; for other inputs only its own contract applies.
- ParseWrapperElement: equal to WrapperSpec, so it carries the same gap.
- ExtensionsSpec: the exact list is proved only for runs of known children, by ParserRunLoops.ExtensionsParse; for other inputs only its own contract applies.
- ParseExtensions: equal to ExtensionsSpec, so it carries the same gap.
- CreativesSpec: the exact list is proved only for runs of known children, by ParserRunLoops.CreativesParse; for other inputs only its own contract applies.
- ParseCreatives: equal to CreativesSpec, so it carries the same gap.
- CreativeSpec: the exact Creative value is proved only for runs of known children, by ParserRunLoops.CreativeParse; for other inputs only its own contract applies.
- ParseCreative: equal to CreativeSpec, so it carries the same gap.
- CreativeChildSpec: the effect of one child is proved only for runs of known children, by ParserRunLoops.CreativeStep; for other inputs only its own contract applies.
- ParseCreativeChild: equal to CreativeChildSpec, so it carries the same gap.
- LinearSpec: the exact Linear value is proved only for runs of known children, by ParserRunLoops.LinearParse; for other inputs only its own contract applies.
- ParseLinear: equal to LinearSpec, so it carries the same gap.
- LinearChildSpec: the effect of one child is proved only for runs of known children, by ParserRunLoops.LinearStep; for other inputs only its own contract applies.
- ParseLinearChild: equal to LinearChildSpec, so it carries the same gap.
- MediaFilesSpec: the exact list is proved only for runs of known children, by ParserRunLoops.MediaFilesParse; for other inputs only its own contract applies.
- ParseMediaFiles: equal to MediaFilesSpec, so it carries the same gap.
- VideoClicksSpec: the exact value is proved only for runs of known children, by ParserRunLoops.ClicksParse; for other inputs only its own contract applies.
- ParseVideoClicks: equal to VideoClicksSpec, so it carries the same gap.
- TrackingEventsSpec: the exact list is proved only for runs of known children, by ParserRunLoops.TrackingEventsParse; for other inputs only its own contract applies.
- ParseTrackingEvents: equal to TrackingEventsSpec, so it carries the same gap.
- InlineTitleOverwrites: one pass of the loop; the whole run is DocumentRuns.InlineTextLatest.
- InlineImpressionAppends: one pass of the loop; the whole run is DocumentRuns.InlineImpressionsAppend.
- BreadthFirstIsDepthFirstOnChain: the two collectors are proved to agree on documents with nothing to follow and on single chains of wrappers; for documents whose several wrappers fan out, the visiting order differs and so can the order of the gathered URLs, which is not stated.
- CollectSpec: the depth-first collector has no depth limit in the source (`src/stitcher.rs:100-137`). The model terminates because the fetch map is finite and each recursive fetch records a new URI of it (`decreases Unfetched`). Non-termination on an endless chain of ever new URIs, which only an infinite supply of fetchable documents could produce, is not captured.
- QueueSpec: the same holds for the breadth-first collector (`src/stitcher.rs:63-94`), whose queue only grows by a new fetchable URI's document.
- Lower: only ASCII letters are lower-cased, where Rust's `to_lowercase` follows Unicode; since no other character lower-cases to a letter of "true", the reading of `conditionalAd` is the same.
