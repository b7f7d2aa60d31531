/** Element trees, the events they are written as, and what the parser makes of
    them.

    A tree of an element whose loop the parser runs is the run of its known
    children, in document order; the events of a run are its children's events
    one after the other. The value of a run folds the children, one at a time,
    into the struct the loop fills, following the match arms of src/parser.rs but
    on values instead of events. For each loop two things are proved: given the
    events of a run closed by the element's end tag, the loop returns exactly the
    value of the run and stops just after that end tag; and what that value is:
    a singular child is overwritten, so the last one wins, while repeatable
    children are appended in document order. */
module ParserRuns {
  import opened Models
  import opened Errors
  import opened XmlEvents
  import opened ParserSpec
  import opened ParserProps

  /** Regrouping a concatenation, stated for any element type so that the
      proof does not look inside the records being joined. */
  lemma AppendAssoc<T>(a: seq<T>, b: seq<T>, c: seq<T>)
    ensures (a + b) + c == a + (b + c)
  {
  }

  lemma AppendNothing<T>(a: seq<T>)
    ensures a + [] == a && [] + a == a
  {
  }

  // ---------------------------------------------------------------------------
  // Fragments of the event stream

  /** The stream holds, from `pos` on, an element whose content is one piece
      of text: its start tag, the text, its end tag. */
  predicate TextAt(evs: seq<Event>, pos: nat, name: string, attrs: seq<Attr>, text: string) {
    At(evs, pos) == Start(name, attrs) && At(evs, pos + 1) == Text(Some(text)) && At(evs, pos + 2) == End(name)
  }

  // ---------------------------------------------------------------------------
  // Leaf elements: attributes and one piece of text

  datatype Leaf = Leaf(attrs: seq<Attr>, text: string)

  /** The stream holds, from `pos` on, the leaves `ls` named `name`, one after
      the other (three events each). */
  predicate LeavesAt(evs: seq<Event>, pos: nat, name: string, ls: seq<Leaf>)
    decreases |ls|
  {
    ls == [] || (TextAt(evs, pos, name, ls[0].attrs, ls[0].text) && LeavesAt(evs, pos + 3, name, ls[1..]))
  }

  function ImpressionOf(l: Leaf): Impression {
    FoldAttrs(l.attrs, NoImpression, ImpressionAttr).(url := l.text)
  }

  function AdSystemOf(l: Leaf): AdSystem {
    FoldAttrs(l.attrs, NoAdSystem, AdSystemAttr).(name := l.text)
  }

  function PricingOf(l: Leaf): Pricing {
    FoldAttrs(l.attrs, NoPricing, PricingAttr).(value := l.text)
  }

  function ExtensionOf(l: Leaf): Extension {
    FoldAttrs(l.attrs, NoExtension, ExtensionAttr).(content := l.text)
  }

  function MediaFileOf(l: Leaf): MediaFile {
    FoldAttrs(l.attrs, NoMediaFile, MediaFileAttr).(url := l.text)
  }

  function TrackingOf(l: Leaf): TrackingEvent {
    FoldAttrs(l.attrs, NoTrackingEvent, TrackingAttr).(url := l.text)
  }

  function ExtensionsOf(ls: seq<Leaf>): (r: seq<Extension>)
    ensures |r| == |ls|
    decreases |ls|
  {
    if ls == [] then [] else [ExtensionOf(ls[0])] + ExtensionsOf(ls[1..])
  }

  function MediaFilesOf(ls: seq<Leaf>): (r: seq<MediaFile>)
    ensures |r| == |ls|
    decreases |ls|
  {
    if ls == [] then [] else [MediaFileOf(ls[0])] + MediaFilesOf(ls[1..])
  }

  function TrackingsOf(ls: seq<Leaf>): (r: seq<TrackingEvent>)
    ensures |r| == |ls|
    decreases |ls|
  {
    if ls == [] then [] else [TrackingOf(ls[0])] + TrackingsOf(ls[1..])
  }

  // ---------------------------------------------------------------------------
  // VideoClicks

  datatype ClickChild = ClickThroughUrl(url: string) | ClickTrackingUrl(url: string) | CustomClickUrl(url: string)

  /** The stream holds the child `c` of `<VideoClicks>` at `pos` (three events). */
  predicate ClickAt(evs: seq<Event>, pos: nat, c: ClickChild) {
    match c
    case ClickThroughUrl(u) => TextAt(evs, pos, "ClickThrough", [], u)
    case ClickTrackingUrl(u) => TextAt(evs, pos, "ClickTracking", [], u)
    case CustomClickUrl(u) => TextAt(evs, pos, "CustomClick", [], u)
  }

  predicate ClicksAt(evs: seq<Event>, pos: nat, cs: seq<ClickChild>)
    decreases |cs|
  {
    cs == [] || (ClickAt(evs, pos, cs[0]) && ClicksAt(evs, pos + 3, cs[1..]))
  }

  function ApplyClick(v: VideoClicks, c: ClickChild): VideoClicks {
    match c
    case ClickThroughUrl(u) => v.(clickThrough := Some(u))
    case ClickTrackingUrl(u) => v.(clickTracking := v.clickTracking + [u])
    case CustomClickUrl(u) => v.(customClick := v.customClick + [u])
  }

  function ClicksValue(acc: VideoClicks, cs: seq<ClickChild>): VideoClicks
    decreases |cs|
  {
    if cs == [] then acc else ClicksValue(ApplyClick(acc, cs[0]), cs[1..])
  }

  /** The URLs of the children of one kind, in document order. */
  function Throughs(cs: seq<ClickChild>): seq<string>
    decreases |cs|
  {
    if cs == [] then [] else (if cs[0].ClickThroughUrl? then [cs[0].url] else []) + Throughs(cs[1..])
  }

  function TrackingUrls(cs: seq<ClickChild>): seq<string>
    decreases |cs|
  {
    if cs == [] then [] else (if cs[0].ClickTrackingUrl? then [cs[0].url] else []) + TrackingUrls(cs[1..])
  }

  function CustomUrls(cs: seq<ClickChild>): seq<string>
    decreases |cs|
  {
    if cs == [] then [] else (if cs[0].CustomClickUrl? then [cs[0].url] else []) + CustomUrls(cs[1..])
  }

  /** The last ClickThrough wins; ClickTracking and CustomClick URLs are appended
      in document order. */
  lemma ClicksValueContents(acc: VideoClicks, cs: seq<ClickChild>)
    ensures ClicksValue(acc, cs).clickThrough == Latest(Throughs(cs), acc.clickThrough)
    ensures ClicksValue(acc, cs).clickTracking == acc.clickTracking + TrackingUrls(cs)
    ensures ClicksValue(acc, cs).customClick == acc.customClick + CustomUrls(cs)
  {
    ClickThroughLatest(acc, cs);
    ClickTrackingAppends(acc, cs);
    CustomClickAppends(acc, cs);
  }

  lemma {:induction false} ClickThroughLatest(acc: VideoClicks, cs: seq<ClickChild>)
    ensures ClicksValue(acc, cs).clickThrough == Latest(Throughs(cs), acc.clickThrough)
    decreases |cs|
  {
    if cs != [] {
      var c, rest := cs[0], cs[1..];
      ClickThroughLatest(ApplyClick(acc, c), rest);
      if c.ClickThroughUrl? {
        LatestCons(c.url, Throughs(rest), acc.clickThrough);
      } else {
        AppendNothing(Throughs(rest));
      }
    }
  }

  lemma {:induction false} ClickTrackingAppends(acc: VideoClicks, cs: seq<ClickChild>)
    ensures ClicksValue(acc, cs).clickTracking == acc.clickTracking + TrackingUrls(cs)
    decreases |cs|
  {
    if cs == [] {
      AppendNothing(acc.clickTracking);
    } else {
      var c, rest := cs[0], cs[1..];
      var k := if c.ClickTrackingUrl? then [c.url] else [];
      ClickTrackingAppends(ApplyClick(acc, c), rest);
      AppendNothing(acc.clickTracking);
      AppendAssoc(acc.clickTracking, k, TrackingUrls(rest));
    }
  }

  lemma {:induction false} CustomClickAppends(acc: VideoClicks, cs: seq<ClickChild>)
    ensures ClicksValue(acc, cs).customClick == acc.customClick + CustomUrls(cs)
    decreases |cs|
  {
    if cs == [] {
      AppendNothing(acc.customClick);
    } else {
      var c, rest := cs[0], cs[1..];
      var k := if c.CustomClickUrl? then [c.url] else [];
      CustomClickAppends(ApplyClick(acc, c), rest);
      AppendNothing(acc.customClick);
      AppendAssoc(acc.customClick, k, CustomUrls(rest));
    }
  }

  // ---------------------------------------------------------------------------
  // Linear

  datatype LinearChild =
    | DurationText(text: string)
    | MediaFileList(files: seq<Leaf>)
    | ClickList(clicks: seq<ClickChild>)
    | TrackingList(events: seq<Leaf>)

  /** How many events the child `c` of `<Linear>` is written as. */
  function LinearChildSize(c: LinearChild): nat {
    match c
    case DurationText(_) => 3
    case MediaFileList(fs) => 3 * |fs| + 2
    case ClickList(cs) => 3 * |cs| + 2
    case TrackingList(ls) => 3 * |ls| + 2
  }

  /** The stream holds the child `c` of `<Linear>` at `pos`: a list child is
      its start tag, its items, its end tag. */
  predicate LinearChildAt(evs: seq<Event>, pos: nat, c: LinearChild) {
    match c
    case DurationText(t) => TextAt(evs, pos, "Duration", [], t)
    case MediaFileList(fs) =>
      At(evs, pos) == Start("MediaFiles", []) && LeavesAt(evs, pos + 1, "MediaFile", fs)
      && At(evs, pos + 1 + 3 * |fs|) == End("MediaFiles")
    case ClickList(cs) =>
      At(evs, pos) == Start("VideoClicks", []) && ClicksAt(evs, pos + 1, cs)
      && At(evs, pos + 1 + 3 * |cs|) == End("VideoClicks")
    case TrackingList(ls) =>
      At(evs, pos) == Start("TrackingEvents", []) && LeavesAt(evs, pos + 1, "Tracking", ls)
      && At(evs, pos + 1 + 3 * |ls|) == End("TrackingEvents")
  }

  /** The element name a child is written under. */
  function LinearChildName(c: LinearChild): string {
    match c
    case DurationText(_) => "Duration"
    case MediaFileList(_) => "MediaFiles"
    case ClickList(_) => "VideoClicks"
    case TrackingList(_) => "TrackingEvents"
  }

  function LinearSize(cs: seq<LinearChild>): nat
    decreases |cs|
  {
    if cs == [] then 0 else LinearChildSize(cs[0]) + LinearSize(cs[1..])
  }

  /** The stream holds the children `cs` of `<Linear>` from `pos` on, one
      after the other. */
  predicate LinearAt(evs: seq<Event>, pos: nat, cs: seq<LinearChild>)
    decreases |cs|
  {
    cs == [] || (LinearChildAt(evs, pos, cs[0]) && LinearAt(evs, pos + LinearChildSize(cs[0]), cs[1..]))
  }

  function ApplyLinear(l: Linear, c: LinearChild): Linear {
    match c
    case DurationText(t) => l.(duration := Some(t))
    case MediaFileList(fs) => l.(mediaFiles := MediaFilesOf(fs))
    case ClickList(cs) => l.(videoClicks := Some(ClicksValue(NoVideoClicks, cs)))
    case TrackingList(ls) => l.(trackingEvents := TrackingsOf(ls))
  }

  function LinearValue(acc: Linear, cs: seq<LinearChild>): Linear
    decreases |cs|
  {
    if cs == [] then acc else LinearValue(ApplyLinear(acc, cs[0]), cs[1..])
  }

  function Durations(cs: seq<LinearChild>): seq<string>
    decreases |cs|
  {
    if cs == [] then [] else (if cs[0].DurationText? then [cs[0].text] else []) + Durations(cs[1..])
  }

  function FileLists(cs: seq<LinearChild>): seq<seq<MediaFile>>
    decreases |cs|
  {
    if cs == [] then [] else (if cs[0].MediaFileList? then [MediaFilesOf(cs[0].files)] else []) + FileLists(cs[1..])
  }

  function ClickBlocks(cs: seq<LinearChild>): seq<VideoClicks>
    decreases |cs|
  {
    if cs == [] then []
    else (if cs[0].ClickList? then [ClicksValue(NoVideoClicks, cs[0].clicks)] else []) + ClickBlocks(cs[1..])
  }

  function TrackingLists(cs: seq<LinearChild>): seq<seq<TrackingEvent>>
    decreases |cs|
  {
    if cs == [] then [] else (if cs[0].TrackingList? then [TrackingsOf(cs[0].events)] else []) + TrackingLists(cs[1..])
  }

  /** Every child of `<Linear>` is singular: the last Duration, MediaFiles,
      VideoClicks and TrackingEvents each replace what came before. */
  lemma {:induction false} LinearValueContents(acc: Linear, cs: seq<LinearChild>)
    ensures LinearValue(acc, cs).duration == Latest(Durations(cs), acc.duration)
    ensures Some(LinearValue(acc, cs).mediaFiles) == Latest(FileLists(cs), Some(acc.mediaFiles))
    ensures LinearValue(acc, cs).videoClicks == Latest(ClickBlocks(cs), acc.videoClicks)
    ensures Some(LinearValue(acc, cs).trackingEvents) == Latest(TrackingLists(cs), Some(acc.trackingEvents))
    decreases |cs|
  {
    if cs != [] {
      var c, rest := cs[0], cs[1..];
      ClicksValueContents(NoVideoClicks, []);
      LinearValueContents(ApplyLinear(acc, c), rest);
      match c
      case DurationText(t) =>
        LatestCons(t, Durations(rest), acc.duration);
        assert FileLists(cs) == FileLists(rest) && ClickBlocks(cs) == ClickBlocks(rest);
        assert TrackingLists(cs) == TrackingLists(rest);
      case MediaFileList(fs) =>
        LatestCons(MediaFilesOf(fs), FileLists(rest), Some(acc.mediaFiles));
        assert Durations(cs) == Durations(rest) && ClickBlocks(cs) == ClickBlocks(rest);
        assert TrackingLists(cs) == TrackingLists(rest);
      case ClickList(k) =>
        LatestCons(ClicksValue(NoVideoClicks, k), ClickBlocks(rest), acc.videoClicks);
        assert Durations(cs) == Durations(rest) && FileLists(cs) == FileLists(rest);
        assert TrackingLists(cs) == TrackingLists(rest);
      case TrackingList(ls) =>
        LatestCons(TrackingsOf(ls), TrackingLists(rest), Some(acc.trackingEvents));
        assert Durations(cs) == Durations(rest) && FileLists(cs) == FileLists(rest);
        assert ClickBlocks(cs) == ClickBlocks(rest);
    }
  }

  // ---------------------------------------------------------------------------
  // Creative, and the list of creatives

  datatype CreativeChild =
    | LinearElement(children: seq<LinearChild>)
    | CompanionAdsElement
    | NonLinearAdsElement

  function CreativeChildSize(c: CreativeChild): nat {
    match c
    case LinearElement(cs) => LinearSize(cs) + 2
    case _ => 2
  }

  /** The stream holds the child `c` of `<Creative>` at `pos`; CompanionAds and
      NonLinearAds are written empty. */
  predicate CreativeChildAt(evs: seq<Event>, pos: nat, c: CreativeChild) {
    match c
    case LinearElement(cs) =>
      At(evs, pos) == Start("Linear", []) && LinearAt(evs, pos + 1, cs)
      && At(evs, pos + 1 + LinearSize(cs)) == End("Linear")
    case CompanionAdsElement =>
      At(evs, pos) == Start("CompanionAds", []) && At(evs, pos + 1) == End("CompanionAds")
    case NonLinearAdsElement =>
      At(evs, pos) == Start("NonLinearAds", []) && At(evs, pos + 1) == End("NonLinearAds")
  }

  function CreativeChildName(c: CreativeChild): string {
    match c
    case LinearElement(_) => "Linear"
    case CompanionAdsElement => "CompanionAds"
    case NonLinearAdsElement => "NonLinearAds"
  }

  function CreativeSize(cs: seq<CreativeChild>): nat
    decreases |cs|
  {
    if cs == [] then 0 else CreativeChildSize(cs[0]) + CreativeSize(cs[1..])
  }

  predicate CreativeAt(evs: seq<Event>, pos: nat, cs: seq<CreativeChild>)
    decreases |cs|
  {
    cs == [] || (CreativeChildAt(evs, pos, cs[0]) && CreativeAt(evs, pos + CreativeChildSize(cs[0]), cs[1..]))
  }

  function ApplyCreative(c: Creative, ch: CreativeChild): Creative {
    match ch
    case LinearElement(cs) => c.(linear := Some(LinearValue(NoLinear, cs)))
    case CompanionAdsElement => c.(companionAds := Some(CompanionAds([])))
    case NonLinearAdsElement => c.(nonLinearAds := Some(NonLinearAds([])))
  }

  function CreativeValue(acc: Creative, cs: seq<CreativeChild>): Creative
    decreases |cs|
  {
    if cs == [] then acc else CreativeValue(ApplyCreative(acc, cs[0]), cs[1..])
  }

  function Linears(cs: seq<CreativeChild>): seq<Linear>
    decreases |cs|
  {
    if cs == [] then []
    else (if cs[0].LinearElement? then [LinearValue(NoLinear, cs[0].children)] else []) + Linears(cs[1..])
  }

  /** The last Linear wins; CompanionAds and NonLinearAds are set (to empty
      lists) exactly when such a child occurs; the attributes are untouched. */
  lemma {:induction false} CreativeValueContents(acc: Creative, cs: seq<CreativeChild>)
    ensures CreativeValue(acc, cs).linear == Latest(Linears(cs), acc.linear)
    ensures CreativeValue(acc, cs).companionAds
            == if CompanionAdsElement in cs then Some(CompanionAds([])) else acc.companionAds
    ensures CreativeValue(acc, cs).nonLinearAds
            == if NonLinearAdsElement in cs then Some(NonLinearAds([])) else acc.nonLinearAds
    ensures CreativeValue(acc, cs).id == acc.id && CreativeValue(acc, cs).sequence == acc.sequence
    ensures CreativeValue(acc, cs).adId == acc.adId && CreativeValue(acc, cs).apiFramework == acc.apiFramework
    decreases |cs|
  {
    if cs != [] {
      var c, rest := cs[0], cs[1..];
      assert cs == [c] + rest;
      CreativeValueContents(ApplyCreative(acc, c), rest);
      if c.LinearElement? {
        LatestCons(LinearValue(NoLinear, c.children), Linears(rest), acc.linear);
      } else {
        assert Linears(cs) == Linears(rest);
      }
    }
  }

  /** A `<Creative>` element: its attributes and its run of children. */
  datatype CreativeNode = CreativeNode(attrs: seq<Attr>, children: seq<CreativeChild>)

  function CreativeNodeSize(n: CreativeNode): nat {
    CreativeSize(n.children) + 2
  }

  predicate CreativeNodeAt(evs: seq<Event>, pos: nat, n: CreativeNode) {
    At(evs, pos) == Start("Creative", n.attrs) && CreativeAt(evs, pos + 1, n.children)
    && At(evs, pos + 1 + CreativeSize(n.children)) == End("Creative")
  }

  function NodesSize(ns: seq<CreativeNode>): nat
    decreases |ns|
  {
    if ns == [] then 0 else CreativeNodeSize(ns[0]) + NodesSize(ns[1..])
  }

  predicate CreativeNodesAt(evs: seq<Event>, pos: nat, ns: seq<CreativeNode>)
    decreases |ns|
  {
    ns == [] || (CreativeNodeAt(evs, pos, ns[0]) && CreativeNodesAt(evs, pos + CreativeNodeSize(ns[0]), ns[1..]))
  }

  function CreativeOf(n: CreativeNode): Creative {
    CreativeValue(FoldAttrs(n.attrs, NoCreative, CreativeAttr), n.children)
  }

  function CreativesOf(ns: seq<CreativeNode>): (r: seq<Creative>)
    ensures |r| == |ns|
    decreases |ns|
  {
    if ns == [] then [] else [CreativeOf(ns[0])] + CreativesOf(ns[1..])
  }
}
