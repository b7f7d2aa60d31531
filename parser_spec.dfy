/** Reference definitions of the streaming parser of src/parser.rs.

    Every `loop { match reader.read_event_into(..) { .. } }` of the source is one
    tail-recursive function here: its arguments are the event stream, the cursor
    and the value the loop is filling (the accumulator); it returns the finished
    value with the cursor just after the consumed events, or the error the loop
    returns. The methods of module Parser are proved equal to these functions, and
    module ParserProps proves what the parser promises about them. */
module ParserSpec {
  import opened Models
  import opened Errors
  import opened XmlEvents
  import opened Numbers

  /** A value read by a parser and the cursor just after the events it consumed. */
  datatype Parsed<+T> = Parsed(value: T, next: nat)

  const UnexpectedEof: VastError := Other("Unexpected end of file")
  const MissingVersion: VastError := MissingField("VAST version")

  // ---------------------------------------------------------------------------
  // Initial values of the structs the loops fill

  const NoAd := Ad(None, None, None, None, None)
  const NoAdSystem := AdSystem("", None)
  const NoInLine := InLine(NoAdSystem, "", [], None, None, None, None, None, [], [])
  const NoWrapper := Wrapper(NoAdSystem, "", [], None, [], [])
  const NoImpression := Impression(None, "")
  const NoPricing := Pricing("", "", "")
  const NoExtension := Extension(None, "")
  const NoCreative := Creative(None, None, None, None, None, None, None)
  const NoLinear := Linear(None, [], None, [])
  const NoMediaFile := MediaFile("", "", None, None, None, None, None, None)
  const NoVideoClicks := VideoClicks(None, [], [])
  const NoTrackingEvent := TrackingEvent("", "")

  // ---------------------------------------------------------------------------
  // Attribute steps: what one attribute does to the struct being filled.
  // An attribute whose value is not UTF-8 is ignored; so is an unknown key.

  function VersionAttr(a: Attr, version: string): string {
    if a.key == "version" && a.value.Some? then a.value.value else version
  }

  function AdAttr(a: Attr, ad: Ad): Ad {
    match a.value
    case None => ad
    case Some(v) =>
      if a.key == "id" then ad.(id := Some(v))
      else if a.key == "sequence" then
        (match ParseU32(v)
         case Some(n) => ad.(sequence := Some(n))
         case None => ad)
      else if a.key == "conditionalAd" then ad.(conditionalAd := Some(IsTrueText(v)))
      else ad
  }

  function AdSystemAttr(a: Attr, s: AdSystem): AdSystem {
    if a.key == "version" && a.value.Some? then s.(version := Some(a.value.value)) else s
  }

  function ImpressionAttr(a: Attr, i: Impression): Impression {
    if a.key == "id" && a.value.Some? then i.(id := Some(a.value.value)) else i
  }

  function PricingAttr(a: Attr, p: Pricing): Pricing {
    match a.value
    case None => p
    case Some(v) =>
      if a.key == "model" then p.(model := v)
      else if a.key == "currency" then p.(currency := v)
      else p
  }

  function ExtensionAttr(a: Attr, e: Extension): Extension {
    if a.key == "type" && a.value.Some? then e.(extensionType := Some(a.value.value)) else e
  }

  function CreativeAttr(a: Attr, c: Creative): Creative {
    match a.value
    case None => c
    case Some(v) =>
      if a.key == "id" then c.(id := Some(v))
      else if a.key == "sequence" then
        (match ParseU32(v)
         case Some(n) => c.(sequence := Some(n))
         case None => c)
      else if a.key == "adId" then c.(adId := Some(v))
      else if a.key == "apiFramework" then c.(apiFramework := Some(v))
      else c
  }

  function MediaFileAttr(a: Attr, m: MediaFile): MediaFile {
    match a.value
    case None => m
    case Some(v) =>
      if a.key == "type" then m.(mimeType := v)
      else if a.key == "codec" then m.(codec := Some(v))
      else if a.key == "bitrate" then
        (match ParseU32(v) case Some(n) => m.(bitrate := Some(n)) case None => m)
      else if a.key == "width" then
        (match ParseU32(v) case Some(n) => m.(width := Some(n)) case None => m)
      else if a.key == "height" then
        (match ParseU32(v) case Some(n) => m.(height := Some(n)) case None => m)
      else if a.key == "delivery" then m.(delivery := Some(v))
      else if a.key == "mediaType" then m.(mediaType := Some(v))
      else m
  }

  function TrackingAttr(a: Attr, t: TrackingEvent): TrackingEvent {
    if a.key == "event" && a.value.Some? then t.(event := a.value.value) else t
  }

  // ---------------------------------------------------------------------------
  // parse_vast and parse_ads

  /** parse_vast: events before the first `<VAST>` start tag are passed over; that
      tag must carry a non-empty version, then the ads follow. Reaching the end
      first yields an empty document with an empty version. */
  function VastSpec(evs: seq<Event>, pos: nat): (r: Result<Vast>)
    requires pos <= |evs|
    ensures r.Ok? ==> r.value.error == None
    ensures r.Ok? && r.value.version == "" ==> r.value.ads == []
    decreases |evs| - pos
  {
    match At(evs, pos)
    case Start(n, attrs) =>
      if n == "VAST" then
        var version := FoldAttrs(attrs, "", VersionAttr);
        if version == "" then Err(MissingVersion)
        else
          var ads :- AdsSpec(evs, pos + 1, []);
          Ok(Vast(version, ads.value, None))
      else VastSpec(evs, pos + 1)
    case Eof => Ok(Vast("", [], None))
    case XmlErr => Err(XmlParseError)
    case _ => VastSpec(evs, pos + 1)
  }

  /** parse_ads: each `<Ad>` is parsed and appended; `</VAST>` or the end of the
      input ends the list without error. */
  function AdsSpec(evs: seq<Event>, pos: nat, acc: seq<Ad>): (r: Result<Parsed<seq<Ad>>>)
    requires pos <= |evs|
    ensures r.Ok? ==> pos <= r.value.next <= |evs|
    ensures r.Ok? ==> acc <= r.value.value
    decreases |evs| - pos
  {
    match At(evs, pos)
    case Start(n, attrs) =>
      if n == "Ad" then
        var ad :- AdSpec(evs, pos + 1, FoldAttrs(attrs, NoAd, AdAttr));
        AdsSpec(evs, ad.next, acc + [ad.value])
      else AdsSpec(evs, pos + 1, acc)
    case End(n) => if n == "VAST" then Ok(Parsed(acc, pos + 1)) else AdsSpec(evs, pos + 1, acc)
    case Eof => Ok(Parsed(acc, pos))
    case XmlErr => Err(XmlParseError)
    case _ => AdsSpec(evs, pos + 1, acc)
  }

  /** The loop of parse_ad_element: `<InLine>` and `<Wrapper>` each overwrite their
      option, any other child is skipped, `</Ad>` ends the ad. */
  function AdSpec(evs: seq<Event>, pos: nat, acc: Ad): (r: Result<Parsed<Ad>>)
    requires pos <= |evs|
    ensures r.Ok? ==> pos < r.value.next <= |evs|
    ensures r.Ok? ==> r.value.value.id == acc.id && r.value.value.sequence == acc.sequence
                      && r.value.value.conditionalAd == acc.conditionalAd
    ensures r.Ok? ==> evs[r.value.next - 1] == End("Ad")
    decreases |evs| - pos
  {
    match At(evs, pos)
    case Start(n, _) =>
      var child :- AdChildSpec(evs, pos + 1, n, acc);
      AdSpec(evs, child.next, child.value)
    case End(n) => if n == "Ad" then Ok(Parsed(acc, pos + 1)) else AdSpec(evs, pos + 1, acc)
    case Eof => Err(UnexpectedEof)
    case XmlErr => Err(XmlParseError)
    case _ => AdSpec(evs, pos + 1, acc)
  }

  /** One child of `<Ad>` whose start tag `name` has just been read. */
  function AdChildSpec(evs: seq<Event>, pos: nat, name: string, acc: Ad): (r: Result<Parsed<Ad>>)
    requires pos <= |evs|
    ensures r.Ok? ==> pos < r.value.next <= |evs|
    ensures r.Ok? ==> r.value.value.id == acc.id && r.value.value.sequence == acc.sequence
                      && r.value.value.conditionalAd == acc.conditionalAd
  {
    if name == "InLine" then
      var inline :- InlineSpec(evs, pos, NoInLine);
      Ok(Parsed(acc.(inline := Some(inline.value)), inline.next))
    else if name == "Wrapper" then
      var wrapper :- WrapperSpec(evs, pos, NoWrapper);
      Ok(Parsed(acc.(wrapper := Some(wrapper.value)), wrapper.next))
    else
      var next :- SkipSpec(evs, pos, name, 0);
      Ok(Parsed(acc, next))
  }

  // ---------------------------------------------------------------------------
  // InLine and Wrapper

  /** The loop of parse_inline_element. */
  function InlineSpec(evs: seq<Event>, pos: nat, acc: InLine): (r: Result<Parsed<InLine>>)
    requires pos <= |evs|
    ensures r.Ok? ==> pos < r.value.next <= |evs|
    ensures r.Ok? ==> acc.impressions <= r.value.value.impressions
    ensures r.Ok? ==> evs[r.value.next - 1] == End("InLine")
    decreases |evs| - pos
  {
    match At(evs, pos)
    case Start(n, attrs) =>
      var child :- InlineChildSpec(evs, pos + 1, n, attrs, acc);
      InlineSpec(evs, child.next, child.value)
    case End(n) => if n == "InLine" then Ok(Parsed(acc, pos + 1)) else InlineSpec(evs, pos + 1, acc)
    case Eof => Err(UnexpectedEof)
    case XmlErr => Err(XmlParseError)
    case _ => InlineSpec(evs, pos + 1, acc)
  }

  /** One child of `<InLine>` whose start tag `name` has just been read: Impression
      appends, every other known child overwrites its field, unknown children are
      skipped. */
  function InlineChildSpec(evs: seq<Event>, pos: nat, name: string, attrs: seq<Attr>, acc: InLine)
    : (r: Result<Parsed<InLine>>)
    requires pos <= |evs|
    ensures r.Ok? ==> pos < r.value.next <= |evs|
    ensures r.Ok? ==> acc.impressions <= r.value.value.impressions
  {
    if name == "AdSystem" then
      var s :- AdSystemSpec(evs, pos, attrs);
      Ok(Parsed(acc.(adSystem := s.value), s.next))
    else if name == "AdTitle" then
      var t :- ReadTextSpec(evs, pos, "");
      Ok(Parsed(acc.(adTitle := t.value), t.next))
    else if name == "Impression" then
      var i :- ImpressionSpec(evs, pos, attrs);
      Ok(Parsed(acc.(impressions := acc.impressions + [i.value]), i.next))
    else if name == "Description" then
      var t :- ReadTextSpec(evs, pos, "");
      Ok(Parsed(acc.(description := Some(t.value)), t.next))
    else if name == "Advertiser" then
      var t :- ReadTextSpec(evs, pos, "");
      Ok(Parsed(acc.(advertiser := Some(t.value)), t.next))
    else if name == "Survey" then
      var t :- ReadTextSpec(evs, pos, "");
      Ok(Parsed(acc.(survey := Some(t.value)), t.next))
    else if name == "Error" then
      var t :- ReadTextSpec(evs, pos, "");
      Ok(Parsed(acc.(error := Some(t.value)), t.next))
    else if name == "Pricing" then
      var p :- PricingSpec(evs, pos, attrs);
      Ok(Parsed(acc.(pricing := Some(p.value)), p.next))
    else if name == "Extensions" then
      var e :- ExtensionsSpec(evs, pos, []);
      Ok(Parsed(acc.(extensions := e.value), e.next))
    else if name == "Creatives" then
      var c :- CreativesSpec(evs, pos, []);
      Ok(Parsed(acc.(creatives := c.value), c.next))
    else
      var next :- SkipSpec(evs, pos, name, 0);
      Ok(Parsed(acc, next))
  }

  /** The loop of parse_wrapper_element. */
  function WrapperSpec(evs: seq<Event>, pos: nat, acc: Wrapper): (r: Result<Parsed<Wrapper>>)
    requires pos <= |evs|
    ensures r.Ok? ==> pos < r.value.next <= |evs|
    ensures r.Ok? ==> acc.impressions <= r.value.value.impressions
    ensures r.Ok? ==> evs[r.value.next - 1] == End("Wrapper")
    decreases |evs| - pos
  {
    match At(evs, pos)
    case Start(n, attrs) =>
      var child :- WrapperChildSpec(evs, pos + 1, n, attrs, acc);
      WrapperSpec(evs, child.next, child.value)
    case End(n) => if n == "Wrapper" then Ok(Parsed(acc, pos + 1)) else WrapperSpec(evs, pos + 1, acc)
    case Eof => Err(UnexpectedEof)
    case XmlErr => Err(XmlParseError)
    case _ => WrapperSpec(evs, pos + 1, acc)
  }

  /** One child of `<Wrapper>`, as InlineChildSpec. */
  function WrapperChildSpec(evs: seq<Event>, pos: nat, name: string, attrs: seq<Attr>, acc: Wrapper)
    : (r: Result<Parsed<Wrapper>>)
    requires pos <= |evs|
    ensures r.Ok? ==> pos < r.value.next <= |evs|
    ensures r.Ok? ==> acc.impressions <= r.value.value.impressions
  {
    if name == "AdSystem" then
      var s :- AdSystemSpec(evs, pos, attrs);
      Ok(Parsed(acc.(adSystem := s.value), s.next))
    else if name == "VASTAdTagURI" then
      var t :- ReadTextSpec(evs, pos, "");
      Ok(Parsed(acc.(vastAdTagUri := t.value), t.next))
    else if name == "Impression" then
      var i :- ImpressionSpec(evs, pos, attrs);
      Ok(Parsed(acc.(impressions := acc.impressions + [i.value]), i.next))
    else if name == "Error" then
      var t :- ReadTextSpec(evs, pos, "");
      Ok(Parsed(acc.(error := Some(t.value)), t.next))
    else if name == "Extensions" then
      var e :- ExtensionsSpec(evs, pos, []);
      Ok(Parsed(acc.(extensions := e.value), e.next))
    else if name == "Creatives" then
      var c :- CreativesSpec(evs, pos, []);
      Ok(Parsed(acc.(creatives := c.value), c.next))
    else
      var next :- SkipSpec(evs, pos, name, 0);
      Ok(Parsed(acc, next))
  }

  // ---------------------------------------------------------------------------
  // read_text_element and skip_element

  /** read_text_element: every Text or CDATA payload replaces `text` (the last one
      wins, nothing is concatenated); the first end tag of ANY name ends the read. */
  function ReadTextSpec(evs: seq<Event>, pos: nat, text: string): (r: Result<Parsed<string>>)
    requires pos <= |evs|
    ensures r.Ok? ==> pos < r.value.next <= |evs|
    ensures r.Ok? ==> evs[r.value.next - 1].End?
    decreases |evs| - pos
  {
    match At(evs, pos)
    case Text(t) =>
      if t.Some? then ReadTextSpec(evs, pos + 1, t.value) else Err(XmlParseError)
    case CData(d) => ReadTextSpec(evs, pos + 1, if d.Some? then d.value else text)
    case End(_) => Ok(Parsed(text, pos + 1))
    case Eof => Err(UnexpectedEof)
    case XmlErr => Err(XmlParseError)
    case _ => ReadTextSpec(evs, pos + 1, text)
  }

  /** skip_element, as written: `depth` starts counting only at a nested start tag
      named `name`; an end tag named `name` ends the skip at depth 0 or when it
      brings the depth back to 0. */
  function SkipSpec(evs: seq<Event>, pos: nat, name: string, depth: nat): (r: Result<nat>)
    requires pos <= |evs|
    ensures r.Ok? ==> pos < r.value <= |evs|
    ensures r.Ok? ==> evs[r.value - 1] == End(name)
    decreases |evs| - pos
  {
    match At(evs, pos)
    case Start(n, _) =>
      if n == name && depth == 0 then SkipSpec(evs, pos + 1, name, 1)
      else if depth > 0 then SkipSpec(evs, pos + 1, name, depth + 1)
      else SkipSpec(evs, pos + 1, name, depth)
    case End(n) =>
      if n == name then
        if depth == 0 || depth - 1 == 0 then Ok(pos + 1)
        else SkipSpec(evs, pos + 1, name, depth - 1)
      else if depth > 0 then SkipSpec(evs, pos + 1, name, depth - 1)
      else SkipSpec(evs, pos + 1, name, depth)
    case Eof => Err(UnexpectedEof)
    case XmlErr => Err(XmlParseError)
    case _ => SkipSpec(evs, pos + 1, name, depth)
  }

  // ---------------------------------------------------------------------------
  // Leaf elements: attributes, then the text content

  function AdSystemSpec(evs: seq<Event>, pos: nat, attrs: seq<Attr>): (r: Result<Parsed<AdSystem>>)
    requires pos <= |evs|
    ensures r.Ok? ==> pos < r.value.next <= |evs|
  {
    var s := FoldAttrs(attrs, NoAdSystem, AdSystemAttr);
    var name :- ReadTextSpec(evs, pos, "");
    Ok(Parsed(s.(name := name.value), name.next))
  }

  function ImpressionSpec(evs: seq<Event>, pos: nat, attrs: seq<Attr>): (r: Result<Parsed<Impression>>)
    requires pos <= |evs|
    ensures r.Ok? ==> pos < r.value.next <= |evs|
  {
    var i := FoldAttrs(attrs, NoImpression, ImpressionAttr);
    var url :- ReadTextSpec(evs, pos, "");
    Ok(Parsed(i.(url := url.value), url.next))
  }

  function PricingSpec(evs: seq<Event>, pos: nat, attrs: seq<Attr>): (r: Result<Parsed<Pricing>>)
    requires pos <= |evs|
    ensures r.Ok? ==> pos < r.value.next <= |evs|
  {
    var p := FoldAttrs(attrs, NoPricing, PricingAttr);
    var value :- ReadTextSpec(evs, pos, "");
    Ok(Parsed(p.(value := value.value), value.next))
  }

  function ExtensionSpec(evs: seq<Event>, pos: nat, attrs: seq<Attr>): (r: Result<Parsed<Extension>>)
    requires pos <= |evs|
    ensures r.Ok? ==> pos < r.value.next <= |evs|
  {
    var e := FoldAttrs(attrs, NoExtension, ExtensionAttr);
    var content :- ReadTextSpec(evs, pos, "");
    Ok(Parsed(e.(content := content.value), content.next))
  }

  function MediaFileSpec(evs: seq<Event>, pos: nat, attrs: seq<Attr>): (r: Result<Parsed<MediaFile>>)
    requires pos <= |evs|
    ensures r.Ok? ==> pos < r.value.next <= |evs|
  {
    var m := FoldAttrs(attrs, NoMediaFile, MediaFileAttr);
    var url :- ReadTextSpec(evs, pos, "");
    Ok(Parsed(m.(url := url.value), url.next))
  }

  function TrackingEventSpec(evs: seq<Event>, pos: nat, attrs: seq<Attr>): (r: Result<Parsed<TrackingEvent>>)
    requires pos <= |evs|
    ensures r.Ok? ==> pos < r.value.next <= |evs|
  {
    var t := FoldAttrs(attrs, NoTrackingEvent, TrackingAttr);
    var url :- ReadTextSpec(evs, pos, "");
    Ok(Parsed(t.(url := url.value), url.next))
  }

  // ---------------------------------------------------------------------------
  // Lists: the start tag of the item appends one item, the list's own end tag
  // ends it, anything else (including other start tags) is passed over.

  function ExtensionsSpec(evs: seq<Event>, pos: nat, acc: seq<Extension>): (r: Result<Parsed<seq<Extension>>>)
    requires pos <= |evs|
    ensures r.Ok? ==> pos < r.value.next <= |evs|
    ensures r.Ok? ==> acc <= r.value.value
    ensures r.Ok? ==> evs[r.value.next - 1] == End("Extensions")
    decreases |evs| - pos
  {
    match At(evs, pos)
    case Start(n, attrs) =>
      if n == "Extension" then
        var e :- ExtensionSpec(evs, pos + 1, attrs);
        ExtensionsSpec(evs, e.next, acc + [e.value])
      else ExtensionsSpec(evs, pos + 1, acc)
    case End(n) => if n == "Extensions" then Ok(Parsed(acc, pos + 1)) else ExtensionsSpec(evs, pos + 1, acc)
    case Eof => Err(UnexpectedEof)
    case XmlErr => Err(XmlParseError)
    case _ => ExtensionsSpec(evs, pos + 1, acc)
  }

  function CreativesSpec(evs: seq<Event>, pos: nat, acc: seq<Creative>): (r: Result<Parsed<seq<Creative>>>)
    requires pos <= |evs|
    ensures r.Ok? ==> pos < r.value.next <= |evs|
    ensures r.Ok? ==> acc <= r.value.value
    ensures r.Ok? ==> evs[r.value.next - 1] == End("Creatives")
    decreases |evs| - pos
  {
    match At(evs, pos)
    case Start(n, attrs) =>
      if n == "Creative" then
        var c :- CreativeSpec(evs, pos + 1, FoldAttrs(attrs, NoCreative, CreativeAttr));
        CreativesSpec(evs, c.next, acc + [c.value])
      else CreativesSpec(evs, pos + 1, acc)
    case End(n) => if n == "Creatives" then Ok(Parsed(acc, pos + 1)) else CreativesSpec(evs, pos + 1, acc)
    case Eof => Err(UnexpectedEof)
    case XmlErr => Err(XmlParseError)
    case _ => CreativesSpec(evs, pos + 1, acc)
  }

  function MediaFilesSpec(evs: seq<Event>, pos: nat, acc: seq<MediaFile>): (r: Result<Parsed<seq<MediaFile>>>)
    requires pos <= |evs|
    ensures r.Ok? ==> pos < r.value.next <= |evs|
    ensures r.Ok? ==> acc <= r.value.value
    ensures r.Ok? ==> evs[r.value.next - 1] == End("MediaFiles")
    decreases |evs| - pos
  {
    match At(evs, pos)
    case Start(n, attrs) =>
      if n == "MediaFile" then
        var m :- MediaFileSpec(evs, pos + 1, attrs);
        MediaFilesSpec(evs, m.next, acc + [m.value])
      else MediaFilesSpec(evs, pos + 1, acc)
    case End(n) => if n == "MediaFiles" then Ok(Parsed(acc, pos + 1)) else MediaFilesSpec(evs, pos + 1, acc)
    case Eof => Err(UnexpectedEof)
    case XmlErr => Err(XmlParseError)
    case _ => MediaFilesSpec(evs, pos + 1, acc)
  }

  function TrackingEventsSpec(evs: seq<Event>, pos: nat, acc: seq<TrackingEvent>)
    : (r: Result<Parsed<seq<TrackingEvent>>>)
    requires pos <= |evs|
    ensures r.Ok? ==> pos < r.value.next <= |evs|
    ensures r.Ok? ==> acc <= r.value.value
    ensures r.Ok? ==> evs[r.value.next - 1] == End("TrackingEvents")
    decreases |evs| - pos
  {
    match At(evs, pos)
    case Start(n, attrs) =>
      if n == "Tracking" then
        var t :- TrackingEventSpec(evs, pos + 1, attrs);
        TrackingEventsSpec(evs, t.next, acc + [t.value])
      else TrackingEventsSpec(evs, pos + 1, acc)
    case End(n) =>
      if n == "TrackingEvents" then Ok(Parsed(acc, pos + 1)) else TrackingEventsSpec(evs, pos + 1, acc)
    case Eof => Err(UnexpectedEof)
    case XmlErr => Err(XmlParseError)
    case _ => TrackingEventsSpec(evs, pos + 1, acc)
  }

  // ---------------------------------------------------------------------------
  // Creative, Linear, VideoClicks

  /** The loop of parse_creative: each known payload overwrites its own option,
      so several payloads may be set; unknown children are skipped. */
  function CreativeSpec(evs: seq<Event>, pos: nat, acc: Creative): (r: Result<Parsed<Creative>>)
    requires pos <= |evs|
    ensures r.Ok? ==> pos < r.value.next <= |evs|
    ensures r.Ok? ==> evs[r.value.next - 1] == End("Creative")
    decreases |evs| - pos
  {
    match At(evs, pos)
    case Start(n, _) =>
      var child :- CreativeChildSpec(evs, pos + 1, n, acc);
      CreativeSpec(evs, child.next, child.value)
    case End(n) => if n == "Creative" then Ok(Parsed(acc, pos + 1)) else CreativeSpec(evs, pos + 1, acc)
    case Eof => Err(UnexpectedEof)
    case XmlErr => Err(XmlParseError)
    case _ => CreativeSpec(evs, pos + 1, acc)
  }

  function CreativeChildSpec(evs: seq<Event>, pos: nat, name: string, acc: Creative)
    : (r: Result<Parsed<Creative>>)
    requires pos <= |evs|
    ensures r.Ok? ==> pos < r.value.next <= |evs|
  {
    if name == "Linear" then
      var l :- LinearSpec(evs, pos, NoLinear);
      Ok(Parsed(acc.(linear := Some(l.value)), l.next))
    else if name == "CompanionAds" then
      var c :- CompanionAdsSpec(evs, pos);
      Ok(Parsed(acc.(companionAds := Some(c.value)), c.next))
    else if name == "NonLinearAds" then
      var n :- NonLinearAdsSpec(evs, pos);
      Ok(Parsed(acc.(nonLinearAds := Some(n.value)), n.next))
    else
      var next :- SkipSpec(evs, pos, name, 0);
      Ok(Parsed(acc, next))
  }

  /** The loop of parse_linear. */
  function LinearSpec(evs: seq<Event>, pos: nat, acc: Linear): (r: Result<Parsed<Linear>>)
    requires pos <= |evs|
    ensures r.Ok? ==> pos < r.value.next <= |evs|
    ensures r.Ok? ==> evs[r.value.next - 1] == End("Linear")
    decreases |evs| - pos
  {
    match At(evs, pos)
    case Start(n, _) =>
      var child :- LinearChildSpec(evs, pos + 1, n, acc);
      LinearSpec(evs, child.next, child.value)
    case End(n) => if n == "Linear" then Ok(Parsed(acc, pos + 1)) else LinearSpec(evs, pos + 1, acc)
    case Eof => Err(UnexpectedEof)
    case XmlErr => Err(XmlParseError)
    case _ => LinearSpec(evs, pos + 1, acc)
  }

  function LinearChildSpec(evs: seq<Event>, pos: nat, name: string, acc: Linear)
    : (r: Result<Parsed<Linear>>)
    requires pos <= |evs|
    ensures r.Ok? ==> pos < r.value.next <= |evs|
  {
    if name == "Duration" then
      var t :- ReadTextSpec(evs, pos, "");
      Ok(Parsed(acc.(duration := Some(t.value)), t.next))
    else if name == "MediaFiles" then
      var m :- MediaFilesSpec(evs, pos, []);
      Ok(Parsed(acc.(mediaFiles := m.value), m.next))
    else if name == "VideoClicks" then
      var v :- VideoClicksSpec(evs, pos, NoVideoClicks);
      Ok(Parsed(acc.(videoClicks := Some(v.value)), v.next))
    else if name == "TrackingEvents" then
      var t :- TrackingEventsSpec(evs, pos, []);
      Ok(Parsed(acc.(trackingEvents := t.value), t.next))
    else
      var next :- SkipSpec(evs, pos, name, 0);
      Ok(Parsed(acc, next))
  }

  /** The loop of parse_video_clicks: ClickThrough overwrites, ClickTracking and
      CustomClick append. */
  function VideoClicksSpec(evs: seq<Event>, pos: nat, acc: VideoClicks): (r: Result<Parsed<VideoClicks>>)
    requires pos <= |evs|
    ensures r.Ok? ==> pos < r.value.next <= |evs|
    ensures r.Ok? ==> acc.clickTracking <= r.value.value.clickTracking
    ensures r.Ok? ==> acc.customClick <= r.value.value.customClick
    ensures r.Ok? ==> evs[r.value.next - 1] == End("VideoClicks")
    decreases |evs| - pos
  {
    match At(evs, pos)
    case Start(n, _) =>
      var child :- VideoClicksChildSpec(evs, pos + 1, n, acc);
      VideoClicksSpec(evs, child.next, child.value)
    case End(n) => if n == "VideoClicks" then Ok(Parsed(acc, pos + 1)) else VideoClicksSpec(evs, pos + 1, acc)
    case Eof => Err(UnexpectedEof)
    case XmlErr => Err(XmlParseError)
    case _ => VideoClicksSpec(evs, pos + 1, acc)
  }

  function VideoClicksChildSpec(evs: seq<Event>, pos: nat, name: string, acc: VideoClicks)
    : (r: Result<Parsed<VideoClicks>>)
    requires pos <= |evs|
    ensures r.Ok? ==> pos < r.value.next <= |evs|
    ensures r.Ok? ==> acc.clickTracking <= r.value.value.clickTracking
    ensures r.Ok? ==> acc.customClick <= r.value.value.customClick
  {
    if name == "ClickThrough" then
      var t :- ReadTextSpec(evs, pos, "");
      Ok(Parsed(acc.(clickThrough := Some(t.value)), t.next))
    else if name == "ClickTracking" then
      var t :- ReadTextSpec(evs, pos, "");
      Ok(Parsed(acc.(clickTracking := acc.clickTracking + [t.value]), t.next))
    else if name == "CustomClick" then
      var t :- ReadTextSpec(evs, pos, "");
      Ok(Parsed(acc.(customClick := acc.customClick + [t.value]), t.next))
    else
      var next :- SkipSpec(evs, pos, name, 0);
      Ok(Parsed(acc, next))
  }

  /** parse_companion_ads: the subtree is skipped and the list stays empty. */
  function CompanionAdsSpec(evs: seq<Event>, pos: nat): (r: Result<Parsed<CompanionAds>>)
    requires pos <= |evs|
    ensures r.Ok? ==> pos < r.value.next <= |evs|
    ensures r.Ok? ==> r.value.value.companions == []
  {
    var next :- SkipSpec(evs, pos, "CompanionAds", 0);
    Ok(Parsed(CompanionAds([]), next))
  }

  /** parse_non_linear_ads: the subtree is skipped and the list stays empty. */
  function NonLinearAdsSpec(evs: seq<Event>, pos: nat): (r: Result<Parsed<NonLinearAds>>)
    requires pos <= |evs|
    ensures r.Ok? ==> pos < r.value.next <= |evs|
    ensures r.Ok? ==> r.value.value.nonLinears == []
  {
    var next :- SkipSpec(evs, pos, "NonLinearAds", 0);
    Ok(Parsed(NonLinearAds([]), next))
  }
}
