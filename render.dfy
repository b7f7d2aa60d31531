/** The XML writer of src/stitcher.rs (vast_to_xml and its helpers). Each helper
    appends fixed, indented fragments to a fresh string, so each is a function
    here. Values are inserted as they are, without escaping; URLs are wrapped in
    CDATA sections. Numbers are written in decimal, booleans as true/false. */
module Render {
  import opened Models
  import opened Numbers

  const XmlDecl := "<?xml version=\"1.0\" encoding=\"UTF-8\"?>\n"

  /** The first two lines of every rendered document. */
  function Header(version: string): string {
    XmlDecl + "<VAST version=\"" + version + "\">\n"
  }

  predicate EndsWith(s: string, suffix: string) {
    |suffix| <= |s| && s[|s| - |suffix|..] == suffix
  }

  /** An element's text: its opening text, its content, its closing text. */
  function Wrap(open: string, body: string, close: string): (xml: string)
    ensures open <= xml && EndsWith(xml, close)
    ensures |xml| == |open| + |body| + |close|
  {
    assert (open + body + close)[|open| + |body|..] == close;
    open + body + close
  }

  /** The items of `xs` rendered by `f` one after the other (a `for` loop that
      pushes each item's text). */
  function Join<T>(xs: seq<T>, f: T -> string): string
    decreases |xs|
  {
    if xs == [] then "" else Join(xs[..|xs| - 1], f) + f(xs[|xs| - 1])
  }

  /** ` name="value"` */
  function AttrXml(name: string, value: string): string {
    " " + name + "=\"" + value + "\""
  }

  /** The attribute when the value is present, nothing otherwise. */
  function OptAttr(name: string, value: Option<string>): string {
    if value.Some? then AttrXml(name, value.value) else ""
  }

  function OptNumAttr(name: string, value: Option<u32>): string {
    if value.Some? then AttrXml(name, ShowNat(value.value)) else ""
  }

  function OptBoolAttr(name: string, value: Option<bool>): string {
    if value.Some? then AttrXml(name, ShowBool(value.value)) else ""
  }

  function CData(s: string): string {
    "<![CDATA[" + s + "]]>"
  }

  /** `indent<Name>text</Name>\n` when the value is present. */
  function OptElement(indent: string, name: string, value: Option<string>): string {
    if value.Some? then indent + "<" + name + ">" + value.value + "</" + name + ">\n" else ""
  }

  /** `indent<Name><![CDATA[url]]></Name>\n` */
  function UrlElement(indent: string, name: string, url: string): string {
    indent + "<" + name + ">" + CData(url) + "</" + name + ">\n"
  }

  function OptUrlElement(indent: string, name: string, url: Option<string>): string {
    if url.Some? then UrlElement(indent, name, url.value) else ""
  }

  // ---------------------------------------------------------------------------
  // vast_to_xml, ad_to_xml

  /** vast_to_xml: the declaration, the root element, its error and the ads; no
      newline after the closing tag. */
  function VastToXml(v: Vast): (xml: string)
    ensures Header(v.version) <= xml
    ensures EndsWith(xml, "</VAST>")
  {
    assert Header(v.version) <= Header(v.version) + OptUrlElement("  ", "Error", v.error);
    Wrap(Header(v.version) + OptUrlElement("  ", "Error", v.error), Join(v.ads, AdToXml), "</VAST>")
  }

  /** The `<Ad ...>` line: attributes in the order id, sequence, conditionalAd. */
  function AdOpen(ad: Ad): string {
    "  <Ad" + OptAttr("id", ad.id) + OptNumAttr("sequence", ad.sequence)
    + OptBoolAttr("conditionalAd", ad.conditionalAd) + ">\n"
  }

  /** ad_to_xml: the InLine is written when present, else the Wrapper, else
      nothing between the tags. */
  function AdToXml(ad: Ad): (xml: string)
    ensures AdOpen(ad) <= xml && EndsWith(xml, "  </Ad>\n")
  {
    Wrap(AdOpen(ad), AdBody(ad), "  </Ad>\n")
  }

  function AdBody(ad: Ad): string {
    if ad.inline.Some? then InlineToXml(ad.inline.value)
    else if ad.wrapper.Some? then WrapperToXml(ad.wrapper.value)
    else ""
  }

  // ---------------------------------------------------------------------------
  // inline_to_xml, wrapper_to_xml

  function AdSystemXml(s: AdSystem): string {
    "      <AdSystem" + OptAttr("version", s.version) + ">" + s.name + "</AdSystem>\n"
  }

  function ImpressionXml(i: Impression): string {
    "      <Impression" + OptAttr("id", i.id) + ">" + CData(i.url) + "</Impression>\n"
  }

  function PricingXml(p: Option<Pricing>): string {
    if p.None? then ""
    else
      "      <Pricing" + AttrXml("model", p.value.model) + AttrXml("currency", p.value.currency) + ">"
      + p.value.value + "</Pricing>\n"
  }

  function ExtensionXml(e: Extension): string {
    "        <Extension" + OptAttr("type", e.extensionType) + ">" + e.content + "</Extension>\n"
  }

  /** The Extensions block, left out when there is no extension. */
  function ExtensionsXml(es: seq<Extension>): string {
    if es == [] then "" else "      <Extensions>\n" + Join(es, ExtensionXml) + "      </Extensions>\n"
  }

  /** The Creatives block, left out when there is no creative. */
  function CreativesXml(cs: seq<Creative>): string {
    if cs == [] then "" else "      <Creatives>\n" + Join(cs, CreativeToXml) + "      </Creatives>\n"
  }

  /** inline_to_xml. */
  function InlineToXml(i: InLine): (xml: string)
    ensures "    <InLine>\n" <= xml && EndsWith(xml, "    </InLine>\n")
  {
    Wrap("    <InLine>\n", InlineBody(i), "    </InLine>\n")
  }

  function InlineBody(i: InLine): string {
    AdSystemXml(i.adSystem)
    + "      <AdTitle>" + i.adTitle + "</AdTitle>\n"
    + OptElement("      ", "Description", i.description)
    + OptElement("      ", "Advertiser", i.advertiser)
    + OptUrlElement("      ", "Survey", i.survey)
    + Join(i.impressions, ImpressionXml)
    + OptUrlElement("      ", "Error", i.error)
    + PricingXml(i.pricing)
    + ExtensionsXml(i.extensions)
    + CreativesXml(i.creatives)
  }

  /** wrapper_to_xml: the wrapper's extensions are not written. */
  function WrapperToXml(w: Wrapper): (xml: string)
    ensures "    <Wrapper>\n" <= xml && EndsWith(xml, "    </Wrapper>\n")
  {
    Wrap("    <Wrapper>\n", WrapperBody(w), "    </Wrapper>\n")
  }

  function WrapperBody(w: Wrapper): string {
    AdSystemXml(w.adSystem)
    + UrlElement("      ", "VASTAdTagURI", w.vastAdTagUri)
    + Join(w.impressions, ImpressionXml)
    + OptUrlElement("      ", "Error", w.error)
    + CreativesXml(w.creatives)
  }

  // ---------------------------------------------------------------------------
  // creative_to_xml, linear_to_xml

  function CreativeOpen(c: Creative): string {
    "        <Creative" + OptAttr("id", c.id) + OptNumAttr("sequence", c.sequence)
    + OptAttr("adId", c.adId) + OptAttr("apiFramework", c.apiFramework) + ">\n"
  }

  /** creative_to_xml: each payload that is present, in the order Linear,
      CompanionAds, NonLinearAds. */
  function CreativeToXml(c: Creative): (xml: string)
    ensures CreativeOpen(c) <= xml && EndsWith(xml, "        </Creative>\n")
  {
    Wrap(CreativeOpen(c), CreativeBody(c), "        </Creative>\n")
  }

  function CreativeBody(c: Creative): string {
    (if c.linear.Some? then LinearToXml(c.linear.value) else "")
    + (if c.companionAds.Some? then CompanionAdsToXml(c.companionAds.value) else "")
    + (if c.nonLinearAds.Some? then NonLinearAdsToXml(c.nonLinearAds.value) else "")
  }

  /** One `<Tracking>` line at the given indentation. */
  function TrackingXml(indent: string, e: TrackingEvent): string {
    indent + "<Tracking" + AttrXml("event", e.event) + ">" + CData(e.url) + "</Tracking>\n"
  }

  function LinearTrackingXml(e: TrackingEvent): string {
    TrackingXml("              ", e)
  }

  function ClickTrackingXml(url: string): string {
    UrlElement("              ", "ClickTracking", url)
  }

  function CustomClickXml(url: string): string {
    UrlElement("              ", "CustomClick", url)
  }

  function VideoClicksXml(v: Option<VideoClicks>): string {
    if v.None? then ""
    else
      "            <VideoClicks>\n"
      + OptUrlElement("              ", "ClickThrough", v.value.clickThrough)
      + Join(v.value.clickTracking, ClickTrackingXml)
      + Join(v.value.customClick, CustomClickXml)
      + "            </VideoClicks>\n"
  }

  /** One `<MediaFile>` line: attributes in the order type, delivery, width,
      height, codec, bitrate; the media type is not written. */
  function MediaFileXml(m: MediaFile): string {
    "              <MediaFile" + AttrXml("type", m.mimeType) + OptAttr("delivery", m.delivery)
    + OptNumAttr("width", m.width) + OptNumAttr("height", m.height) + OptAttr("codec", m.codec)
    + OptNumAttr("bitrate", m.bitrate) + ">" + CData(m.url) + "</MediaFile>\n"
  }

  /** linear_to_xml: Duration, TrackingEvents, VideoClicks, MediaFiles, each left
      out when absent or empty. */
  function LinearToXml(l: Linear): (xml: string)
    ensures "          <Linear>\n" <= xml && EndsWith(xml, "          </Linear>\n")
  {
    Wrap("          <Linear>\n", LinearBody(l), "          </Linear>\n")
  }

  function LinearBody(l: Linear): string {
    OptElement("            ", "Duration", l.duration)
    + (if l.trackingEvents == [] then ""
       else "            <TrackingEvents>\n" + Join(l.trackingEvents, LinearTrackingXml)
            + "            </TrackingEvents>\n")
    + VideoClicksXml(l.videoClicks)
    + (if l.mediaFiles == [] then ""
       else "            <MediaFiles>\n" + Join(l.mediaFiles, MediaFileXml) + "            </MediaFiles>\n")
  }

  // ---------------------------------------------------------------------------
  // companion_ads_to_xml, non_linear_ads_to_xml

  /** The resource element for the three known resource types; none otherwise. */
  function ResourceXml(resourceType: string, resource: string): string {
    if resourceType in {"StaticResource", "IFrameResource", "HTMLResource"}
    then UrlElement("              ", resourceType, resource)
    else ""
  }

  function CompanionTrackingXml(e: TrackingEvent): string {
    TrackingXml("                ", e)
  }

  function CompanionXml(c: Companion): string {
    "            <Companion" + OptAttr("id", c.id)
    + AttrXml("width", ShowNat(c.width)) + AttrXml("height", ShowNat(c.height)) + ">\n"
    + ResourceXml(c.resourceType, c.resource)
    + OptUrlElement("              ", "CompanionClickThrough", c.clickThrough)
    + (if c.trackingEvents == [] then ""
       else "              <TrackingEvents>\n" + Join(c.trackingEvents, CompanionTrackingXml)
            + "              </TrackingEvents>\n")
    + "            </Companion>\n"
  }

  function CompanionAdsToXml(c: CompanionAds): (xml: string)
    ensures "          <CompanionAds>\n" <= xml && EndsWith(xml, "          </CompanionAds>\n")
  {
    Wrap("          <CompanionAds>\n", Join(c.companions, CompanionXml), "          </CompanionAds>\n")
  }

  function NonLinearXml(n: NonLinear): string {
    "            <NonLinear" + OptAttr("id", n.id)
    + AttrXml("width", ShowNat(n.width)) + AttrXml("height", ShowNat(n.height))
    + OptNumAttr("expandedWidth", n.expandWidth) + OptNumAttr("expandedHeight", n.expandHeight)
    + OptBoolAttr("scalable", n.scalable) + OptBoolAttr("maintainAspectRatio", n.maintainAspectRatio)
    + ">\n"
    + ResourceXml(n.resourceType, n.resource)
    + OptUrlElement("              ", "NonLinearClickThrough", n.clickThrough)
    + "            </NonLinear>\n"
  }

  function NonLinearAdsToXml(n: NonLinearAds): (xml: string)
    ensures "          <NonLinearAds>\n" <= xml && EndsWith(xml, "          </NonLinearAds>\n")
  {
    Wrap("          <NonLinearAds>\n", Join(n.nonLinears, NonLinearXml), "          </NonLinearAds>\n")
  }

  // ---------------------------------------------------------------------------
  // Properties

  /** Rendering a list piecewise is rendering it whole. */
  lemma {:induction false} JoinAppend<T>(a: seq<T>, b: seq<T>, f: T -> string)
    ensures Join(a + b, f) == Join(a, f) + Join(b, f)
    decreases |b|
  {
    if b == [] {
      assert a + b == a;
    } else {
      assert (a + b)[..|a + b| - 1] == a + b[..|b| - 1];
      JoinAppend(a, b[..|b| - 1], f);
    }
  }

  /** With both payloads present only the InLine is written. */
  lemma InlinePreferred(ad: Ad)
    requires ad.inline.Some?
    ensures AdToXml(ad) == AdToXml(ad.(wrapper := None))
  {
  }

  /** An ad with neither payload renders as its open and close tags. */
  lemma EmptyAd(ad: Ad)
    requires ad.inline.None? && ad.wrapper.None?
    ensures AdToXml(ad) == Wrap(AdOpen(ad), "", "  </Ad>\n")
  {
  }

  /** Wrapper extensions never reach the output. */
  lemma WrapperExtensionsDropped(w: Wrapper, es: seq<Extension>)
    ensures WrapperToXml(w) == WrapperToXml(w.(extensions := es))
  {
  }

  /** The media type of a media file never reaches the output. */
  lemma MediaTypeDropped(m: MediaFile, t: Option<string>)
    ensures MediaFileXml(m) == MediaFileXml(m.(mediaType := t))
  {
  }

  /** A Linear with nothing in it renders as its two tags. */
  lemma EmptyLinear()
    ensures LinearToXml(Linear(None, [], None, [])) == Wrap("          <Linear>\n", "", "          </Linear>\n")
  {
  }

  /** The CompanionAds and NonLinearAds the parser produces (always empty) render
      as their two tags. */
  lemma EmptyCompanionsAndNonLinears()
    ensures CompanionAdsToXml(CompanionAds([])) == Wrap("          <CompanionAds>\n", "", "          </CompanionAds>\n")
    ensures NonLinearAdsToXml(NonLinearAds([])) == Wrap("          <NonLinearAds>\n", "", "          </NonLinearAds>\n")
  {
  }

  /** The document's text is its header, error line and each ad's text in order:
      an ad appended to the document appends its text before the closing tag. */
  lemma {:induction false} VastToXmlAppendAd(v: Vast, ad: Ad)
    ensures VastToXml(v.(ads := v.ads + [ad]))
            == Wrap(Header(v.version) + OptUrlElement("  ", "Error", v.error),
                    Join(v.ads, AdToXml) + AdToXml(ad), "</VAST>")
  {
    JoinAppend(v.ads, [ad], AdToXml);
    assert Join([ad], AdToXml) == AdToXml(ad) by {
      assert [ad][..0] == [];
    }
  }

  /** Numeric attributes are written so that the parser reads back the same value,
      and boolean attributes so that its case-insensitive "true" test does. */
  lemma AttributeRoundTrip(n: u32, b: bool)
    ensures OptNumAttr("sequence", Some(n)) == AttrXml("sequence", ShowNat(n)) && ParseU32(ShowNat(n)) == Some(n)
    ensures OptBoolAttr("conditionalAd", Some(b)) == AttrXml("conditionalAd", ShowBool(b))
            && IsTrueText(ShowBool(b)) == b
  {
    ParseShowU32(n);
    ReadShowBool(b);
  }
}
