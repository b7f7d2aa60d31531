/** The typed VAST document model of src/models.rs. Every struct is an immutable
    value here; the parser and the merge build new values where the source fills
    or pushes into fields of a value it owns. */
module Models {

  datatype Option<+T> = None | Some(value: T)

  /** Rust's u32: every numeric field of the model lies in 0 .. 4294967295. */
  const U32Limit: int := 0x1_0000_0000
  type u32 = x: int | 0 <= x < 0x1_0000_0000

  /** A VAST document. `error` is a single optional URL, not a list. */
  datatype Vast = Vast(version: string, ads: seq<Ad>, error: Option<string>)

  /** An Ad. `inline` and `wrapper` are independent options: neither, one or
      both may be present. */
  datatype Ad = Ad(
    id: Option<string>,
    sequence: Option<u32>,
    conditionalAd: Option<bool>,
    inline: Option<InLine>,
    wrapper: Option<Wrapper>)

  datatype InLine = InLine(
    adSystem: AdSystem,
    adTitle: string,
    impressions: seq<Impression>,
    description: Option<string>,
    advertiser: Option<string>,
    survey: Option<string>,
    error: Option<string>,
    pricing: Option<Pricing>,
    extensions: seq<Extension>,
    creatives: seq<Creative>)

  datatype Wrapper = Wrapper(
    adSystem: AdSystem,
    vastAdTagUri: string,
    impressions: seq<Impression>,
    error: Option<string>,
    extensions: seq<Extension>,
    creatives: seq<Creative>)

  datatype AdSystem = AdSystem(name: string, version: Option<string>)

  datatype Impression = Impression(id: Option<string>, url: string)

  datatype Pricing = Pricing(model: string, currency: string, value: string)

  /** `extensionType` is the field the source calls `type`. */
  datatype Extension = Extension(extensionType: Option<string>, content: string)

  /** A Creative. Its three payloads are independent options: zero or several of
      them may be present. */
  datatype Creative = Creative(
    id: Option<string>,
    sequence: Option<u32>,
    adId: Option<string>,
    apiFramework: Option<string>,
    linear: Option<Linear>,
    companionAds: Option<CompanionAds>,
    nonLinearAds: Option<NonLinearAds>)

  datatype Linear = Linear(
    duration: Option<string>,
    mediaFiles: seq<MediaFile>,
    videoClicks: Option<VideoClicks>,
    trackingEvents: seq<TrackingEvent>)

  /** `mediaType` is the field the source calls `type` (the `mediaType` attribute);
      `mimeType` comes from the `type` attribute. */
  datatype MediaFile = MediaFile(
    url: string,
    mimeType: string,
    codec: Option<string>,
    bitrate: Option<u32>,
    width: Option<u32>,
    height: Option<u32>,
    delivery: Option<string>,
    mediaType: Option<string>)

  datatype VideoClicks = VideoClicks(
    clickThrough: Option<string>,
    clickTracking: seq<string>,
    customClick: seq<string>)

  /** `event` is a free-form tag: several events may share it. */
  datatype TrackingEvent = TrackingEvent(event: string, url: string)

  datatype CompanionAds = CompanionAds(companions: seq<Companion>)

  datatype Companion = Companion(
    id: Option<string>,
    width: u32,
    height: u32,
    resourceType: string,
    resource: string,
    clickThrough: Option<string>,
    trackingEvents: seq<TrackingEvent>)

  datatype NonLinearAds = NonLinearAds(nonLinears: seq<NonLinear>)

  datatype NonLinear = NonLinear(
    id: Option<string>,
    width: u32,
    height: u32,
    expandWidth: Option<u32>,
    expandHeight: Option<u32>,
    scalable: Option<bool>,
    maintainAspectRatio: Option<bool>,
    resourceType: string,
    resource: string,
    clickThrough: Option<string>)
}
