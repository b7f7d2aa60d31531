/** The streaming parser of src/parser.rs, one method per function of the source.

    Each method reads events from `evs` starting at cursor `pos` (the position of
    quick_xml's reader when the source function is entered) and returns what it
    built together with the cursor after the events it consumed. Each loop keeps the
    invariant that finishing the loop from its current state gives what the
    reference function of module ParserSpec gives from the initial state; the
    postcondition of every method is that equality. */
module Parser {
  import opened Models
  import opened Errors
  import opened XmlEvents
  import opened ParserSpec

  /** The `for attr in start.attributes()` loop shared by every element with
      attributes; `step` is what the loop body does to the struct being filled. */
  method ApplyAttrs<T>(attrs: seq<Attr>, init: T, step: (Attr, T) -> T) returns (r: T)
    ensures r == FoldAttrs(attrs, init, step)
  {
    r := init;
    var seen: set<string> := {};  // the keys the iterator's duplicate check has met
    var i := 0;
    while i < |attrs|
      invariant 0 <= i <= |attrs|
      invariant FoldUnseen(attrs[i..], seen, r, step) == FoldAttrs(attrs, init, step)
    {
      assert attrs[i..][1..] == attrs[i + 1..];
      if attrs[i].key !in seen {
        seen := seen + {attrs[i].key};
        r := step(attrs[i], r);
      }
      i := i + 1;
    }
  }

  /** parse_vast, over the whole event stream of the document. */
  method ParseVast(evs: seq<Event>) returns (r: Result<Vast>)
    ensures r == VastSpec(evs, 0)
  {
    var p := 0;
    while true
      invariant p <= |evs|
      invariant VastSpec(evs, p) == VastSpec(evs, 0)
      decreases |evs| - p
    {
      match At(evs, p)
      case Start(n, attrs) =>
        if n == "VAST" {
          var version := ApplyAttrs(attrs, "", VersionAttr);
          if version == "" {
            return Err(MissingVersion);
          }
          var ads :- ParseAds(evs, p + 1);
          return Ok(Vast(version, ads.value, None));
        }
        p := p + 1;
      case Eof =>
        return Ok(Vast("", [], None));
      case XmlErr =>
        return Err(XmlParseError);
      case _ =>
        p := p + 1;
    }
  }

  method ParseAds(evs: seq<Event>, pos: nat) returns (r: Result<Parsed<seq<Ad>>>)
    requires pos <= |evs|
    ensures r == AdsSpec(evs, pos, [])
  {
    var ads: seq<Ad> := [];
    var p := pos;
    while true
      invariant p <= |evs|
      invariant AdsSpec(evs, p, ads) == AdsSpec(evs, pos, [])
      decreases |evs| - p
    {
      match At(evs, p)
      case Start(n, attrs) =>
        if n == "Ad" {
          var ad :- ParseAdElement(evs, p + 1, attrs);
          ads := ads + [ad.value];
          p := ad.next;
        } else {
          p := p + 1;
        }
      case End(n) =>
        if n == "VAST" {
          return Ok(Parsed(ads, p + 1));
        }
        p := p + 1;
      case Eof =>
        return Ok(Parsed(ads, p));
      case XmlErr =>
        return Err(XmlParseError);
      case _ =>
        p := p + 1;
    }
  }

  /** parse_ad_element; `attrs` are the attributes of the `<Ad>` start tag. */
  method ParseAdElement(evs: seq<Event>, pos: nat, attrs: seq<Attr>) returns (r: Result<Parsed<Ad>>)
    requires pos <= |evs|
    ensures r == AdSpec(evs, pos, FoldAttrs(attrs, NoAd, AdAttr))
  {
    var ad := ApplyAttrs(attrs, NoAd, AdAttr);
    ghost var init := ad;
    var p := pos;
    while true
      invariant p <= |evs|
      invariant AdSpec(evs, p, ad) == AdSpec(evs, pos, init)
      decreases |evs| - p
    {
      match At(evs, p)
      case Start(n, _) =>
        var child :- ParseAdChild(evs, p + 1, n, ad);
        assert AdSpec(evs, p, ad) == AdSpec(evs, child.next, child.value);
        ad, p := child.value, child.next;
      case End(n) =>
        if n == "Ad" {
          return Ok(Parsed(ad, p + 1));
        }
        assert AdSpec(evs, p, ad) == AdSpec(evs, p + 1, ad);
        p := p + 1;
      case Eof =>
        return Err(UnexpectedEof);
      case XmlErr =>
        return Err(XmlParseError);
      case _ =>
        assert AdSpec(evs, p, ad) == AdSpec(evs, p + 1, ad);
        p := p + 1;
    }
  }

  /** The `Event::Start` arm of parse_ad_element. */
  method ParseAdChild(evs: seq<Event>, pos: nat, name: string, ad: Ad) returns (r: Result<Parsed<Ad>>)
    requires pos <= |evs|
    ensures r == AdChildSpec(evs, pos, name, ad)
  {
    if name == "InLine" {
      var inline :- ParseInlineElement(evs, pos);
      r := Ok(Parsed(ad.(inline := Some(inline.value)), inline.next));
    } else if name == "Wrapper" {
      var wrapper :- ParseWrapperElement(evs, pos);
      r := Ok(Parsed(ad.(wrapper := Some(wrapper.value)), wrapper.next));
    } else {
      var next :- SkipElement(evs, pos, name);
      r := Ok(Parsed(ad, next));
    }
  }

  method ParseInlineElement(evs: seq<Event>, pos: nat) returns (r: Result<Parsed<InLine>>)
    requires pos <= |evs|
    ensures r == InlineSpec(evs, pos, NoInLine)
  {
    var inline := NoInLine;
    var p := pos;
    while true
      invariant p <= |evs|
      invariant InlineSpec(evs, p, inline) == InlineSpec(evs, pos, NoInLine)
      decreases |evs| - p
    {
      match At(evs, p)
      case Start(n, attrs) =>
        var child :- ParseInlineChild(evs, p + 1, n, attrs, inline);
        inline, p := child.value, child.next;
      case End(n) =>
        if n == "InLine" {
          return Ok(Parsed(inline, p + 1));
        }
        p := p + 1;
      case Eof =>
        return Err(UnexpectedEof);
      case XmlErr =>
        return Err(XmlParseError);
      case _ =>
        p := p + 1;
    }
  }

  /** The `Event::Start` arm of parse_inline_element. */
  method ParseInlineChild(evs: seq<Event>, pos: nat, name: string, attrs: seq<Attr>, inline: InLine)
    returns (r: Result<Parsed<InLine>>)
    requires pos <= |evs|
    ensures r == InlineChildSpec(evs, pos, name, attrs, inline)
  {
    if name == "AdSystem" {
      var s :- ParseAdSystem(evs, pos, attrs);
      r := Ok(Parsed(inline.(adSystem := s.value), s.next));
    } else if name == "AdTitle" {
      var t :- ReadTextElement(evs, pos);
      r := Ok(Parsed(inline.(adTitle := t.value), t.next));
    } else if name == "Impression" {
      var i :- ParseImpression(evs, pos, attrs);
      r := Ok(Parsed(inline.(impressions := inline.impressions + [i.value]), i.next));
    } else if name == "Description" {
      var t :- ReadTextElement(evs, pos);
      r := Ok(Parsed(inline.(description := Some(t.value)), t.next));
    } else if name == "Advertiser" {
      var t :- ReadTextElement(evs, pos);
      r := Ok(Parsed(inline.(advertiser := Some(t.value)), t.next));
    } else if name == "Survey" {
      var t :- ReadTextElement(evs, pos);
      r := Ok(Parsed(inline.(survey := Some(t.value)), t.next));
    } else if name == "Error" {
      var t :- ReadTextElement(evs, pos);
      r := Ok(Parsed(inline.(error := Some(t.value)), t.next));
    } else if name == "Pricing" {
      var pricing :- ParsePricing(evs, pos, attrs);
      r := Ok(Parsed(inline.(pricing := Some(pricing.value)), pricing.next));
    } else if name == "Extensions" {
      var e :- ParseExtensions(evs, pos);
      r := Ok(Parsed(inline.(extensions := e.value), e.next));
    } else if name == "Creatives" {
      var c :- ParseCreatives(evs, pos);
      r := Ok(Parsed(inline.(creatives := c.value), c.next));
    } else {
      var next :- SkipElement(evs, pos, name);
      r := Ok(Parsed(inline, next));
    }
  }

  method ParseWrapperElement(evs: seq<Event>, pos: nat) returns (r: Result<Parsed<Wrapper>>)
    requires pos <= |evs|
    ensures r == WrapperSpec(evs, pos, NoWrapper)
  {
    var wrapper := NoWrapper;
    var p := pos;
    while true
      invariant p <= |evs|
      invariant WrapperSpec(evs, p, wrapper) == WrapperSpec(evs, pos, NoWrapper)
      decreases |evs| - p
    {
      match At(evs, p)
      case Start(n, attrs) =>
        var child :- ParseWrapperChild(evs, p + 1, n, attrs, wrapper);
        wrapper, p := child.value, child.next;
      case End(n) =>
        if n == "Wrapper" {
          return Ok(Parsed(wrapper, p + 1));
        }
        p := p + 1;
      case Eof =>
        return Err(UnexpectedEof);
      case XmlErr =>
        return Err(XmlParseError);
      case _ =>
        p := p + 1;
    }
  }

  /** The `Event::Start` arm of parse_wrapper_element. */
  method ParseWrapperChild(evs: seq<Event>, pos: nat, name: string, attrs: seq<Attr>, wrapper: Wrapper)
    returns (r: Result<Parsed<Wrapper>>)
    requires pos <= |evs|
    ensures r == WrapperChildSpec(evs, pos, name, attrs, wrapper)
  {
    if name == "AdSystem" {
      var s :- ParseAdSystem(evs, pos, attrs);
      r := Ok(Parsed(wrapper.(adSystem := s.value), s.next));
    } else if name == "VASTAdTagURI" {
      var t :- ReadTextElement(evs, pos);
      r := Ok(Parsed(wrapper.(vastAdTagUri := t.value), t.next));
    } else if name == "Impression" {
      var i :- ParseImpression(evs, pos, attrs);
      r := Ok(Parsed(wrapper.(impressions := wrapper.impressions + [i.value]), i.next));
    } else if name == "Error" {
      var t :- ReadTextElement(evs, pos);
      r := Ok(Parsed(wrapper.(error := Some(t.value)), t.next));
    } else if name == "Extensions" {
      var e :- ParseExtensions(evs, pos);
      r := Ok(Parsed(wrapper.(extensions := e.value), e.next));
    } else if name == "Creatives" {
      var c :- ParseCreatives(evs, pos);
      r := Ok(Parsed(wrapper.(creatives := c.value), c.next));
    } else {
      var next :- SkipElement(evs, pos, name);
      r := Ok(Parsed(wrapper, next));
    }
  }

  /** read_text_element: the text of the element whose start tag was just read. */
  method ReadTextElement(evs: seq<Event>, pos: nat) returns (r: Result<Parsed<string>>)
    requires pos <= |evs|
    ensures r == ReadTextSpec(evs, pos, "")
  {
    var text := "";
    var p := pos;
    while true
      invariant p <= |evs|
      invariant ReadTextSpec(evs, p, text) == ReadTextSpec(evs, pos, "")
      decreases |evs| - p
    {
      match At(evs, p)
      case Text(t) =>
        if t.None? {
          return Err(XmlParseError);
        }
        text, p := t.value, p + 1;
      case CData(d) =>
        if d.Some? {
          text := d.value;
        }
        p := p + 1;
      case End(_) =>
        return Ok(Parsed(text, p + 1));
      case Eof =>
        return Err(UnexpectedEof);
      case XmlErr =>
        return Err(XmlParseError);
      case _ =>
        p := p + 1;
    }
  }

  /** skip_element: passes over the rest of the element whose start tag `name` was
      just read and returns the cursor after it. */
  method SkipElement(evs: seq<Event>, pos: nat, name: string) returns (r: Result<nat>)
    requires pos <= |evs|
    ensures r == SkipSpec(evs, pos, name, 0)
  {
    var depth: nat := 0;
    var p := pos;
    while true
      invariant p <= |evs|
      invariant SkipSpec(evs, p, name, depth) == SkipSpec(evs, pos, name, 0)
      decreases |evs| - p
    {
      match At(evs, p)
      case Start(n, _) =>
        if n == name && depth == 0 {
          depth := 1;
        } else if depth > 0 {
          depth := depth + 1;
        }
        p := p + 1;
      case End(n) =>
        if n == name {
          if depth == 0 {
            return Ok(p + 1);
          }
          depth := depth - 1;
          if depth == 0 {
            return Ok(p + 1);
          }
        } else if depth > 0 {
          depth := depth - 1;
        }
        p := p + 1;
      case Eof =>
        return Err(UnexpectedEof);
      case XmlErr =>
        return Err(XmlParseError);
      case _ =>
        p := p + 1;
    }
  }

  method ParseAdSystem(evs: seq<Event>, pos: nat, attrs: seq<Attr>) returns (r: Result<Parsed<AdSystem>>)
    requires pos <= |evs|
    ensures r == AdSystemSpec(evs, pos, attrs)
  {
    var system := ApplyAttrs(attrs, NoAdSystem, AdSystemAttr);
    var name :- ReadTextElement(evs, pos);
    r := Ok(Parsed(system.(name := name.value), name.next));
  }

  method ParseImpression(evs: seq<Event>, pos: nat, attrs: seq<Attr>) returns (r: Result<Parsed<Impression>>)
    requires pos <= |evs|
    ensures r == ImpressionSpec(evs, pos, attrs)
  {
    var impression := ApplyAttrs(attrs, NoImpression, ImpressionAttr);
    var url :- ReadTextElement(evs, pos);
    r := Ok(Parsed(impression.(url := url.value), url.next));
  }

  method ParsePricing(evs: seq<Event>, pos: nat, attrs: seq<Attr>) returns (r: Result<Parsed<Pricing>>)
    requires pos <= |evs|
    ensures r == PricingSpec(evs, pos, attrs)
  {
    var pricing := ApplyAttrs(attrs, NoPricing, PricingAttr);
    var value :- ReadTextElement(evs, pos);
    r := Ok(Parsed(pricing.(value := value.value), value.next));
  }

  method ParseExtensions(evs: seq<Event>, pos: nat) returns (r: Result<Parsed<seq<Extension>>>)
    requires pos <= |evs|
    ensures r == ExtensionsSpec(evs, pos, [])
  {
    var extensions: seq<Extension> := [];
    var p := pos;
    while true
      invariant p <= |evs|
      invariant ExtensionsSpec(evs, p, extensions) == ExtensionsSpec(evs, pos, [])
      decreases |evs| - p
    {
      match At(evs, p)
      case Start(n, attrs) =>
        if n == "Extension" {
          var e :- ParseExtension(evs, p + 1, attrs);
          extensions, p := extensions + [e.value], e.next;
        } else {
          p := p + 1;
        }
      case End(n) =>
        if n == "Extensions" {
          return Ok(Parsed(extensions, p + 1));
        }
        p := p + 1;
      case Eof =>
        return Err(UnexpectedEof);
      case XmlErr =>
        return Err(XmlParseError);
      case _ =>
        p := p + 1;
    }
  }

  method ParseExtension(evs: seq<Event>, pos: nat, attrs: seq<Attr>) returns (r: Result<Parsed<Extension>>)
    requires pos <= |evs|
    ensures r == ExtensionSpec(evs, pos, attrs)
  {
    var extension := ApplyAttrs(attrs, NoExtension, ExtensionAttr);
    var content :- ReadTextElement(evs, pos);
    r := Ok(Parsed(extension.(content := content.value), content.next));
  }

  method ParseCreatives(evs: seq<Event>, pos: nat) returns (r: Result<Parsed<seq<Creative>>>)
    requires pos <= |evs|
    ensures r == CreativesSpec(evs, pos, [])
  {
    var creatives: seq<Creative> := [];
    var p := pos;
    while true
      invariant p <= |evs|
      invariant CreativesSpec(evs, p, creatives) == CreativesSpec(evs, pos, [])
      decreases |evs| - p
    {
      match At(evs, p)
      case Start(n, attrs) =>
        if n == "Creative" {
          var c :- ParseCreative(evs, p + 1, attrs);
          creatives, p := creatives + [c.value], c.next;
        } else {
          p := p + 1;
        }
      case End(n) =>
        if n == "Creatives" {
          return Ok(Parsed(creatives, p + 1));
        }
        p := p + 1;
      case Eof =>
        return Err(UnexpectedEof);
      case XmlErr =>
        return Err(XmlParseError);
      case _ =>
        p := p + 1;
    }
  }

  /** parse_creative; `attrs` are the attributes of the `<Creative>` start tag. */
  method ParseCreative(evs: seq<Event>, pos: nat, attrs: seq<Attr>) returns (r: Result<Parsed<Creative>>)
    requires pos <= |evs|
    ensures r == CreativeSpec(evs, pos, FoldAttrs(attrs, NoCreative, CreativeAttr))
  {
    var creative := ApplyAttrs(attrs, NoCreative, CreativeAttr);
    ghost var init := creative;
    var p := pos;
    while true
      invariant p <= |evs|
      invariant CreativeSpec(evs, p, creative) == CreativeSpec(evs, pos, init)
      decreases |evs| - p
    {
      match At(evs, p)
      case Start(n, _) =>
        var child :- ParseCreativeChild(evs, p + 1, n, creative);
        creative, p := child.value, child.next;
      case End(n) =>
        if n == "Creative" {
          return Ok(Parsed(creative, p + 1));
        }
        p := p + 1;
      case Eof =>
        return Err(UnexpectedEof);
      case XmlErr =>
        return Err(XmlParseError);
      case _ =>
        p := p + 1;
    }
  }

  /** The `Event::Start` arm of parse_creative. */
  method ParseCreativeChild(evs: seq<Event>, pos: nat, name: string, creative: Creative)
    returns (r: Result<Parsed<Creative>>)
    requires pos <= |evs|
    ensures r == CreativeChildSpec(evs, pos, name, creative)
  {
    if name == "Linear" {
      var l :- ParseLinear(evs, pos);
      r := Ok(Parsed(creative.(linear := Some(l.value)), l.next));
    } else if name == "CompanionAds" {
      var c :- ParseCompanionAds(evs, pos);
      r := Ok(Parsed(creative.(companionAds := Some(c.value)), c.next));
    } else if name == "NonLinearAds" {
      var n :- ParseNonLinearAds(evs, pos);
      r := Ok(Parsed(creative.(nonLinearAds := Some(n.value)), n.next));
    } else {
      var next :- SkipElement(evs, pos, name);
      r := Ok(Parsed(creative, next));
    }
  }

  method ParseLinear(evs: seq<Event>, pos: nat) returns (r: Result<Parsed<Linear>>)
    requires pos <= |evs|
    ensures r == LinearSpec(evs, pos, NoLinear)
  {
    var linear := NoLinear;
    var p := pos;
    while true
      invariant p <= |evs|
      invariant LinearSpec(evs, p, linear) == LinearSpec(evs, pos, NoLinear)
      decreases |evs| - p
    {
      match At(evs, p)
      case Start(n, _) =>
        var child :- ParseLinearChild(evs, p + 1, n, linear);
        linear, p := child.value, child.next;
      case End(n) =>
        if n == "Linear" {
          return Ok(Parsed(linear, p + 1));
        }
        p := p + 1;
      case Eof =>
        return Err(UnexpectedEof);
      case XmlErr =>
        return Err(XmlParseError);
      case _ =>
        p := p + 1;
    }
  }

  /** The `Event::Start` arm of parse_linear. */
  method ParseLinearChild(evs: seq<Event>, pos: nat, name: string, linear: Linear)
    returns (r: Result<Parsed<Linear>>)
    requires pos <= |evs|
    ensures r == LinearChildSpec(evs, pos, name, linear)
  {
    if name == "Duration" {
      var t :- ReadTextElement(evs, pos);
      r := Ok(Parsed(linear.(duration := Some(t.value)), t.next));
    } else if name == "MediaFiles" {
      var m :- ParseMediaFiles(evs, pos);
      r := Ok(Parsed(linear.(mediaFiles := m.value), m.next));
    } else if name == "VideoClicks" {
      var v :- ParseVideoClicks(evs, pos);
      r := Ok(Parsed(linear.(videoClicks := Some(v.value)), v.next));
    } else if name == "TrackingEvents" {
      var t :- ParseTrackingEvents(evs, pos);
      r := Ok(Parsed(linear.(trackingEvents := t.value), t.next));
    } else {
      var next :- SkipElement(evs, pos, name);
      r := Ok(Parsed(linear, next));
    }
  }

  method ParseMediaFiles(evs: seq<Event>, pos: nat) returns (r: Result<Parsed<seq<MediaFile>>>)
    requires pos <= |evs|
    ensures r == MediaFilesSpec(evs, pos, [])
  {
    var files: seq<MediaFile> := [];
    var p := pos;
    while true
      invariant p <= |evs|
      invariant MediaFilesSpec(evs, p, files) == MediaFilesSpec(evs, pos, [])
      decreases |evs| - p
    {
      match At(evs, p)
      case Start(n, attrs) =>
        if n == "MediaFile" {
          var m :- ParseMediaFile(evs, p + 1, attrs);
          files, p := files + [m.value], m.next;
        } else {
          p := p + 1;
        }
      case End(n) =>
        if n == "MediaFiles" {
          return Ok(Parsed(files, p + 1));
        }
        p := p + 1;
      case Eof =>
        return Err(UnexpectedEof);
      case XmlErr =>
        return Err(XmlParseError);
      case _ =>
        p := p + 1;
    }
  }

  method ParseMediaFile(evs: seq<Event>, pos: nat, attrs: seq<Attr>) returns (r: Result<Parsed<MediaFile>>)
    requires pos <= |evs|
    ensures r == MediaFileSpec(evs, pos, attrs)
  {
    var file := ApplyAttrs(attrs, NoMediaFile, MediaFileAttr);
    var url :- ReadTextElement(evs, pos);
    r := Ok(Parsed(file.(url := url.value), url.next));
  }

  method ParseVideoClicks(evs: seq<Event>, pos: nat) returns (r: Result<Parsed<VideoClicks>>)
    requires pos <= |evs|
    ensures r == VideoClicksSpec(evs, pos, NoVideoClicks)
  {
    var clicks := NoVideoClicks;
    var p := pos;
    while true
      invariant p <= |evs|
      invariant VideoClicksSpec(evs, p, clicks) == VideoClicksSpec(evs, pos, NoVideoClicks)
      decreases |evs| - p
    {
      match At(evs, p)
      case Start(n, _) =>
        var child :- ParseVideoClicksChild(evs, p + 1, n, clicks);
        clicks, p := child.value, child.next;
      case End(n) =>
        if n == "VideoClicks" {
          return Ok(Parsed(clicks, p + 1));
        }
        p := p + 1;
      case Eof =>
        return Err(UnexpectedEof);
      case XmlErr =>
        return Err(XmlParseError);
      case _ =>
        p := p + 1;
    }
  }

  /** The `Event::Start` arm of parse_video_clicks. */
  method ParseVideoClicksChild(evs: seq<Event>, pos: nat, name: string, clicks: VideoClicks)
    returns (r: Result<Parsed<VideoClicks>>)
    requires pos <= |evs|
    ensures r == VideoClicksChildSpec(evs, pos, name, clicks)
  {
    if name == "ClickThrough" {
      var t :- ReadTextElement(evs, pos);
      r := Ok(Parsed(clicks.(clickThrough := Some(t.value)), t.next));
    } else if name == "ClickTracking" {
      var t :- ReadTextElement(evs, pos);
      r := Ok(Parsed(clicks.(clickTracking := clicks.clickTracking + [t.value]), t.next));
    } else if name == "CustomClick" {
      var t :- ReadTextElement(evs, pos);
      r := Ok(Parsed(clicks.(customClick := clicks.customClick + [t.value]), t.next));
    } else {
      var next :- SkipElement(evs, pos, name);
      r := Ok(Parsed(clicks, next));
    }
  }

  method ParseTrackingEvents(evs: seq<Event>, pos: nat) returns (r: Result<Parsed<seq<TrackingEvent>>>)
    requires pos <= |evs|
    ensures r == TrackingEventsSpec(evs, pos, [])
  {
    var events: seq<TrackingEvent> := [];
    var p := pos;
    while true
      invariant p <= |evs|
      invariant TrackingEventsSpec(evs, p, events) == TrackingEventsSpec(evs, pos, [])
      decreases |evs| - p
    {
      match At(evs, p)
      case Start(n, attrs) =>
        if n == "Tracking" {
          var t :- ParseTrackingEvent(evs, p + 1, attrs);
          events, p := events + [t.value], t.next;
        } else {
          p := p + 1;
        }
      case End(n) =>
        if n == "TrackingEvents" {
          return Ok(Parsed(events, p + 1));
        }
        p := p + 1;
      case Eof =>
        return Err(UnexpectedEof);
      case XmlErr =>
        return Err(XmlParseError);
      case _ =>
        p := p + 1;
    }
  }

  method ParseTrackingEvent(evs: seq<Event>, pos: nat, attrs: seq<Attr>) returns (r: Result<Parsed<TrackingEvent>>)
    requires pos <= |evs|
    ensures r == TrackingEventSpec(evs, pos, attrs)
  {
    var event := ApplyAttrs(attrs, NoTrackingEvent, TrackingAttr);
    var url :- ReadTextElement(evs, pos);
    r := Ok(Parsed(event.(url := url.value), url.next));
  }

  method ParseCompanionAds(evs: seq<Event>, pos: nat) returns (r: Result<Parsed<CompanionAds>>)
    requires pos <= |evs|
    ensures r == CompanionAdsSpec(evs, pos)
  {
    var next :- SkipElement(evs, pos, "CompanionAds");
    r := Ok(Parsed(CompanionAds([]), next));
  }

  method ParseNonLinearAds(evs: seq<Event>, pos: nat) returns (r: Result<Parsed<NonLinearAds>>)
    requires pos <= |evs|
    ensures r == NonLinearAdsSpec(evs, pos)
  {
    var next :- SkipElement(evs, pos, "NonLinearAds");
    r := Ok(Parsed(NonLinearAds([]), next));
  }
}
