/** The parser's loops over a run in the stream.

    For every loop: when the stream holds a run from the loop's position on,
    closed by the element's end tag, the loop returns exactly the run's value
    and stops just after that end tag. Each proof goes one child at a time:
    reading a child moves the loop to the end of that child with the child
    folded into the value, and the rest of the run is handled by induction. */
module ParserRunLoops {
  import opened Models
  import opened Errors
  import opened XmlEvents
  import opened ParserSpec
  import opened ParserRuns

  /** read_text on an element holding one piece of text returns that text and
      stops after the end tag. */
  lemma ReadsText(evs: seq<Event>, pos: nat, name: string, attrs: seq<Attr>, text: string, init: string)
    requires TextAt(evs, pos, name, attrs, text)
    ensures pos + 1 <= |evs|
    ensures ReadTextSpec(evs, pos + 1, init) == Ok(Parsed(text, pos + 3))
  {
  }

  // ---------------------------------------------------------------------------
  // Lists of leaf elements
  //
  // Each `...Step` lemma: when a child sits at `pos`, the loop gives what it
  // gives after that child with the child folded into the value.

  lemma ExtensionStep(evs: seq<Event>, pos: nat, l: Leaf, acc: seq<Extension>, r: Result<Parsed<seq<Extension>>>)
    requires TextAt(evs, pos, "Extension", l.attrs, l.text)
    requires pos + 3 <= |evs| && ExtensionsSpec(evs, pos + 3, acc + [ExtensionOf(l)]) == r
    ensures ExtensionsSpec(evs, pos, acc) == r
  {
    ReadsText(evs, pos, "Extension", l.attrs, l.text, "");
  }

  /** `<Extensions>`: every Extension child is appended, in document order. */
  lemma {:induction false} ExtensionsParse(evs: seq<Event>, pos: nat, ls: seq<Leaf>, acc: seq<Extension>)
    requires LeavesAt(evs, pos, "Extension", ls) && At(evs, pos + 3 * |ls|) == End("Extensions")
    ensures pos <= |evs|
    ensures ExtensionsSpec(evs, pos, acc) == Ok(Parsed(acc + ExtensionsOf(ls), pos + 3 * |ls| + 1))
    decreases |ls|
  {
    if ls == [] {
      AppendNothing(acc);
    } else {
      var l := ls[0];
      ExtensionsParse(evs, pos + 3, ls[1..], acc + [ExtensionOf(l)]);
      AppendAssoc(acc, [ExtensionOf(l)], ExtensionsOf(ls[1..]));
      ExtensionStep(evs, pos, l, acc, Ok(Parsed(acc + ExtensionsOf(ls), pos + 3 * |ls| + 1)));
    }
  }

  lemma MediaFileStep(evs: seq<Event>, pos: nat, l: Leaf, acc: seq<MediaFile>, r: Result<Parsed<seq<MediaFile>>>)
    requires TextAt(evs, pos, "MediaFile", l.attrs, l.text)
    requires pos + 3 <= |evs| && MediaFilesSpec(evs, pos + 3, acc + [MediaFileOf(l)]) == r
    ensures MediaFilesSpec(evs, pos, acc) == r
  {
    ReadsText(evs, pos, "MediaFile", l.attrs, l.text, "");
  }

  /** `<MediaFiles>`: every MediaFile child is appended, in document order. */
  lemma {:induction false} MediaFilesParse(evs: seq<Event>, pos: nat, ls: seq<Leaf>, acc: seq<MediaFile>)
    requires LeavesAt(evs, pos, "MediaFile", ls) && At(evs, pos + 3 * |ls|) == End("MediaFiles")
    ensures pos <= |evs|
    ensures MediaFilesSpec(evs, pos, acc) == Ok(Parsed(acc + MediaFilesOf(ls), pos + 3 * |ls| + 1))
    decreases |ls|
  {
    if ls == [] {
      AppendNothing(acc);
    } else {
      var l := ls[0];
      MediaFilesParse(evs, pos + 3, ls[1..], acc + [MediaFileOf(l)]);
      AppendAssoc(acc, [MediaFileOf(l)], MediaFilesOf(ls[1..]));
      MediaFileStep(evs, pos, l, acc, Ok(Parsed(acc + MediaFilesOf(ls), pos + 3 * |ls| + 1)));
    }
  }

  lemma TrackingStep(evs: seq<Event>, pos: nat, l: Leaf, acc: seq<TrackingEvent>, r: Result<Parsed<seq<TrackingEvent>>>)
    requires TextAt(evs, pos, "Tracking", l.attrs, l.text)
    requires pos + 3 <= |evs| && TrackingEventsSpec(evs, pos + 3, acc + [TrackingOf(l)]) == r
    ensures TrackingEventsSpec(evs, pos, acc) == r
  {
    ReadsText(evs, pos, "Tracking", l.attrs, l.text, "");
  }

  /** `<TrackingEvents>`: every Tracking child is appended, in document order. */
  lemma {:induction false} TrackingEventsParse(evs: seq<Event>, pos: nat, ls: seq<Leaf>, acc: seq<TrackingEvent>)
    requires LeavesAt(evs, pos, "Tracking", ls) && At(evs, pos + 3 * |ls|) == End("TrackingEvents")
    ensures pos <= |evs|
    ensures TrackingEventsSpec(evs, pos, acc) == Ok(Parsed(acc + TrackingsOf(ls), pos + 3 * |ls| + 1))
    decreases |ls|
  {
    if ls == [] {
      AppendNothing(acc);
    } else {
      var l := ls[0];
      TrackingEventsParse(evs, pos + 3, ls[1..], acc + [TrackingOf(l)]);
      AppendAssoc(acc, [TrackingOf(l)], TrackingsOf(ls[1..]));
      TrackingStep(evs, pos, l, acc, Ok(Parsed(acc + TrackingsOf(ls), pos + 3 * |ls| + 1)));
    }
  }

  // ---------------------------------------------------------------------------
  // VideoClicks

  lemma ClickStep(evs: seq<Event>, pos: nat, c: ClickChild, acc: VideoClicks, r: Result<Parsed<VideoClicks>>)
    requires ClickAt(evs, pos, c)
    requires pos + 3 <= |evs| && VideoClicksSpec(evs, pos + 3, ApplyClick(acc, c)) == r
    ensures VideoClicksSpec(evs, pos, acc) == r
  {
    match c
    case ClickThroughUrl(u) => ReadsText(evs, pos, "ClickThrough", [], u, "");
    case ClickTrackingUrl(u) => ReadsText(evs, pos, "ClickTracking", [], u, "");
    case CustomClickUrl(u) => ReadsText(evs, pos, "CustomClick", [], u, "");
  }

  /** `<VideoClicks>` read from a run yields the run's value. */
  lemma {:induction false} ClicksParse(evs: seq<Event>, pos: nat, cs: seq<ClickChild>, acc: VideoClicks)
    requires ClicksAt(evs, pos, cs) && At(evs, pos + 3 * |cs|) == End("VideoClicks")
    ensures pos <= |evs|
    ensures VideoClicksSpec(evs, pos, acc) == Ok(Parsed(ClicksValue(acc, cs), pos + 3 * |cs| + 1))
    decreases |cs|
  {
    if cs != [] {
      var acc1 := ApplyClick(acc, cs[0]);
      ClicksParse(evs, pos + 3, cs[1..], acc1);
      ClickStep(evs, pos, cs[0], acc, Ok(Parsed(ClicksValue(acc1, cs[1..]), pos + 3 * |cs| + 1)));
    }
  }

  // ---------------------------------------------------------------------------
  // Linear

  lemma DurationReads(evs: seq<Event>, pos: nat, t: string, acc: Linear)
    requires TextAt(evs, pos, "Duration", [], t)
    ensures pos + 3 <= |evs|
    ensures LinearChildSpec(evs, pos + 1, "Duration", acc) == Ok(Parsed(acc.(duration := Some(t)), pos + 3))
  {
    ReadsText(evs, pos, "Duration", [], t, "");
    DurationChild(evs, pos + 1, acc, t, pos + 3);
  }

  lemma MediaFilesReads(evs: seq<Event>, pos: nat, fs: seq<Leaf>, acc: Linear)
    requires LeavesAt(evs, pos + 1, "MediaFile", fs) && At(evs, pos + 1 + 3 * |fs|) == End("MediaFiles")
    ensures pos + 3 * |fs| + 2 <= |evs|
    ensures LinearChildSpec(evs, pos + 1, "MediaFiles", acc)
            == Ok(Parsed(acc.(mediaFiles := MediaFilesOf(fs)), pos + 3 * |fs| + 2))
  {
    MediaFilesParse(evs, pos + 1, fs, []);
    AppendNothing(MediaFilesOf(fs));
    MediaFilesChild(evs, pos + 1, acc, MediaFilesOf(fs), pos + 3 * |fs| + 2);
  }

  lemma VideoClicksReads(evs: seq<Event>, pos: nat, cs: seq<ClickChild>, acc: Linear)
    requires ClicksAt(evs, pos + 1, cs) && At(evs, pos + 1 + 3 * |cs|) == End("VideoClicks")
    ensures pos + 3 * |cs| + 2 <= |evs|
    ensures LinearChildSpec(evs, pos + 1, "VideoClicks", acc)
            == Ok(Parsed(acc.(videoClicks := Some(ClicksValue(NoVideoClicks, cs))), pos + 3 * |cs| + 2))
  {
    ClicksParse(evs, pos + 1, cs, NoVideoClicks);
    VideoClicksChild(evs, pos + 1, acc, ClicksValue(NoVideoClicks, cs), pos + 3 * |cs| + 2);
  }

  lemma TrackingEventsReads(evs: seq<Event>, pos: nat, ls: seq<Leaf>, acc: Linear)
    requires LeavesAt(evs, pos + 1, "Tracking", ls) && At(evs, pos + 1 + 3 * |ls|) == End("TrackingEvents")
    ensures pos + 3 * |ls| + 2 <= |evs|
    ensures LinearChildSpec(evs, pos + 1, "TrackingEvents", acc)
            == Ok(Parsed(acc.(trackingEvents := TrackingsOf(ls)), pos + 3 * |ls| + 2))
  {
    TrackingEventsParse(evs, pos + 1, ls, []);
    AppendNothing(TrackingsOf(ls));
    TrackingEventsChild(evs, pos + 1, acc, TrackingsOf(ls), pos + 3 * |ls| + 2);
  }

  // The child readers of parse_linear, one per child name, stated on the
  // reader's result alone.

  lemma DurationChild(evs: seq<Event>, p: nat, acc: Linear, t: string, n: nat)
    requires p <= |evs|
    requires ReadTextSpec(evs, p, "") == Ok(Parsed(t, n))
    ensures LinearChildSpec(evs, p, "Duration", acc) == Ok(Parsed(acc.(duration := Some(t)), n))
  {
  }

  lemma MediaFilesChild(evs: seq<Event>, p: nat, acc: Linear, fs: seq<MediaFile>, n: nat)
    requires p <= |evs|
    requires MediaFilesSpec(evs, p, []) == Ok(Parsed(fs, n))
    ensures LinearChildSpec(evs, p, "MediaFiles", acc) == Ok(Parsed(acc.(mediaFiles := fs), n))
  {
  }

  lemma VideoClicksChild(evs: seq<Event>, p: nat, acc: Linear, v: VideoClicks, n: nat)
    requires p <= |evs|
    requires VideoClicksSpec(evs, p, NoVideoClicks) == Ok(Parsed(v, n))
    ensures LinearChildSpec(evs, p, "VideoClicks", acc) == Ok(Parsed(acc.(videoClicks := Some(v)), n))
  {
  }

  lemma TrackingEventsChild(evs: seq<Event>, p: nat, acc: Linear, ts: seq<TrackingEvent>, n: nat)
    requires p <= |evs|
    requires TrackingEventsSpec(evs, p, []) == Ok(Parsed(ts, n))
    ensures LinearChildSpec(evs, p, "TrackingEvents", acc) == Ok(Parsed(acc.(trackingEvents := ts), n))
  {
  }

  /** The loop of parse_linear at a start tag: the child's reader runs, and the
      loop goes on after it. */
  lemma LinearAtStart(evs: seq<Event>, pos: nat, name: string, attrs: seq<Attr>, acc: Linear,
                      child: Linear, next: nat, r: Result<Parsed<Linear>>)
    requires pos + 1 <= |evs| && At(evs, pos) == Start(name, attrs)
    requires LinearChildSpec(evs, pos + 1, name, acc) == Ok(Parsed(child, next))
    requires next <= |evs| && LinearSpec(evs, next, child) == r
    ensures LinearSpec(evs, pos, acc) == r
  {
  }

  lemma LinearStep(evs: seq<Event>, pos: nat, c: LinearChild, acc: Linear, r: Result<Parsed<Linear>>)
    requires LinearChildAt(evs, pos, c)
    requires pos + LinearChildSize(c) <= |evs|
    requires LinearSpec(evs, pos + LinearChildSize(c), ApplyLinear(acc, c)) == r
    ensures LinearSpec(evs, pos, acc) == r
  {
    if c.DurationText? {
      DurationStep(evs, pos, c, acc, r);
    } else if c.MediaFileList? {
      MediaFilesStep(evs, pos, c, acc, r);
    } else if c.ClickList? {
      VideoClicksStep(evs, pos, c, acc, r);
    } else {
      TrackingEventsStep(evs, pos, c, acc, r);
    }
  }

  // One lemma per kind of child, each stated as LinearStep is.

  lemma DurationStep(evs: seq<Event>, pos: nat, c: LinearChild, acc: Linear, r: Result<Parsed<Linear>>)
    requires c.DurationText? && LinearChildAt(evs, pos, c)
    requires pos + LinearChildSize(c) <= |evs|
    requires LinearSpec(evs, pos + LinearChildSize(c), ApplyLinear(acc, c)) == r
    ensures LinearSpec(evs, pos, acc) == r
  {
    DurationReads(evs, pos, c.text, acc);
    LinearAtStart(evs, pos, "Duration", [], acc, acc.(duration := Some(c.text)), pos + 3, r);
  }

  lemma MediaFilesStep(evs: seq<Event>, pos: nat, c: LinearChild, acc: Linear, r: Result<Parsed<Linear>>)
    requires c.MediaFileList? && LinearChildAt(evs, pos, c)
    requires pos + LinearChildSize(c) <= |evs|
    requires LinearSpec(evs, pos + LinearChildSize(c), ApplyLinear(acc, c)) == r
    ensures LinearSpec(evs, pos, acc) == r
  {
    var fs := c.files;
    MediaFilesReads(evs, pos, fs, acc);
    LinearAtStart(evs, pos, "MediaFiles", [], acc, acc.(mediaFiles := MediaFilesOf(fs)), pos + 3 * |fs| + 2, r);
  }

  lemma VideoClicksStep(evs: seq<Event>, pos: nat, c: LinearChild, acc: Linear, r: Result<Parsed<Linear>>)
    requires c.ClickList? && LinearChildAt(evs, pos, c)
    requires pos + LinearChildSize(c) <= |evs|
    requires LinearSpec(evs, pos + LinearChildSize(c), ApplyLinear(acc, c)) == r
    ensures LinearSpec(evs, pos, acc) == r
  {
    var cs := c.clicks;
    VideoClicksReads(evs, pos, cs, acc);
    LinearAtStart(evs, pos, "VideoClicks", [], acc, acc.(videoClicks := Some(ClicksValue(NoVideoClicks, cs))),
                  pos + 3 * |cs| + 2, r);
  }

  lemma TrackingEventsStep(evs: seq<Event>, pos: nat, c: LinearChild, acc: Linear, r: Result<Parsed<Linear>>)
    requires c.TrackingList? && LinearChildAt(evs, pos, c)
    requires pos + LinearChildSize(c) <= |evs|
    requires LinearSpec(evs, pos + LinearChildSize(c), ApplyLinear(acc, c)) == r
    ensures LinearSpec(evs, pos, acc) == r
  {
    var ls := c.events;
    TrackingEventsReads(evs, pos, ls, acc);
    LinearAtStart(evs, pos, "TrackingEvents", [], acc, acc.(trackingEvents := TrackingsOf(ls)), pos + 3 * |ls| + 2, r);
  }

  /** `<Linear>` read from a run yields the run's value. */
  lemma {:induction false} LinearParse(evs: seq<Event>, pos: nat, cs: seq<LinearChild>, acc: Linear)
    requires LinearAt(evs, pos, cs) && At(evs, pos + LinearSize(cs)) == End("Linear")
    ensures pos <= |evs|
    ensures LinearSpec(evs, pos, acc) == Ok(Parsed(LinearValue(acc, cs), pos + LinearSize(cs) + 1))
    decreases |cs|, 1
  {
    if cs == [] {
      LinearParseNil(evs, pos, cs, acc);
    } else {
      LinearParseCons(evs, pos, cs, acc);
    }
  }

  /** The base case of LinearParse: the run is over and `</Linear>` follows. */
  lemma LinearParseNil(evs: seq<Event>, pos: nat, cs: seq<LinearChild>, acc: Linear)
    requires cs == [] && At(evs, pos + LinearSize(cs)) == End("Linear")
    ensures pos <= |evs|
    ensures LinearSpec(evs, pos, acc) == Ok(Parsed(LinearValue(acc, cs), pos + LinearSize(cs) + 1))
  {
  }

  lemma LinearUncons(evs: seq<Event>, pos: nat, cs: seq<LinearChild>, acc: Linear)
    requires cs != [] && LinearAt(evs, pos, cs)
    ensures LinearChildAt(evs, pos, cs[0]) && LinearAt(evs, pos + LinearChildSize(cs[0]), cs[1..])
    ensures LinearSize(cs) == LinearChildSize(cs[0]) + LinearSize(cs[1..])
    ensures LinearValue(acc, cs) == LinearValue(ApplyLinear(acc, cs[0]), cs[1..])
  {
  }

  /** The inductive step of LinearParse: one known child in front of the rest of the run. */
  lemma {:induction false} LinearParseCons(evs: seq<Event>, pos: nat, cs: seq<LinearChild>, acc: Linear)
    requires cs != [] && LinearAt(evs, pos, cs) && At(evs, pos + LinearSize(cs)) == End("Linear")
    ensures pos <= |evs|
    ensures LinearSpec(evs, pos, acc) == Ok(Parsed(LinearValue(acc, cs), pos + LinearSize(cs) + 1))
    decreases |cs|, 0
  {
    LinearUncons(evs, pos, cs, acc);
    LinearParse(evs, pos + LinearChildSize(cs[0]), cs[1..], ApplyLinear(acc, cs[0]));
    LinearStep(evs, pos, cs[0], acc, Ok(Parsed(LinearValue(acc, cs), pos + LinearSize(cs) + 1)));
  }

  // ---------------------------------------------------------------------------
  // Creative, and the list of creatives

  lemma LinearInCreative(evs: seq<Event>, p: nat, acc: Creative, l: Linear, n: nat)
    requires p <= |evs|
    requires LinearSpec(evs, p, NoLinear) == Ok(Parsed(l, n))
    ensures CreativeChildSpec(evs, p, "Linear", acc) == Ok(Parsed(acc.(linear := Some(l)), n))
  {
  }

  /** The loop of parse_creative at a start tag: the child's reader runs, and
      the loop goes on after it. */
  lemma CreativeAtStart(evs: seq<Event>, pos: nat, name: string, attrs: seq<Attr>, acc: Creative,
                        child: Creative, next: nat, r: Result<Parsed<Creative>>)
    requires pos + 1 <= |evs| && At(evs, pos) == Start(name, attrs)
    requires CreativeChildSpec(evs, pos + 1, name, acc) == Ok(Parsed(child, next))
    requires next <= |evs| && CreativeSpec(evs, next, child) == r
    ensures CreativeSpec(evs, pos, acc) == r
  {
  }

  lemma CreativeStep(evs: seq<Event>, pos: nat, c: CreativeChild, acc: Creative, r: Result<Parsed<Creative>>)
    requires CreativeChildAt(evs, pos, c)
    requires pos + CreativeChildSize(c) <= |evs|
    requires CreativeSpec(evs, pos + CreativeChildSize(c), ApplyCreative(acc, c)) == r
    ensures CreativeSpec(evs, pos, acc) == r
  {
    if c.LinearElement? {
      LinearStepInCreative(evs, pos, c, acc, r);
    } else {
      EmptyStepInCreative(evs, pos, c, acc, r);
    }
  }

  lemma LinearStepInCreative(evs: seq<Event>, pos: nat, c: CreativeChild, acc: Creative, r: Result<Parsed<Creative>>)
    requires c.LinearElement? && CreativeChildAt(evs, pos, c)
    requires pos + CreativeChildSize(c) <= |evs|
    requires CreativeSpec(evs, pos + CreativeChildSize(c), ApplyCreative(acc, c)) == r
    ensures CreativeSpec(evs, pos, acc) == r
  {
    var cs := c.children;
    LinearParse(evs, pos + 1, cs, NoLinear);
    LinearInCreative(evs, pos + 1, acc, LinearValue(NoLinear, cs), pos + LinearSize(cs) + 2);
    CreativeAtStart(evs, pos, "Linear", [], acc, acc.(linear := Some(LinearValue(NoLinear, cs))),
                    pos + LinearSize(cs) + 2, r);
  }

  /** CompanionAds and NonLinearAds, written empty. */
  lemma EmptyStepInCreative(evs: seq<Event>, pos: nat, c: CreativeChild, acc: Creative, r: Result<Parsed<Creative>>)
    requires !c.LinearElement? && CreativeChildAt(evs, pos, c)
    requires pos + CreativeChildSize(c) <= |evs|
    requires CreativeSpec(evs, pos + CreativeChildSize(c), ApplyCreative(acc, c)) == r
    ensures CreativeSpec(evs, pos, acc) == r
  {
    if c.CompanionAdsElement? {
      CompanionAdsInCreative(evs, pos, acc);
      CreativeAtStart(evs, pos, "CompanionAds", [], acc, acc.(companionAds := Some(CompanionAds([]))), pos + 2, r);
    } else {
      NonLinearAdsInCreative(evs, pos, acc);
      CreativeAtStart(evs, pos, "NonLinearAds", [], acc, acc.(nonLinearAds := Some(NonLinearAds([]))), pos + 2, r);
    }
  }

  lemma CompanionAdsInCreative(evs: seq<Event>, pos: nat, acc: Creative)
    requires At(evs, pos + 1) == End("CompanionAds")
    ensures pos + 2 <= |evs|
    ensures CreativeChildSpec(evs, pos + 1, "CompanionAds", acc)
            == Ok(Parsed(acc.(companionAds := Some(CompanionAds([]))), pos + 2))
  {
  }

  lemma NonLinearAdsInCreative(evs: seq<Event>, pos: nat, acc: Creative)
    requires At(evs, pos + 1) == End("NonLinearAds")
    ensures pos + 2 <= |evs|
    ensures CreativeChildSpec(evs, pos + 1, "NonLinearAds", acc)
            == Ok(Parsed(acc.(nonLinearAds := Some(NonLinearAds([]))), pos + 2))
  {
  }

  /** The body of `<Creative>` read from a run yields the run's value. */
  lemma {:induction false} CreativeParse(evs: seq<Event>, pos: nat, cs: seq<CreativeChild>, acc: Creative)
    requires CreativeAt(evs, pos, cs) && At(evs, pos + CreativeSize(cs)) == End("Creative")
    ensures pos <= |evs|
    ensures CreativeSpec(evs, pos, acc) == Ok(Parsed(CreativeValue(acc, cs), pos + CreativeSize(cs) + 1))
    decreases |cs|, 1
  {
    if cs == [] {
      CreativeParseNil(evs, pos, cs, acc);
    } else {
      CreativeParseCons(evs, pos, cs, acc);
    }
  }

  /** The base case of CreativeParse: the run is over and `</Creative>` follows. */
  lemma CreativeParseNil(evs: seq<Event>, pos: nat, cs: seq<CreativeChild>, acc: Creative)
    requires cs == [] && At(evs, pos + CreativeSize(cs)) == End("Creative")
    ensures pos <= |evs|
    ensures CreativeSpec(evs, pos, acc) == Ok(Parsed(CreativeValue(acc, cs), pos + CreativeSize(cs) + 1))
  {
  }

  lemma CreativeUncons(evs: seq<Event>, pos: nat, cs: seq<CreativeChild>, acc: Creative)
    requires cs != [] && CreativeAt(evs, pos, cs)
    ensures CreativeChildAt(evs, pos, cs[0]) && CreativeAt(evs, pos + CreativeChildSize(cs[0]), cs[1..])
    ensures CreativeSize(cs) == CreativeChildSize(cs[0]) + CreativeSize(cs[1..])
    ensures CreativeValue(acc, cs) == CreativeValue(ApplyCreative(acc, cs[0]), cs[1..])
  {
  }

  /** The inductive step of CreativeParse: one known child in front of the rest of the run. */
  lemma {:induction false} CreativeParseCons(evs: seq<Event>, pos: nat, cs: seq<CreativeChild>, acc: Creative)
    requires cs != [] && CreativeAt(evs, pos, cs) && At(evs, pos + CreativeSize(cs)) == End("Creative")
    ensures pos <= |evs|
    ensures CreativeSpec(evs, pos, acc) == Ok(Parsed(CreativeValue(acc, cs), pos + CreativeSize(cs) + 1))
    decreases |cs|, 0
  {
    CreativeUncons(evs, pos, cs, acc);
    CreativeParse(evs, pos + CreativeChildSize(cs[0]), cs[1..], ApplyCreative(acc, cs[0]));
    CreativeStep(evs, pos, cs[0], acc, Ok(Parsed(CreativeValue(acc, cs), pos + CreativeSize(cs) + 1)));
  }

  /** The loop of parse_creatives at a `<Creative>` start tag. */
  lemma CreativesAtStart(evs: seq<Event>, pos: nat, attrs: seq<Attr>, acc: seq<Creative>,
                         c: Creative, next: nat, r: Result<Parsed<seq<Creative>>>)
    requires pos + 1 <= |evs| && At(evs, pos) == Start("Creative", attrs)
    requires CreativeSpec(evs, pos + 1, FoldAttrs(attrs, NoCreative, CreativeAttr)) == Ok(Parsed(c, next))
    requires next <= |evs| && CreativesSpec(evs, next, acc + [c]) == r
    ensures CreativesSpec(evs, pos, acc) == r
  {
  }

  lemma CreativeNodeStep(evs: seq<Event>, pos: nat, n: CreativeNode, acc: seq<Creative>,
                         r: Result<Parsed<seq<Creative>>>)
    requires CreativeNodeAt(evs, pos, n)
    requires pos + CreativeNodeSize(n) <= |evs|
    requires CreativesSpec(evs, pos + CreativeNodeSize(n), acc + [CreativeOf(n)]) == r
    ensures CreativesSpec(evs, pos, acc) == r
  {
    var a, next := FoldAttrs(n.attrs, NoCreative, CreativeAttr), pos + CreativeNodeSize(n);
    CreativeParse(evs, pos + 1, n.children, a);
    assert CreativeSpec(evs, pos + 1, a) == Ok(Parsed(CreativeOf(n), next));
    CreativesAtStart(evs, pos, n.attrs, acc, CreativeOf(n), next, r);
  }

  /** `<Creatives>`: every Creative child is appended, in document order. */
  lemma {:induction false} CreativesParse(evs: seq<Event>, pos: nat, ns: seq<CreativeNode>, acc: seq<Creative>)
    requires CreativeNodesAt(evs, pos, ns) && At(evs, pos + NodesSize(ns)) == End("Creatives")
    ensures pos <= |evs|
    ensures CreativesSpec(evs, pos, acc) == Ok(Parsed(acc + CreativesOf(ns), pos + NodesSize(ns) + 1))
    decreases |ns|, 1
  {
    if ns == [] {
      CreativesParseNil(evs, pos, ns, acc);
    } else {
      CreativesParseCons(evs, pos, ns, acc);
    }
  }

  /** The base case of CreativesParse: the list is over and `</Creatives>` follows. */
  lemma CreativesParseNil(evs: seq<Event>, pos: nat, ns: seq<CreativeNode>, acc: seq<Creative>)
    requires ns == [] && At(evs, pos + NodesSize(ns)) == End("Creatives")
    ensures pos <= |evs|
    ensures CreativesSpec(evs, pos, acc) == Ok(Parsed(acc + CreativesOf(ns), pos + NodesSize(ns) + 1))
  {
    AppendNothing(acc);
  }

  lemma CreativeNodesUncons(evs: seq<Event>, pos: nat, ns: seq<CreativeNode>)
    requires ns != [] && CreativeNodesAt(evs, pos, ns)
    ensures CreativeNodeAt(evs, pos, ns[0]) && CreativeNodesAt(evs, pos + CreativeNodeSize(ns[0]), ns[1..])
    ensures NodesSize(ns) == CreativeNodeSize(ns[0]) + NodesSize(ns[1..])
    ensures CreativesOf(ns) == [CreativeOf(ns[0])] + CreativesOf(ns[1..])
  {
  }

  /** The inductive step of CreativesParse: one known element in front of the rest of the list. */
  lemma {:induction false} CreativesParseCons(evs: seq<Event>, pos: nat, ns: seq<CreativeNode>, acc: seq<Creative>)
    requires ns != [] && CreativeNodesAt(evs, pos, ns) && At(evs, pos + NodesSize(ns)) == End("Creatives")
    ensures pos <= |evs|
    ensures CreativesSpec(evs, pos, acc) == Ok(Parsed(acc + CreativesOf(ns), pos + NodesSize(ns) + 1))
    decreases |ns|, 0
  {
    CreativeNodesUncons(evs, pos, ns);
    CreativesParse(evs, pos + CreativeNodeSize(ns[0]), ns[1..], acc + [CreativeOf(ns[0])]);
    AppendAssoc(acc, [CreativeOf(ns[0])], CreativesOf(ns[1..]));
    CreativeNodeStep(evs, pos, ns[0], acc, Ok(Parsed(acc + CreativesOf(ns), pos + NodesSize(ns) + 1)));
  }
}
