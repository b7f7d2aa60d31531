/** The element loops of parse_inline_element, parse_wrapper_element,
    parse_ad_element, parse_ads and parse_vast, run over the runs of module
    DocumentRuns: each reads a well-formed run to the value its fold gives.

    The proofs follow module ParserRunLoops: a child reader is first stated on
    its own result, then one step of the loop consumes one child, and the run
    lemma is an induction over the children. */
module DocumentRunLoops {
  import opened Models
  import opened Errors
  import opened XmlEvents
  import opened ParserSpec
  import opened ParserRuns
  import opened ParserRunLoops
  import opened DocumentRuns

  // ---------------------------------------------------------------------------
  // Leaf readers shared by InLine and Wrapper

  lemma AdSystemReads(evs: seq<Event>, pos: nat, l: Leaf)
    requires TextAt(evs, pos, "AdSystem", l.attrs, l.text)
    ensures pos + 3 <= |evs|
    ensures AdSystemSpec(evs, pos + 1, l.attrs) == Ok(Parsed(AdSystemOf(l), pos + 3))
  {
    ReadsText(evs, pos, "AdSystem", l.attrs, l.text, "");
  }

  lemma ImpressionReads(evs: seq<Event>, pos: nat, l: Leaf)
    requires TextAt(evs, pos, "Impression", l.attrs, l.text)
    ensures pos + 3 <= |evs|
    ensures ImpressionSpec(evs, pos + 1, l.attrs) == Ok(Parsed(ImpressionOf(l), pos + 3))
  {
    ReadsText(evs, pos, "Impression", l.attrs, l.text, "");
  }

  lemma PricingReads(evs: seq<Event>, pos: nat, l: Leaf)
    requires TextAt(evs, pos, "Pricing", l.attrs, l.text)
    ensures pos + 3 <= |evs|
    ensures PricingSpec(evs, pos + 1, l.attrs) == Ok(Parsed(PricingOf(l), pos + 3))
  {
    ReadsText(evs, pos, "Pricing", l.attrs, l.text, "");
  }

  lemma ExtensionsReads(evs: seq<Event>, pos: nat, ls: seq<Leaf>)
    requires LeavesAt(evs, pos + 1, "Extension", ls) && At(evs, pos + 1 + 3 * |ls|) == End("Extensions")
    ensures pos + 3 * |ls| + 2 <= |evs|
    ensures ExtensionsSpec(evs, pos + 1, []) == Ok(Parsed(ExtensionsOf(ls), pos + 3 * |ls| + 2))
  {
    ExtensionsParse(evs, pos + 1, ls, []);
    AppendNothing(ExtensionsOf(ls));
  }

  lemma CreativesReads(evs: seq<Event>, pos: nat, ns: seq<CreativeNode>)
    requires CreativeNodesAt(evs, pos + 1, ns) && At(evs, pos + 1 + NodesSize(ns)) == End("Creatives")
    ensures pos + NodesSize(ns) + 2 <= |evs|
    ensures CreativesSpec(evs, pos + 1, []) == Ok(Parsed(CreativesOf(ns), pos + NodesSize(ns) + 2))
  {
    CreativesParse(evs, pos + 1, ns, []);
    AppendNothing(CreativesOf(ns));
  }

  // ---------------------------------------------------------------------------
  // InLine

  // The loop of parse_inline_element at the start tag of each known child: the child's
  // reader runs, its value goes into its field, and the loop goes on after it.

  lemma AdSystemAtStartInInline(evs: seq<Event>, pos: nat, attrs: seq<Attr>, acc: InLine, v: AdSystem, next: nat, r: Result<Parsed<InLine>>)
    requires pos + 1 <= |evs| && At(evs, pos) == Start("AdSystem", attrs)
    requires AdSystemSpec(evs, pos + 1, attrs) == Ok(Parsed(v, next))
    requires next <= |evs| && InlineSpec(evs, next, acc.(adSystem := v)) == r
    ensures InlineSpec(evs, pos, acc) == r
  {
  }

  lemma TextAtStartInInline(evs: seq<Event>, pos: nat, f: InlineText, acc: InLine, v: string, next: nat, r: Result<Parsed<InLine>>)
    requires pos + 1 <= |evs| && At(evs, pos) == Start(InlineTextName(f), [])
    requires ReadTextSpec(evs, pos + 1, "") == Ok(Parsed(v, next))
    requires next <= |evs| && InlineSpec(evs, next, ApplyInlineText(acc, f, v)) == r
    ensures InlineSpec(evs, pos, acc) == r
  {
  }

  lemma ImpressionAtStartInInline(evs: seq<Event>, pos: nat, attrs: seq<Attr>, acc: InLine, v: Impression, next: nat, r: Result<Parsed<InLine>>)
    requires pos + 1 <= |evs| && At(evs, pos) == Start("Impression", attrs)
    requires ImpressionSpec(evs, pos + 1, attrs) == Ok(Parsed(v, next))
    requires next <= |evs| && InlineSpec(evs, next, acc.(impressions := acc.impressions + [v])) == r
    ensures InlineSpec(evs, pos, acc) == r
  {
  }

  lemma PricingAtStartInInline(evs: seq<Event>, pos: nat, attrs: seq<Attr>, acc: InLine, v: Pricing, next: nat, r: Result<Parsed<InLine>>)
    requires pos + 1 <= |evs| && At(evs, pos) == Start("Pricing", attrs)
    requires PricingSpec(evs, pos + 1, attrs) == Ok(Parsed(v, next))
    requires next <= |evs| && InlineSpec(evs, next, acc.(pricing := Some(v))) == r
    ensures InlineSpec(evs, pos, acc) == r
  {
  }

  lemma ExtensionsAtStartInInline(evs: seq<Event>, pos: nat, acc: InLine, v: seq<Extension>, next: nat, r: Result<Parsed<InLine>>)
    requires pos + 1 <= |evs| && At(evs, pos) == Start("Extensions", [])
    requires ExtensionsSpec(evs, pos + 1, []) == Ok(Parsed(v, next))
    requires next <= |evs| && InlineSpec(evs, next, acc.(extensions := v)) == r
    ensures InlineSpec(evs, pos, acc) == r
  {
  }

  lemma CreativesAtStartInInline(evs: seq<Event>, pos: nat, acc: InLine, v: seq<Creative>, next: nat, r: Result<Parsed<InLine>>)
    requires pos + 1 <= |evs| && At(evs, pos) == Start("Creatives", [])
    requires CreativesSpec(evs, pos + 1, []) == Ok(Parsed(v, next))
    requires next <= |evs| && InlineSpec(evs, next, acc.(creatives := v)) == r
    ensures InlineSpec(evs, pos, acc) == r
  {
  }

  lemma InlineStep(evs: seq<Event>, pos: nat, c: InlineChild, acc: InLine, r: Result<Parsed<InLine>>)
    requires InlineChildAt(evs, pos, c)
    requires pos + InlineChildSize(c) <= |evs|
    requires InlineSpec(evs, pos + InlineChildSize(c), ApplyInline(acc, c)) == r
    ensures InlineSpec(evs, pos, acc) == r
  {
    if c.InlineAdSystem? {
      InlineAdSystemStep(evs, pos, c, acc, r);
    } else if c.InlineTextChild? {
      InlineTextStep(evs, pos, c, acc, r);
    } else if c.InlineImpression? {
      InlineImpressionStep(evs, pos, c, acc, r);
    } else if c.InlinePricing? {
      InlinePricingStep(evs, pos, c, acc, r);
    } else if c.InlineExtensions? {
      InlineExtensionsStep(evs, pos, c, acc, r);
    } else {
      InlineCreativesStep(evs, pos, c, acc, r);
    }
  }

  // One lemma per kind of child, each stated as InlineStep is.

  lemma InlineAdSystemStep(evs: seq<Event>, pos: nat, c: InlineChild, acc: InLine, r: Result<Parsed<InLine>>)
    requires c.InlineAdSystem? && InlineChildAt(evs, pos, c)
    requires pos + InlineChildSize(c) <= |evs|
    requires InlineSpec(evs, pos + InlineChildSize(c), ApplyInline(acc, c)) == r
    ensures InlineSpec(evs, pos, acc) == r
  {
    var l := c.system;
    AdSystemReads(evs, pos, l);
    AdSystemAtStartInInline(evs, pos, l.attrs, acc, AdSystemOf(l), pos + 3, r);
  }

  lemma InlineTextStep(evs: seq<Event>, pos: nat, c: InlineChild, acc: InLine, r: Result<Parsed<InLine>>)
    requires c.InlineTextChild? && InlineChildAt(evs, pos, c)
    requires pos + InlineChildSize(c) <= |evs|
    requires InlineSpec(evs, pos + InlineChildSize(c), ApplyInline(acc, c)) == r
    ensures InlineSpec(evs, pos, acc) == r
  {
    ReadsText(evs, pos, InlineTextName(c.field), [], c.text, "");
    TextAtStartInInline(evs, pos, c.field, acc, c.text, pos + 3, r);
  }

  lemma InlineImpressionStep(evs: seq<Event>, pos: nat, c: InlineChild, acc: InLine, r: Result<Parsed<InLine>>)
    requires c.InlineImpression? && InlineChildAt(evs, pos, c)
    requires pos + InlineChildSize(c) <= |evs|
    requires InlineSpec(evs, pos + InlineChildSize(c), ApplyInline(acc, c)) == r
    ensures InlineSpec(evs, pos, acc) == r
  {
    var l := c.impression;
    ImpressionReads(evs, pos, l);
    ImpressionAtStartInInline(evs, pos, l.attrs, acc, ImpressionOf(l), pos + 3, r);
  }

  lemma InlinePricingStep(evs: seq<Event>, pos: nat, c: InlineChild, acc: InLine, r: Result<Parsed<InLine>>)
    requires c.InlinePricing? && InlineChildAt(evs, pos, c)
    requires pos + InlineChildSize(c) <= |evs|
    requires InlineSpec(evs, pos + InlineChildSize(c), ApplyInline(acc, c)) == r
    ensures InlineSpec(evs, pos, acc) == r
  {
    var l := c.pricing;
    PricingReads(evs, pos, l);
    PricingAtStartInInline(evs, pos, l.attrs, acc, PricingOf(l), pos + 3, r);
  }

  lemma InlineExtensionsStep(evs: seq<Event>, pos: nat, c: InlineChild, acc: InLine, r: Result<Parsed<InLine>>)
    requires c.InlineExtensions? && InlineChildAt(evs, pos, c)
    requires pos + InlineChildSize(c) <= |evs|
    requires InlineSpec(evs, pos + InlineChildSize(c), ApplyInline(acc, c)) == r
    ensures InlineSpec(evs, pos, acc) == r
  {
    var ls := c.extensions;
    ExtensionsReads(evs, pos, ls);
    ExtensionsAtStartInInline(evs, pos, acc, ExtensionsOf(ls), pos + 3 * |ls| + 2, r);
  }

  lemma InlineCreativesStep(evs: seq<Event>, pos: nat, c: InlineChild, acc: InLine, r: Result<Parsed<InLine>>)
    requires c.InlineCreatives? && InlineChildAt(evs, pos, c)
    requires pos + InlineChildSize(c) <= |evs|
    requires InlineSpec(evs, pos + InlineChildSize(c), ApplyInline(acc, c)) == r
    ensures InlineSpec(evs, pos, acc) == r
  {
    var ns := c.creatives;
    CreativesReads(evs, pos, ns);
    CreativesAtStartInInline(evs, pos, acc, CreativesOf(ns), pos + NodesSize(ns) + 2, r);
  }

  /** `<InLine>` read from a run yields the run's value. */
  lemma {:induction false} InlineParse(evs: seq<Event>, pos: nat, cs: seq<InlineChild>, acc: InLine)
    requires InlineAt(evs, pos, cs) && At(evs, pos + InlineSize(cs)) == End("InLine")
    ensures pos <= |evs|
    ensures InlineSpec(evs, pos, acc) == Ok(Parsed(InlineValue(acc, cs), pos + InlineSize(cs) + 1))
    decreases |cs|, 1
  {
    if cs == [] {
      InlineParseNil(evs, pos, cs, acc);
    } else {
      InlineParseCons(evs, pos, cs, acc);
    }
  }

  /** The base case of InlineParse: the run is over and `</InLine>` follows. */
  lemma InlineParseNil(evs: seq<Event>, pos: nat, cs: seq<InlineChild>, acc: InLine)
    requires cs == [] && At(evs, pos + InlineSize(cs)) == End("InLine")
    ensures pos <= |evs|
    ensures InlineSpec(evs, pos, acc) == Ok(Parsed(InlineValue(acc, cs), pos + InlineSize(cs) + 1))
  {
  }

  lemma InlineUncons(evs: seq<Event>, pos: nat, cs: seq<InlineChild>, acc: InLine)
    requires cs != [] && InlineAt(evs, pos, cs)
    ensures InlineChildAt(evs, pos, cs[0]) && InlineAt(evs, pos + InlineChildSize(cs[0]), cs[1..])
    ensures InlineSize(cs) == InlineChildSize(cs[0]) + InlineSize(cs[1..])
    ensures InlineValue(acc, cs) == InlineValue(ApplyInline(acc, cs[0]), cs[1..])
  {
  }

  /** The inductive step of InlineParse: one known child in front of the rest of the run. */
  lemma {:induction false} InlineParseCons(evs: seq<Event>, pos: nat, cs: seq<InlineChild>, acc: InLine)
    requires cs != [] && InlineAt(evs, pos, cs) && At(evs, pos + InlineSize(cs)) == End("InLine")
    ensures pos <= |evs|
    ensures InlineSpec(evs, pos, acc) == Ok(Parsed(InlineValue(acc, cs), pos + InlineSize(cs) + 1))
    decreases |cs|, 0
  {
    InlineUncons(evs, pos, cs, acc);
    InlineParse(evs, pos + InlineChildSize(cs[0]), cs[1..], ApplyInline(acc, cs[0]));
    InlineStep(evs, pos, cs[0], acc, Ok(Parsed(InlineValue(acc, cs), pos + InlineSize(cs) + 1)));
  }

  // ---------------------------------------------------------------------------
  // Wrapper

  // The loop of parse_wrapper_element at the start tag of each known child: the child's
  // reader runs, its value goes into its field, and the loop goes on after it.

  lemma AdSystemAtStartInWrapper(evs: seq<Event>, pos: nat, attrs: seq<Attr>, acc: Wrapper, v: AdSystem, next: nat, r: Result<Parsed<Wrapper>>)
    requires pos + 1 <= |evs| && At(evs, pos) == Start("AdSystem", attrs)
    requires AdSystemSpec(evs, pos + 1, attrs) == Ok(Parsed(v, next))
    requires next <= |evs| && WrapperSpec(evs, next, acc.(adSystem := v)) == r
    ensures WrapperSpec(evs, pos, acc) == r
  {
  }

  lemma TagUriAtStartInWrapper(evs: seq<Event>, pos: nat, acc: Wrapper, v: string, next: nat, r: Result<Parsed<Wrapper>>)
    requires pos + 1 <= |evs| && At(evs, pos) == Start("VASTAdTagURI", [])
    requires ReadTextSpec(evs, pos + 1, "") == Ok(Parsed(v, next))
    requires next <= |evs| && WrapperSpec(evs, next, acc.(vastAdTagUri := v)) == r
    ensures WrapperSpec(evs, pos, acc) == r
  {
  }

  lemma ImpressionAtStartInWrapper(evs: seq<Event>, pos: nat, attrs: seq<Attr>, acc: Wrapper, v: Impression, next: nat, r: Result<Parsed<Wrapper>>)
    requires pos + 1 <= |evs| && At(evs, pos) == Start("Impression", attrs)
    requires ImpressionSpec(evs, pos + 1, attrs) == Ok(Parsed(v, next))
    requires next <= |evs| && WrapperSpec(evs, next, acc.(impressions := acc.impressions + [v])) == r
    ensures WrapperSpec(evs, pos, acc) == r
  {
  }

  lemma ErrorAtStartInWrapper(evs: seq<Event>, pos: nat, acc: Wrapper, v: string, next: nat, r: Result<Parsed<Wrapper>>)
    requires pos + 1 <= |evs| && At(evs, pos) == Start("Error", [])
    requires ReadTextSpec(evs, pos + 1, "") == Ok(Parsed(v, next))
    requires next <= |evs| && WrapperSpec(evs, next, acc.(error := Some(v))) == r
    ensures WrapperSpec(evs, pos, acc) == r
  {
  }

  lemma ExtensionsAtStartInWrapper(evs: seq<Event>, pos: nat, acc: Wrapper, v: seq<Extension>, next: nat, r: Result<Parsed<Wrapper>>)
    requires pos + 1 <= |evs| && At(evs, pos) == Start("Extensions", [])
    requires ExtensionsSpec(evs, pos + 1, []) == Ok(Parsed(v, next))
    requires next <= |evs| && WrapperSpec(evs, next, acc.(extensions := v)) == r
    ensures WrapperSpec(evs, pos, acc) == r
  {
  }

  lemma CreativesAtStartInWrapper(evs: seq<Event>, pos: nat, acc: Wrapper, v: seq<Creative>, next: nat, r: Result<Parsed<Wrapper>>)
    requires pos + 1 <= |evs| && At(evs, pos) == Start("Creatives", [])
    requires CreativesSpec(evs, pos + 1, []) == Ok(Parsed(v, next))
    requires next <= |evs| && WrapperSpec(evs, next, acc.(creatives := v)) == r
    ensures WrapperSpec(evs, pos, acc) == r
  {
  }

  lemma WrapperStep(evs: seq<Event>, pos: nat, c: WrapperChild, acc: Wrapper, r: Result<Parsed<Wrapper>>)
    requires WrapperChildAt(evs, pos, c)
    requires pos + WrapperChildSize(c) <= |evs|
    requires WrapperSpec(evs, pos + WrapperChildSize(c), ApplyWrapper(acc, c)) == r
    ensures WrapperSpec(evs, pos, acc) == r
  {
    if c.WrapperAdSystem? {
      WrapperAdSystemStep(evs, pos, c, acc, r);
    } else if c.WrapperTagUri? {
      WrapperTagUriStep(evs, pos, c, acc, r);
    } else if c.WrapperImpression? {
      WrapperImpressionStep(evs, pos, c, acc, r);
    } else if c.WrapperError? {
      WrapperErrorStep(evs, pos, c, acc, r);
    } else if c.WrapperExtensions? {
      WrapperExtensionsStep(evs, pos, c, acc, r);
    } else {
      WrapperCreativesStep(evs, pos, c, acc, r);
    }
  }

  // One lemma per kind of child, each stated as WrapperStep is.

  lemma WrapperAdSystemStep(evs: seq<Event>, pos: nat, c: WrapperChild, acc: Wrapper, r: Result<Parsed<Wrapper>>)
    requires c.WrapperAdSystem? && WrapperChildAt(evs, pos, c)
    requires pos + WrapperChildSize(c) <= |evs|
    requires WrapperSpec(evs, pos + WrapperChildSize(c), ApplyWrapper(acc, c)) == r
    ensures WrapperSpec(evs, pos, acc) == r
  {
    var l := c.system;
    AdSystemReads(evs, pos, l);
    AdSystemAtStartInWrapper(evs, pos, l.attrs, acc, AdSystemOf(l), pos + 3, r);
  }

  lemma WrapperTagUriStep(evs: seq<Event>, pos: nat, c: WrapperChild, acc: Wrapper, r: Result<Parsed<Wrapper>>)
    requires c.WrapperTagUri? && WrapperChildAt(evs, pos, c)
    requires pos + WrapperChildSize(c) <= |evs|
    requires WrapperSpec(evs, pos + WrapperChildSize(c), ApplyWrapper(acc, c)) == r
    ensures WrapperSpec(evs, pos, acc) == r
  {
    ReadsText(evs, pos, "VASTAdTagURI", [], c.uri, "");
    TagUriAtStartInWrapper(evs, pos, acc, c.uri, pos + 3, r);
  }

  lemma WrapperImpressionStep(evs: seq<Event>, pos: nat, c: WrapperChild, acc: Wrapper, r: Result<Parsed<Wrapper>>)
    requires c.WrapperImpression? && WrapperChildAt(evs, pos, c)
    requires pos + WrapperChildSize(c) <= |evs|
    requires WrapperSpec(evs, pos + WrapperChildSize(c), ApplyWrapper(acc, c)) == r
    ensures WrapperSpec(evs, pos, acc) == r
  {
    var l := c.impression;
    ImpressionReads(evs, pos, l);
    ImpressionAtStartInWrapper(evs, pos, l.attrs, acc, ImpressionOf(l), pos + 3, r);
  }

  lemma WrapperErrorStep(evs: seq<Event>, pos: nat, c: WrapperChild, acc: Wrapper, r: Result<Parsed<Wrapper>>)
    requires c.WrapperError? && WrapperChildAt(evs, pos, c)
    requires pos + WrapperChildSize(c) <= |evs|
    requires WrapperSpec(evs, pos + WrapperChildSize(c), ApplyWrapper(acc, c)) == r
    ensures WrapperSpec(evs, pos, acc) == r
  {
    ReadsText(evs, pos, "Error", [], c.text, "");
    ErrorAtStartInWrapper(evs, pos, acc, c.text, pos + 3, r);
  }

  lemma WrapperExtensionsStep(evs: seq<Event>, pos: nat, c: WrapperChild, acc: Wrapper, r: Result<Parsed<Wrapper>>)
    requires c.WrapperExtensions? && WrapperChildAt(evs, pos, c)
    requires pos + WrapperChildSize(c) <= |evs|
    requires WrapperSpec(evs, pos + WrapperChildSize(c), ApplyWrapper(acc, c)) == r
    ensures WrapperSpec(evs, pos, acc) == r
  {
    var ls := c.extensions;
    ExtensionsReads(evs, pos, ls);
    ExtensionsAtStartInWrapper(evs, pos, acc, ExtensionsOf(ls), pos + 3 * |ls| + 2, r);
  }

  lemma WrapperCreativesStep(evs: seq<Event>, pos: nat, c: WrapperChild, acc: Wrapper, r: Result<Parsed<Wrapper>>)
    requires c.WrapperCreatives? && WrapperChildAt(evs, pos, c)
    requires pos + WrapperChildSize(c) <= |evs|
    requires WrapperSpec(evs, pos + WrapperChildSize(c), ApplyWrapper(acc, c)) == r
    ensures WrapperSpec(evs, pos, acc) == r
  {
    var ns := c.creatives;
    CreativesReads(evs, pos, ns);
    CreativesAtStartInWrapper(evs, pos, acc, CreativesOf(ns), pos + NodesSize(ns) + 2, r);
  }

  /** `<Wrapper>` read from a run yields the run's value. */
  lemma {:induction false} WrapperParse(evs: seq<Event>, pos: nat, cs: seq<WrapperChild>, acc: Wrapper)
    requires WrapperAt(evs, pos, cs) && At(evs, pos + WrapperSize(cs)) == End("Wrapper")
    ensures pos <= |evs|
    ensures WrapperSpec(evs, pos, acc) == Ok(Parsed(WrapperValue(acc, cs), pos + WrapperSize(cs) + 1))
    decreases |cs|, 1
  {
    if cs == [] {
      WrapperParseNil(evs, pos, cs, acc);
    } else {
      WrapperParseCons(evs, pos, cs, acc);
    }
  }

  /** The base case of WrapperParse: the run is over and `</Wrapper>` follows. */
  lemma WrapperParseNil(evs: seq<Event>, pos: nat, cs: seq<WrapperChild>, acc: Wrapper)
    requires cs == [] && At(evs, pos + WrapperSize(cs)) == End("Wrapper")
    ensures pos <= |evs|
    ensures WrapperSpec(evs, pos, acc) == Ok(Parsed(WrapperValue(acc, cs), pos + WrapperSize(cs) + 1))
  {
  }

  lemma WrapperUncons(evs: seq<Event>, pos: nat, cs: seq<WrapperChild>, acc: Wrapper)
    requires cs != [] && WrapperAt(evs, pos, cs)
    ensures WrapperChildAt(evs, pos, cs[0]) && WrapperAt(evs, pos + WrapperChildSize(cs[0]), cs[1..])
    ensures WrapperSize(cs) == WrapperChildSize(cs[0]) + WrapperSize(cs[1..])
    ensures WrapperValue(acc, cs) == WrapperValue(ApplyWrapper(acc, cs[0]), cs[1..])
  {
  }

  /** The inductive step of WrapperParse: one known child in front of the rest of the run. */
  lemma {:induction false} WrapperParseCons(evs: seq<Event>, pos: nat, cs: seq<WrapperChild>, acc: Wrapper)
    requires cs != [] && WrapperAt(evs, pos, cs) && At(evs, pos + WrapperSize(cs)) == End("Wrapper")
    ensures pos <= |evs|
    ensures WrapperSpec(evs, pos, acc) == Ok(Parsed(WrapperValue(acc, cs), pos + WrapperSize(cs) + 1))
    decreases |cs|, 0
  {
    WrapperUncons(evs, pos, cs, acc);
    WrapperParse(evs, pos + WrapperChildSize(cs[0]), cs[1..], ApplyWrapper(acc, cs[0]));
    WrapperStep(evs, pos, cs[0], acc, Ok(Parsed(WrapperValue(acc, cs), pos + WrapperSize(cs) + 1)));
  }

  // ---------------------------------------------------------------------------
  // Ad

  /** The loop of parse_ad_element at `<InLine>`: parse_inline_element runs,
      its value replaces the ad's inline, and the loop goes on after it. */
  lemma InlineAtStartInAd(evs: seq<Event>, pos: nat, acc: Ad, v: InLine, next: nat, r: Result<Parsed<Ad>>)
    requires pos + 1 <= |evs| && At(evs, pos) == Start("InLine", [])
    requires InlineSpec(evs, pos + 1, NoInLine) == Ok(Parsed(v, next))
    requires next <= |evs| && AdSpec(evs, next, acc.(inline := Some(v))) == r
    ensures AdSpec(evs, pos, acc) == r
  {
  }

  lemma WrapperAtStartInAd(evs: seq<Event>, pos: nat, acc: Ad, w: Wrapper, next: nat, r: Result<Parsed<Ad>>)
    requires pos + 1 <= |evs| && At(evs, pos) == Start("Wrapper", [])
    requires WrapperSpec(evs, pos + 1, NoWrapper) == Ok(Parsed(w, next))
    requires next <= |evs| && AdSpec(evs, next, acc.(wrapper := Some(w))) == r
    ensures AdSpec(evs, pos, acc) == r
  {
  }

  /** The loop of parse_ad_element at `</Ad>`. */
  lemma AdAtEnd(evs: seq<Event>, pos: nat, acc: Ad)
    requires At(evs, pos) == End("Ad")
    ensures pos < |evs| && AdSpec(evs, pos, acc) == Ok(Parsed(acc, pos + 1))
  {
  }

  lemma AdStep(evs: seq<Event>, pos: nat, c: AdChild, acc: Ad, r: Result<Parsed<Ad>>)
    requires AdChildAt(evs, pos, c)
    requires pos + AdChildSize(c) <= |evs|
    requires AdSpec(evs, pos + AdChildSize(c), ApplyAd(acc, c)) == r
    ensures AdSpec(evs, pos, acc) == r
  {
    if c.InlineElement? {
      InlineStepInAd(evs, pos, c, acc, r);
    } else {
      WrapperStepInAd(evs, pos, c, acc, r);
    }
  }

  lemma InlineStepInAd(evs: seq<Event>, pos: nat, c: AdChild, acc: Ad, r: Result<Parsed<Ad>>)
    requires c.InlineElement? && AdChildAt(evs, pos, c)
    requires pos + AdChildSize(c) <= |evs|
    requires AdSpec(evs, pos + AdChildSize(c), ApplyAd(acc, c)) == r
    ensures AdSpec(evs, pos, acc) == r
  {
    var cs := c.inlineChildren;
    var v, next := InlineValue(NoInLine, cs), pos + InlineSize(cs) + 2;
    InlineParse(evs, pos + 1, cs, NoInLine);
    InlineAtStartInAd(evs, pos, acc, v, next, r);
  }

  lemma WrapperStepInAd(evs: seq<Event>, pos: nat, c: AdChild, acc: Ad, r: Result<Parsed<Ad>>)
    requires c.WrapperElement? && AdChildAt(evs, pos, c)
    requires pos + AdChildSize(c) <= |evs|
    requires AdSpec(evs, pos + AdChildSize(c), ApplyAd(acc, c)) == r
    ensures AdSpec(evs, pos, acc) == r
  {
    var cs := c.wrapperChildren;
    var w, next := WrapperValue(NoWrapper, cs), pos + WrapperSize(cs) + 2;
    WrapperParse(evs, pos + 1, cs, NoWrapper);
    WrapperAtStartInAd(evs, pos, acc, w, next, r);
  }

  /** `<Ad>` read from a run yields the run's value. */
  lemma {:induction false} AdParse(evs: seq<Event>, pos: nat, cs: seq<AdChild>, acc: Ad)
    requires AdAt(evs, pos, cs) && At(evs, pos + AdSize(cs)) == End("Ad")
    ensures pos <= |evs|
    ensures AdSpec(evs, pos, acc) == Ok(Parsed(AdValue(acc, cs), pos + AdSize(cs) + 1))
    decreases |cs|, 1
  {
    if cs == [] {
      AdParseNil(evs, pos, cs, acc);
    } else {
      AdParseCons(evs, pos, cs, acc);
    }
  }

  /** The base case of AdParse: the run is over and `</Ad>` follows. */
  lemma AdParseNil(evs: seq<Event>, pos: nat, cs: seq<AdChild>, acc: Ad)
    requires cs == [] && At(evs, pos + AdSize(cs)) == End("Ad")
    ensures pos <= |evs|
    ensures AdSpec(evs, pos, acc) == Ok(Parsed(AdValue(acc, cs), pos + AdSize(cs) + 1))
  {
    AdAtEnd(evs, pos, acc);
  }

  lemma AdUncons(evs: seq<Event>, pos: nat, cs: seq<AdChild>, acc: Ad)
    requires cs != [] && AdAt(evs, pos, cs)
    ensures AdChildAt(evs, pos, cs[0]) && AdAt(evs, pos + AdChildSize(cs[0]), cs[1..])
    ensures AdSize(cs) == AdChildSize(cs[0]) + AdSize(cs[1..])
    ensures AdValue(acc, cs) == AdValue(ApplyAd(acc, cs[0]), cs[1..])
  {
  }

  /** The inductive step of AdParse: one known child in front of the rest of the run. */
  lemma {:induction false} AdParseCons(evs: seq<Event>, pos: nat, cs: seq<AdChild>, acc: Ad)
    requires cs != [] && AdAt(evs, pos, cs) && At(evs, pos + AdSize(cs)) == End("Ad")
    ensures pos <= |evs|
    ensures AdSpec(evs, pos, acc) == Ok(Parsed(AdValue(acc, cs), pos + AdSize(cs) + 1))
    decreases |cs|, 0
  {
    AdUncons(evs, pos, cs, acc);
    AdParse(evs, pos + AdChildSize(cs[0]), cs[1..], ApplyAd(acc, cs[0]));
    AdStep(evs, pos, cs[0], acc, Ok(Parsed(AdValue(acc, cs), pos + AdSize(cs) + 1)));
  }

  // ---------------------------------------------------------------------------
  // The list of ads and the document

  lemma AdsAtStart(evs: seq<Event>, pos: nat, attrs: seq<Attr>, acc: seq<Ad>, a: Ad, next: nat, r: Result<Parsed<seq<Ad>>>)
    requires pos + 1 <= |evs| && At(evs, pos) == Start("Ad", attrs)
    requires AdSpec(evs, pos + 1, FoldAttrs(attrs, NoAd, AdAttr)) == Ok(Parsed(a, next))
    requires next <= |evs| && AdsSpec(evs, next, acc + [a]) == r
    ensures AdsSpec(evs, pos, acc) == r
  {
  }

  lemma AdNodeStep(evs: seq<Event>, pos: nat, n: AdNode, acc: seq<Ad>, r: Result<Parsed<seq<Ad>>>)
    requires AdNodeAt(evs, pos, n)
    requires pos + AdNodeSize(n) <= |evs|
    requires AdsSpec(evs, pos + AdNodeSize(n), acc + [AdOf(n)]) == r
    ensures AdsSpec(evs, pos, acc) == r
  {
    AdParse(evs, pos + 1, n.children, FoldAttrs(n.attrs, NoAd, AdAttr));
    AdsAtStart(evs, pos, n.attrs, acc, AdOf(n), pos + AdNodeSize(n), r);
  }

  /** parse_ads at `</VAST>`. */
  lemma AdsAtVastEnd(evs: seq<Event>, pos: nat, acc: seq<Ad>)
    requires At(evs, pos) == End("VAST")
    ensures pos < |evs| && AdsSpec(evs, pos, acc) == Ok(Parsed(acc, pos + 1))
  {
  }

  /** The ads of a run, then `</VAST>`, are appended in document order. */
  lemma {:induction false} AdsParse(evs: seq<Event>, pos: nat, ns: seq<AdNode>, acc: seq<Ad>)
    requires AdNodesAt(evs, pos, ns) && At(evs, pos + AdNodesSize(ns)) == End("VAST")
    ensures pos <= |evs|
    ensures AdsSpec(evs, pos, acc) == Ok(Parsed(acc + AdsOf(ns), pos + AdNodesSize(ns) + 1))
    decreases |ns|, 1
  {
    if ns == [] {
      AdsParseNil(evs, pos, ns, acc);
    } else {
      AdsParseCons(evs, pos, ns, acc);
    }
  }

  /** The base case of AdsParse: the list is over and `</VAST>` follows. */
  lemma AdsParseNil(evs: seq<Event>, pos: nat, ns: seq<AdNode>, acc: seq<Ad>)
    requires ns == [] && At(evs, pos + AdNodesSize(ns)) == End("VAST")
    ensures pos <= |evs|
    ensures AdsSpec(evs, pos, acc) == Ok(Parsed(acc + AdsOf(ns), pos + AdNodesSize(ns) + 1))
  {
    AdsAtVastEnd(evs, pos, acc);
    AppendNothing(acc);
  }

  lemma AdNodesUncons(evs: seq<Event>, pos: nat, ns: seq<AdNode>)
    requires ns != [] && AdNodesAt(evs, pos, ns)
    ensures AdNodeAt(evs, pos, ns[0]) && AdNodesAt(evs, pos + AdNodeSize(ns[0]), ns[1..])
    ensures AdNodesSize(ns) == AdNodeSize(ns[0]) + AdNodesSize(ns[1..])
    ensures AdsOf(ns) == [AdOf(ns[0])] + AdsOf(ns[1..])
  {
  }

  /** The inductive step of AdsParse: one known element in front of the rest of the list. */
  lemma {:induction false} AdsParseCons(evs: seq<Event>, pos: nat, ns: seq<AdNode>, acc: seq<Ad>)
    requires ns != [] && AdNodesAt(evs, pos, ns) && At(evs, pos + AdNodesSize(ns)) == End("VAST")
    ensures pos <= |evs|
    ensures AdsSpec(evs, pos, acc) == Ok(Parsed(acc + AdsOf(ns), pos + AdNodesSize(ns) + 1))
    decreases |ns|, 0
  {
    AdNodesUncons(evs, pos, ns);
    AdsParse(evs, pos + AdNodeSize(ns[0]), ns[1..], acc + [AdOf(ns[0])]);
    AppendAssoc(acc, [AdOf(ns[0])], AdsOf(ns[1..]));
    AdNodeStep(evs, pos, ns[0], acc, Ok(Parsed(acc + AdsOf(ns), pos + AdNodesSize(ns) + 1)));
  }

  /** A whole well-formed document with a non-empty version parses to that
      version and the ads of its run, in order; with an empty version it is
      refused. */
  lemma DocumentParse(evs: seq<Event>, attrs: seq<Attr>, ns: seq<AdNode>)
    requires DocumentAt(evs, attrs, ns)
    ensures FoldAttrs(attrs, "", VersionAttr) != "" ==>
              VastSpec(evs, 0) == Ok(Vast(FoldAttrs(attrs, "", VersionAttr), AdsOf(ns), None))
    ensures FoldAttrs(attrs, "", VersionAttr) == "" ==> VastSpec(evs, 0) == Err(MissingVersion)
  {
    AdsParse(evs, 1, ns, []);
    AppendNothing(AdsOf(ns));
  }
}
