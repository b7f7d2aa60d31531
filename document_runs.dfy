/** The outer elements as runs of children: `<InLine>`, `<Wrapper>`, `<Ad>` and
    the whole document.

    As in module ParserRuns, a run is the list of an element's known children in
    document order, a predicate says that the stream holds it from a position on,
    and a fold gives the value the parser's loop builds from it. The lemmas here
    say what that value is: a singular child is overwritten, so the last one
    wins, while Impressions are appended in document order. */
module DocumentRuns {
  import opened Models
  import opened Errors
  import opened XmlEvents
  import opened ParserSpec
  import opened ParserProps
  import opened ParserRuns

  // ---------------------------------------------------------------------------
  // InLine

  /** The InLine children that hold one piece of text and set one field. */
  datatype InlineText = TitleText | DescriptionText | AdvertiserText | SurveyText | ErrorText

  datatype InlineChild =
    | InlineAdSystem(system: Leaf)
    | InlineTextChild(field: InlineText, text: string)
    | InlineImpression(impression: Leaf)
    | InlinePricing(pricing: Leaf)
    | InlineExtensions(extensions: seq<Leaf>)
    | InlineCreatives(creatives: seq<CreativeNode>)

  function InlineTextName(f: InlineText): string {
    match f
    case TitleText => "AdTitle"
    case DescriptionText => "Description"
    case AdvertiserText => "Advertiser"
    case SurveyText => "Survey"
    case ErrorText => "Error"
  }

  function InlineChildSize(c: InlineChild): nat {
    match c
    case InlineExtensions(ls) => 3 * |ls| + 2
    case InlineCreatives(ns) => NodesSize(ns) + 2
    case _ => 3
  }

  /** The stream holds the child `c` of `<InLine>` at `pos`. */
  predicate InlineChildAt(evs: seq<Event>, pos: nat, c: InlineChild) {
    match c
    case InlineAdSystem(l) => TextAt(evs, pos, "AdSystem", l.attrs, l.text)
    case InlineTextChild(f, t) => TextAt(evs, pos, InlineTextName(f), [], t)
    case InlineImpression(l) => TextAt(evs, pos, "Impression", l.attrs, l.text)
    case InlinePricing(l) => TextAt(evs, pos, "Pricing", l.attrs, l.text)
    case InlineExtensions(ls) =>
      At(evs, pos) == Start("Extensions", []) && LeavesAt(evs, pos + 1, "Extension", ls)
      && At(evs, pos + 1 + 3 * |ls|) == End("Extensions")
    case InlineCreatives(ns) =>
      At(evs, pos) == Start("Creatives", []) && CreativeNodesAt(evs, pos + 1, ns)
      && At(evs, pos + 1 + NodesSize(ns)) == End("Creatives")
  }

  function ApplyInlineText(v: InLine, f: InlineText, t: string): InLine {
    match f
    case TitleText => v.(adTitle := t)
    case DescriptionText => v.(description := Some(t))
    case AdvertiserText => v.(advertiser := Some(t))
    case SurveyText => v.(survey := Some(t))
    case ErrorText => v.(error := Some(t))
  }

  function ApplyInline(v: InLine, c: InlineChild): InLine {
    match c
    case InlineAdSystem(l) => v.(adSystem := AdSystemOf(l))
    case InlineTextChild(f, t) => ApplyInlineText(v, f, t)
    case InlineImpression(l) => v.(impressions := v.impressions + [ImpressionOf(l)])
    case InlinePricing(l) => v.(pricing := Some(PricingOf(l)))
    case InlineExtensions(ls) => v.(extensions := ExtensionsOf(ls))
    case InlineCreatives(ns) => v.(creatives := CreativesOf(ns))
  }

  function InlineValue(acc: InLine, cs: seq<InlineChild>): InLine
    decreases |cs|
  {
    if cs == [] then acc else InlineValue(ApplyInline(acc, cs[0]), cs[1..])
  }

  function InlineSize(cs: seq<InlineChild>): nat
    decreases |cs|
  {
    if cs == [] then 0 else InlineChildSize(cs[0]) + InlineSize(cs[1..])
  }

  predicate InlineAt(evs: seq<Event>, pos: nat, cs: seq<InlineChild>)
    decreases |cs|
  {
    cs == [] || (InlineChildAt(evs, pos, cs[0]) && InlineAt(evs, pos + InlineChildSize(cs[0]), cs[1..]))
  }

  /** The texts of the children of one kind, in document order. */
  function InlineTexts(cs: seq<InlineChild>, f: InlineText): seq<string>
    decreases |cs|
  {
    if cs == [] then []
    else (if cs[0].InlineTextChild? && cs[0].field == f then [cs[0].text] else []) + InlineTexts(cs[1..], f)
  }

  function InlineImpressions(cs: seq<InlineChild>): seq<Impression>
    decreases |cs|
  {
    if cs == [] then []
    else (if cs[0].InlineImpression? then [ImpressionOf(cs[0].impression)] else []) + InlineImpressions(cs[1..])
  }

  function InlineCreativeLists(cs: seq<InlineChild>): seq<seq<Creative>>
    decreases |cs|
  {
    if cs == [] then []
    else (if cs[0].InlineCreatives? then [CreativesOf(cs[0].creatives)] else []) + InlineCreativeLists(cs[1..])
  }

  /** The field one text child sets, as an optional value. */
  function InlineTextOf(v: InLine, f: InlineText): Option<string> {
    match f
    case TitleText => Some(v.adTitle)
    case DescriptionText => v.description
    case AdvertiserText => v.advertiser
    case SurveyText => v.survey
    case ErrorText => v.error
  }

  lemma InlineTextApplied(v: InLine, c: InlineChild, f: InlineText)
    ensures InlineTextOf(ApplyInline(v, c), f)
            == if c.InlineTextChild? && c.field == f then Some(c.text) else InlineTextOf(v, f)
  {
  }

  /** The last AdTitle, Description, Advertiser, Survey and Error each win. */
  lemma {:induction false} InlineTextLatest(acc: InLine, cs: seq<InlineChild>, f: InlineText)
    ensures InlineTextOf(InlineValue(acc, cs), f) == Latest(InlineTexts(cs, f), InlineTextOf(acc, f))
    decreases |cs|
  {
    if cs != [] {
      var c, rest := cs[0], cs[1..];
      InlineTextApplied(acc, c, f);
      InlineTextLatest(ApplyInline(acc, c), rest, f);
      if c.InlineTextChild? && c.field == f {
        LatestCons(c.text, InlineTexts(rest, f), InlineTextOf(acc, f));
      } else {
        AppendNothing(InlineTexts(rest, f));
      }
    }
  }

  function InlineAdSystems(cs: seq<InlineChild>): seq<AdSystem>
    decreases |cs|
  {
    if cs == [] then []
    else (if cs[0].InlineAdSystem? then [AdSystemOf(cs[0].system)] else []) + InlineAdSystems(cs[1..])
  }

  function InlinePricings(cs: seq<InlineChild>): seq<Pricing>
    decreases |cs|
  {
    if cs == [] then []
    else (if cs[0].InlinePricing? then [PricingOf(cs[0].pricing)] else []) + InlinePricings(cs[1..])
  }

  function InlineExtensionLists(cs: seq<InlineChild>): seq<seq<Extension>>
    decreases |cs|
  {
    if cs == [] then []
    else (if cs[0].InlineExtensions? then [ExtensionsOf(cs[0].extensions)] else []) + InlineExtensionLists(cs[1..])
  }

  /** The last AdSystem wins. */
  lemma {:induction false} InlineAdSystemLatest(acc: InLine, cs: seq<InlineChild>)
    ensures Some(InlineValue(acc, cs).adSystem) == Latest(InlineAdSystems(cs), Some(acc.adSystem))
    decreases |cs|
  {
    if cs != [] {
      var c, rest := cs[0], cs[1..];
      InlineAdSystemLatest(ApplyInline(acc, c), rest);
      if c.InlineAdSystem? {
        LatestCons(AdSystemOf(c.system), InlineAdSystems(rest), Some(acc.adSystem));
      } else {
        AppendNothing(InlineAdSystems(rest));
      }
    }
  }

  /** The last Pricing wins. */
  lemma {:induction false} InlinePricingLatest(acc: InLine, cs: seq<InlineChild>)
    ensures InlineValue(acc, cs).pricing == Latest(InlinePricings(cs), acc.pricing)
    decreases |cs|
  {
    if cs != [] {
      var c, rest := cs[0], cs[1..];
      InlinePricingLatest(ApplyInline(acc, c), rest);
      if c.InlinePricing? {
        LatestCons(PricingOf(c.pricing), InlinePricings(rest), acc.pricing);
      } else {
        AppendNothing(InlinePricings(rest));
      }
    }
  }

  /** The last Extensions list wins; lists are not merged. */
  lemma {:induction false} InlineExtensionsLatest(acc: InLine, cs: seq<InlineChild>)
    ensures Some(InlineValue(acc, cs).extensions) == Latest(InlineExtensionLists(cs), Some(acc.extensions))
    decreases |cs|
  {
    if cs != [] {
      var c, rest := cs[0], cs[1..];
      InlineExtensionsLatest(ApplyInline(acc, c), rest);
      if c.InlineExtensions? {
        LatestCons(ExtensionsOf(c.extensions), InlineExtensionLists(rest), Some(acc.extensions));
      } else {
        AppendNothing(InlineExtensionLists(rest));
      }
    }
  }

  /** Every Impression is appended, in document order. */
  lemma {:induction false} InlineImpressionsAppend(acc: InLine, cs: seq<InlineChild>)
    ensures InlineValue(acc, cs).impressions == acc.impressions + InlineImpressions(cs)
    decreases |cs|
  {
    if cs == [] {
      AppendNothing(acc.impressions);
    } else {
      var c, rest := cs[0], cs[1..];
      var k := if c.InlineImpression? then [ImpressionOf(c.impression)] else [];
      InlineImpressionApplied(acc, c);
      InlineImpressionsAppend(ApplyInline(acc, c), rest);
      AppendNothing(acc.impressions);
      AppendAssoc(acc.impressions, k, InlineImpressions(rest));
    }
  }

  lemma InlineImpressionApplied(v: InLine, c: InlineChild)
    ensures ApplyInline(v, c).impressions == v.impressions + (if c.InlineImpression? then [ImpressionOf(c.impression)] else [])
  {
    if !c.InlineImpression? {
      AppendNothing(v.impressions);
    }
  }

  /** The last Creatives list wins; lists are not merged. */
  lemma {:induction false} InlineCreativesLatest(acc: InLine, cs: seq<InlineChild>)
    ensures Some(InlineValue(acc, cs).creatives) == Latest(InlineCreativeLists(cs), Some(acc.creatives))
    decreases |cs|
  {
    if cs != [] {
      var c, rest := cs[0], cs[1..];
      InlineCreativesLatest(ApplyInline(acc, c), rest);
      if c.InlineCreatives? {
        LatestCons(CreativesOf(c.creatives), InlineCreativeLists(rest), Some(acc.creatives));
      } else {
        AppendNothing(InlineCreativeLists(rest));
      }
    }
  }

  /** What a run of InLine children makes of the record: every field but the
      impressions is singular and the last child that sets it wins; the
      impressions are appended in document order. */
  lemma InlineValueContents(acc: InLine, cs: seq<InlineChild>)
    ensures Some(InlineValue(acc, cs).adSystem) == Latest(InlineAdSystems(cs), Some(acc.adSystem))
    ensures Some(InlineValue(acc, cs).adTitle) == Latest(InlineTexts(cs, TitleText), Some(acc.adTitle))
    ensures InlineValue(acc, cs).impressions == acc.impressions + InlineImpressions(cs)
    ensures InlineValue(acc, cs).description == Latest(InlineTexts(cs, DescriptionText), acc.description)
    ensures InlineValue(acc, cs).advertiser == Latest(InlineTexts(cs, AdvertiserText), acc.advertiser)
    ensures InlineValue(acc, cs).survey == Latest(InlineTexts(cs, SurveyText), acc.survey)
    ensures InlineValue(acc, cs).error == Latest(InlineTexts(cs, ErrorText), acc.error)
    ensures InlineValue(acc, cs).pricing == Latest(InlinePricings(cs), acc.pricing)
    ensures Some(InlineValue(acc, cs).extensions) == Latest(InlineExtensionLists(cs), Some(acc.extensions))
    ensures Some(InlineValue(acc, cs).creatives) == Latest(InlineCreativeLists(cs), Some(acc.creatives))
  {
    InlineAdSystemLatest(acc, cs);
    InlineTextLatest(acc, cs, TitleText);
    InlineImpressionsAppend(acc, cs);
    InlineTextLatest(acc, cs, DescriptionText);
    InlineTextLatest(acc, cs, AdvertiserText);
    InlineTextLatest(acc, cs, SurveyText);
    InlineTextLatest(acc, cs, ErrorText);
    InlinePricingLatest(acc, cs);
    InlineExtensionsLatest(acc, cs);
    InlineCreativesLatest(acc, cs);
  }

  // ---------------------------------------------------------------------------
  // Wrapper

  datatype WrapperChild =
    | WrapperAdSystem(system: Leaf)
    | WrapperTagUri(uri: string)
    | WrapperImpression(impression: Leaf)
    | WrapperError(text: string)
    | WrapperExtensions(extensions: seq<Leaf>)
    | WrapperCreatives(creatives: seq<CreativeNode>)

  function WrapperChildSize(c: WrapperChild): nat {
    match c
    case WrapperExtensions(ls) => 3 * |ls| + 2
    case WrapperCreatives(ns) => NodesSize(ns) + 2
    case _ => 3
  }

  predicate WrapperChildAt(evs: seq<Event>, pos: nat, c: WrapperChild) {
    match c
    case WrapperAdSystem(l) => TextAt(evs, pos, "AdSystem", l.attrs, l.text)
    case WrapperTagUri(u) => TextAt(evs, pos, "VASTAdTagURI", [], u)
    case WrapperImpression(l) => TextAt(evs, pos, "Impression", l.attrs, l.text)
    case WrapperError(t) => TextAt(evs, pos, "Error", [], t)
    case WrapperExtensions(ls) =>
      At(evs, pos) == Start("Extensions", []) && LeavesAt(evs, pos + 1, "Extension", ls)
      && At(evs, pos + 1 + 3 * |ls|) == End("Extensions")
    case WrapperCreatives(ns) =>
      At(evs, pos) == Start("Creatives", []) && CreativeNodesAt(evs, pos + 1, ns)
      && At(evs, pos + 1 + NodesSize(ns)) == End("Creatives")
  }

  function ApplyWrapper(w: Wrapper, c: WrapperChild): Wrapper {
    match c
    case WrapperAdSystem(l) => w.(adSystem := AdSystemOf(l))
    case WrapperTagUri(u) => w.(vastAdTagUri := u)
    case WrapperImpression(l) => w.(impressions := w.impressions + [ImpressionOf(l)])
    case WrapperError(t) => w.(error := Some(t))
    case WrapperExtensions(ls) => w.(extensions := ExtensionsOf(ls))
    case WrapperCreatives(ns) => w.(creatives := CreativesOf(ns))
  }

  function WrapperValue(acc: Wrapper, cs: seq<WrapperChild>): Wrapper
    decreases |cs|
  {
    if cs == [] then acc else WrapperValue(ApplyWrapper(acc, cs[0]), cs[1..])
  }

  function WrapperSize(cs: seq<WrapperChild>): nat
    decreases |cs|
  {
    if cs == [] then 0 else WrapperChildSize(cs[0]) + WrapperSize(cs[1..])
  }

  predicate WrapperAt(evs: seq<Event>, pos: nat, cs: seq<WrapperChild>)
    decreases |cs|
  {
    cs == [] || (WrapperChildAt(evs, pos, cs[0]) && WrapperAt(evs, pos + WrapperChildSize(cs[0]), cs[1..]))
  }

  function TagUris(cs: seq<WrapperChild>): seq<string>
    decreases |cs|
  {
    if cs == [] then [] else (if cs[0].WrapperTagUri? then [cs[0].uri] else []) + TagUris(cs[1..])
  }

  function WrapperImpressions(cs: seq<WrapperChild>): seq<Impression>
    decreases |cs|
  {
    if cs == [] then []
    else (if cs[0].WrapperImpression? then [ImpressionOf(cs[0].impression)] else []) + WrapperImpressions(cs[1..])
  }

  /** The last VASTAdTagURI wins. */
  lemma {:induction false} WrapperUriLatest(acc: Wrapper, cs: seq<WrapperChild>)
    ensures Some(WrapperValue(acc, cs).vastAdTagUri) == Latest(TagUris(cs), Some(acc.vastAdTagUri))
    decreases |cs|
  {
    if cs != [] {
      var c, rest := cs[0], cs[1..];
      WrapperUriLatest(ApplyWrapper(acc, c), rest);
      if c.WrapperTagUri? {
        LatestCons(c.uri, TagUris(rest), Some(acc.vastAdTagUri));
      } else {
        AppendNothing(TagUris(rest));
      }
    }
  }

  /** Every Impression is appended, in document order. */
  lemma {:induction false} WrapperImpressionsAppend(acc: Wrapper, cs: seq<WrapperChild>)
    ensures WrapperValue(acc, cs).impressions == acc.impressions + WrapperImpressions(cs)
    decreases |cs|
  {
    if cs == [] {
      AppendNothing(acc.impressions);
    } else {
      var c, rest := cs[0], cs[1..];
      var k := if c.WrapperImpression? then [ImpressionOf(c.impression)] else [];
      WrapperImpressionApplied(acc, c);
      WrapperImpressionsAppend(ApplyWrapper(acc, c), rest);
      AppendNothing(acc.impressions);
      AppendAssoc(acc.impressions, k, WrapperImpressions(rest));
    }
  }

  lemma WrapperImpressionApplied(w: Wrapper, c: WrapperChild)
    ensures ApplyWrapper(w, c).impressions == w.impressions + (if c.WrapperImpression? then [ImpressionOf(c.impression)] else [])
  {
    if !c.WrapperImpression? {
      AppendNothing(w.impressions);
    }
  }

  function WrapperAdSystems(cs: seq<WrapperChild>): seq<AdSystem>
    decreases |cs|
  {
    if cs == [] then []
    else (if cs[0].WrapperAdSystem? then [AdSystemOf(cs[0].system)] else []) + WrapperAdSystems(cs[1..])
  }

  function WrapperErrors(cs: seq<WrapperChild>): seq<string>
    decreases |cs|
  {
    if cs == [] then [] else (if cs[0].WrapperError? then [cs[0].text] else []) + WrapperErrors(cs[1..])
  }

  function WrapperExtensionLists(cs: seq<WrapperChild>): seq<seq<Extension>>
    decreases |cs|
  {
    if cs == [] then []
    else (if cs[0].WrapperExtensions? then [ExtensionsOf(cs[0].extensions)] else []) + WrapperExtensionLists(cs[1..])
  }

  function WrapperCreativeLists(cs: seq<WrapperChild>): seq<seq<Creative>>
    decreases |cs|
  {
    if cs == [] then []
    else (if cs[0].WrapperCreatives? then [CreativesOf(cs[0].creatives)] else []) + WrapperCreativeLists(cs[1..])
  }

  /** The last AdSystem wins. */
  lemma {:induction false} WrapperAdSystemLatest(acc: Wrapper, cs: seq<WrapperChild>)
    ensures Some(WrapperValue(acc, cs).adSystem) == Latest(WrapperAdSystems(cs), Some(acc.adSystem))
    decreases |cs|
  {
    if cs != [] {
      var c, rest := cs[0], cs[1..];
      WrapperAdSystemLatest(ApplyWrapper(acc, c), rest);
      if c.WrapperAdSystem? {
        LatestCons(AdSystemOf(c.system), WrapperAdSystems(rest), Some(acc.adSystem));
      } else {
        AppendNothing(WrapperAdSystems(rest));
      }
    }
  }

  /** The last Error wins. */
  lemma {:induction false} WrapperErrorLatest(acc: Wrapper, cs: seq<WrapperChild>)
    ensures WrapperValue(acc, cs).error == Latest(WrapperErrors(cs), acc.error)
    decreases |cs|
  {
    if cs != [] {
      var c, rest := cs[0], cs[1..];
      WrapperErrorLatest(ApplyWrapper(acc, c), rest);
      if c.WrapperError? {
        LatestCons(c.text, WrapperErrors(rest), acc.error);
      } else {
        AppendNothing(WrapperErrors(rest));
      }
    }
  }

  /** The last Extensions list wins. */
  lemma {:induction false} WrapperExtensionsLatest(acc: Wrapper, cs: seq<WrapperChild>)
    ensures Some(WrapperValue(acc, cs).extensions) == Latest(WrapperExtensionLists(cs), Some(acc.extensions))
    decreases |cs|
  {
    if cs != [] {
      var c, rest := cs[0], cs[1..];
      WrapperExtensionsLatest(ApplyWrapper(acc, c), rest);
      if c.WrapperExtensions? {
        LatestCons(ExtensionsOf(c.extensions), WrapperExtensionLists(rest), Some(acc.extensions));
      } else {
        AppendNothing(WrapperExtensionLists(rest));
      }
    }
  }

  /** The last Creatives list wins. */
  lemma {:induction false} WrapperCreativesLatest(acc: Wrapper, cs: seq<WrapperChild>)
    ensures Some(WrapperValue(acc, cs).creatives) == Latest(WrapperCreativeLists(cs), Some(acc.creatives))
    decreases |cs|
  {
    if cs != [] {
      var c, rest := cs[0], cs[1..];
      WrapperCreativesLatest(ApplyWrapper(acc, c), rest);
      if c.WrapperCreatives? {
        LatestCons(CreativesOf(c.creatives), WrapperCreativeLists(rest), Some(acc.creatives));
      } else {
        AppendNothing(WrapperCreativeLists(rest));
      }
    }
  }

  /** What a run of Wrapper children makes of the record: every field but the
      impressions is singular and the last child that sets it wins; the
      impressions are appended in document order. */
  lemma WrapperValueContents(acc: Wrapper, cs: seq<WrapperChild>)
    ensures Some(WrapperValue(acc, cs).adSystem) == Latest(WrapperAdSystems(cs), Some(acc.adSystem))
    ensures Some(WrapperValue(acc, cs).vastAdTagUri) == Latest(TagUris(cs), Some(acc.vastAdTagUri))
    ensures WrapperValue(acc, cs).impressions == acc.impressions + WrapperImpressions(cs)
    ensures WrapperValue(acc, cs).error == Latest(WrapperErrors(cs), acc.error)
    ensures Some(WrapperValue(acc, cs).extensions) == Latest(WrapperExtensionLists(cs), Some(acc.extensions))
    ensures Some(WrapperValue(acc, cs).creatives) == Latest(WrapperCreativeLists(cs), Some(acc.creatives))
  {
    WrapperAdSystemLatest(acc, cs);
    WrapperUriLatest(acc, cs);
    WrapperImpressionsAppend(acc, cs);
    WrapperErrorLatest(acc, cs);
    WrapperExtensionsLatest(acc, cs);
    WrapperCreativesLatest(acc, cs);
  }

  // ---------------------------------------------------------------------------
  // Ad, the list of ads, the document

  datatype AdChild = InlineElement(inlineChildren: seq<InlineChild>) | WrapperElement(wrapperChildren: seq<WrapperChild>)

  function AdChildSize(c: AdChild): nat {
    match c
    case InlineElement(cs) => InlineSize(cs) + 2
    case WrapperElement(cs) => WrapperSize(cs) + 2
  }

  predicate AdChildAt(evs: seq<Event>, pos: nat, c: AdChild) {
    match c
    case InlineElement(cs) =>
      At(evs, pos) == Start("InLine", []) && InlineAt(evs, pos + 1, cs)
      && At(evs, pos + 1 + InlineSize(cs)) == End("InLine")
    case WrapperElement(cs) =>
      At(evs, pos) == Start("Wrapper", []) && WrapperAt(evs, pos + 1, cs)
      && At(evs, pos + 1 + WrapperSize(cs)) == End("Wrapper")
  }

  function ApplyAd(a: Ad, c: AdChild): Ad {
    match c
    case InlineElement(cs) => a.(inline := Some(InlineValue(NoInLine, cs)))
    case WrapperElement(cs) => a.(wrapper := Some(WrapperValue(NoWrapper, cs)))
  }

  function AdValue(acc: Ad, cs: seq<AdChild>): Ad
    decreases |cs|
  {
    if cs == [] then acc else AdValue(ApplyAd(acc, cs[0]), cs[1..])
  }

  function AdSize(cs: seq<AdChild>): nat
    decreases |cs|
  {
    if cs == [] then 0 else AdChildSize(cs[0]) + AdSize(cs[1..])
  }

  predicate AdAt(evs: seq<Event>, pos: nat, cs: seq<AdChild>)
    decreases |cs|
  {
    cs == [] || (AdChildAt(evs, pos, cs[0]) && AdAt(evs, pos + AdChildSize(cs[0]), cs[1..]))
  }

  function Inlines(cs: seq<AdChild>): seq<InLine>
    decreases |cs|
  {
    if cs == [] then []
    else (if cs[0].InlineElement? then [InlineValue(NoInLine, cs[0].inlineChildren)] else []) + Inlines(cs[1..])
  }

  function Wrappers(cs: seq<AdChild>): seq<Wrapper>
    decreases |cs|
  {
    if cs == [] then []
    else (if cs[0].WrapperElement? then [WrapperValue(NoWrapper, cs[0].wrapperChildren)] else []) + Wrappers(cs[1..])
  }

  /** The last InLine and the last Wrapper win, independently of each other;
      the attributes read from the start tag are kept. */
  lemma {:induction false} AdValueContents(acc: Ad, cs: seq<AdChild>)
    ensures AdValue(acc, cs).inline == Latest(Inlines(cs), acc.inline)
    ensures AdValue(acc, cs).wrapper == Latest(Wrappers(cs), acc.wrapper)
    ensures AdValue(acc, cs).id == acc.id && AdValue(acc, cs).sequence == acc.sequence
    ensures AdValue(acc, cs).conditionalAd == acc.conditionalAd
    decreases |cs|
  {
    if cs != [] {
      var c, rest := cs[0], cs[1..];
      AdValueContents(ApplyAd(acc, c), rest);
      match c
      case InlineElement(k) =>
        LatestCons(InlineValue(NoInLine, k), Inlines(rest), acc.inline);
        AppendNothing(Wrappers(rest));
      case WrapperElement(k) =>
        LatestCons(WrapperValue(NoWrapper, k), Wrappers(rest), acc.wrapper);
        AppendNothing(Inlines(rest));
    }
  }

  /** An `<Ad>` element: its attributes and its run of children. */
  datatype AdNode = AdNode(attrs: seq<Attr>, children: seq<AdChild>)

  function AdNodeSize(n: AdNode): nat {
    AdSize(n.children) + 2
  }

  predicate AdNodeAt(evs: seq<Event>, pos: nat, n: AdNode) {
    At(evs, pos) == Start("Ad", n.attrs) && AdAt(evs, pos + 1, n.children)
    && At(evs, pos + 1 + AdSize(n.children)) == End("Ad")
  }

  function AdOf(n: AdNode): Ad {
    AdValue(FoldAttrs(n.attrs, NoAd, AdAttr), n.children)
  }

  function AdNodesSize(ns: seq<AdNode>): nat
    decreases |ns|
  {
    if ns == [] then 0 else AdNodeSize(ns[0]) + AdNodesSize(ns[1..])
  }

  predicate AdNodesAt(evs: seq<Event>, pos: nat, ns: seq<AdNode>)
    decreases |ns|
  {
    ns == [] || (AdNodeAt(evs, pos, ns[0]) && AdNodesAt(evs, pos + AdNodeSize(ns[0]), ns[1..]))
  }

  function AdsOf(ns: seq<AdNode>): (r: seq<Ad>)
    ensures |r| == |ns|
    decreases |ns|
  {
    if ns == [] then [] else [AdOf(ns[0])] + AdsOf(ns[1..])
  }

  /** A whole document: the `<VAST>` start tag with its attributes first, then
      the ads, then `</VAST>`. */
  predicate DocumentAt(evs: seq<Event>, attrs: seq<Attr>, ns: seq<AdNode>) {
    At(evs, 0) == Start("VAST", attrs) && AdNodesAt(evs, 1, ns) && At(evs, 1 + AdNodesSize(ns)) == End("VAST")
  }
}
