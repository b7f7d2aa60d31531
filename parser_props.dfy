/** What src/parser.rs promises, stated on the reference functions of ParserSpec
    (and so, through their postconditions, on the methods of module Parser). */
module ParserProps {
  import opened Models
  import opened Errors
  import opened XmlEvents
  import opened Numbers
  import opened ParserSpec

  // ---------------------------------------------------------------------------
  // Reference definitions

  /** The first value given to `key`, read as a u32; None when there is none or
      it is not a u32. */
  function FirstU32(attrs: seq<Attr>, key: string): Option<u32> {
    match FirstValue(attrs, key)
    case Some(v) => ParseU32(v)
    case None => None
  }

  /** The first value given to `key`, read as a boolean flag. */
  function FirstFlag(attrs: seq<Attr>, key: string): Option<bool> {
    match FirstValue(attrs, key)
    case Some(v) => Some(IsTrueText(v))
    case None => None
  }

  /** Events a text read passes over without stopping or failing. */
  predicate InText(e: Event) {
    (e.Text? && e.text.Some?) || e.CData? || e.Start? || e.Empty?
  }

  /** The last decoded Text or CDATA payload of `s`, found from the back; `text`
      when there is none. */
  function LastText(s: seq<Event>, text: string): string {
    if s == [] then text
    else
      match s[|s| - 1]
      case Text(t) => if t.Some? then t.value else LastText(s[..|s| - 1], text)
      case CData(d) => if d.Some? then d.value else LastText(s[..|s| - 1], text)
      case _ => LastText(s[..|s| - 1], text)
  }

  /** Events that no element loop reacts to: nothing opens, closes or fails. */
  predicate Inert(evs: seq<Event>, pos: nat) {
    forall i :: pos <= i < |evs| ==> evs[i].Text? || evs[i].CData? || evs[i].Empty?
  }

  // ---------------------------------------------------------------------------
  // Attributes: the first occurrence of a key wins (a repeated key is an error
  // of the attribute iterator, which the loops pass over)

  lemma LatestCons<T>(x: T, vs: seq<T>, d: Option<T>)
    ensures Latest([x] + vs, d) == Latest(vs, Some(x))
  {
  }

  lemma {:induction false} VersionUnseen(attrs: seq<Attr>, seen: set<string>, init: string)
    ensures Some(FoldUnseen(attrs, seen, init, VersionAttr))
            == if "version" in seen then Some(init) else Or(FirstValue(attrs, "version"), Some(init))
    decreases |attrs|
  {
    if attrs != [] {
      var a, rest := attrs[0], attrs[1..];
      if a.key in seen {
        VersionUnseen(rest, seen, init);
      } else {
        VersionUnseen(rest, seen + {a.key}, VersionAttr(a, init));
      }
    }
  }

  /** The VAST version is the first `version` attribute, when it decodes;
      otherwise `init`. */
  lemma VersionIsFirst(attrs: seq<Attr>, init: string)
    ensures Some(FoldAttrs(attrs, init, VersionAttr)) == Or(FirstValue(attrs, "version"), Some(init))
  {
    VersionUnseen(attrs, {}, init);
  }

  lemma {:induction false} AdAttrsUnseen(attrs: seq<Attr>, seen: set<string>, ad: Ad)
    ensures FoldUnseen(attrs, seen, ad, AdAttr).id
            == if "id" in seen then ad.id else Or(FirstValue(attrs, "id"), ad.id)
    ensures FoldUnseen(attrs, seen, ad, AdAttr).sequence
            == if "sequence" in seen then ad.sequence else Or(FirstU32(attrs, "sequence"), ad.sequence)
    ensures FoldUnseen(attrs, seen, ad, AdAttr).conditionalAd
            == if "conditionalAd" in seen then ad.conditionalAd
               else Or(FirstFlag(attrs, "conditionalAd"), ad.conditionalAd)
    ensures FoldUnseen(attrs, seen, ad, AdAttr).inline == ad.inline
    ensures FoldUnseen(attrs, seen, ad, AdAttr).wrapper == ad.wrapper
    decreases |attrs|
  {
    if attrs != [] {
      var a, rest := attrs[0], attrs[1..];
      if a.key in seen {
        AdAttrsUnseen(rest, seen, ad);
      } else {
        AdAttrsUnseen(rest, seen + {a.key}, AdAttr(a, ad));
      }
    }
  }

  /** The `<Ad>` attributes: id, sequence and conditionalAd each come from the
      first occurrence of their key; a first sequence that is not a u32, like a
      first value that does not decode, leaves the field as it was. The payloads
      are untouched. */
  lemma AdAttrsFirst(attrs: seq<Attr>, ad: Ad)
    ensures FoldAttrs(attrs, ad, AdAttr).id == Or(FirstValue(attrs, "id"), ad.id)
    ensures FoldAttrs(attrs, ad, AdAttr).sequence == Or(FirstU32(attrs, "sequence"), ad.sequence)
    ensures FoldAttrs(attrs, ad, AdAttr).conditionalAd
            == Or(FirstFlag(attrs, "conditionalAd"), ad.conditionalAd)
    ensures FoldAttrs(attrs, ad, AdAttr).inline == ad.inline
    ensures FoldAttrs(attrs, ad, AdAttr).wrapper == ad.wrapper
  {
    AdAttrsUnseen(attrs, {}, ad);
  }

  lemma {:induction false} MediaFileTypeUnseen(attrs: seq<Attr>, seen: set<string>, m: MediaFile)
    ensures Some(FoldUnseen(attrs, seen, m, MediaFileAttr).mimeType)
            == if "type" in seen then Some(m.mimeType) else Or(FirstValue(attrs, "type"), Some(m.mimeType))
    decreases |attrs|
  {
    if attrs != [] {
      var a, rest := attrs[0], attrs[1..];
      if a.key in seen {
        MediaFileTypeUnseen(rest, seen, m);
      } else {
        MediaFileTypeUnseen(rest, seen + {a.key}, MediaFileAttr(a, m));
      }
    }
  }

  /** The `<MediaFile>` type attribute gives the MIME type; its first occurrence
      wins when it decodes. */
  lemma MediaFileTypeFirst(attrs: seq<Attr>, m: MediaFile)
    ensures Some(FoldAttrs(attrs, m, MediaFileAttr).mimeType) == Or(FirstValue(attrs, "type"), Some(m.mimeType))
  {
    MediaFileTypeUnseen(attrs, {}, m);
  }

  lemma {:induction false} MediaFileSizeUnseen(attrs: seq<Attr>, seen: set<string>, m: MediaFile)
    ensures FoldUnseen(attrs, seen, m, MediaFileAttr).width
            == if "width" in seen then m.width else Or(FirstU32(attrs, "width"), m.width)
    ensures FoldUnseen(attrs, seen, m, MediaFileAttr).height
            == if "height" in seen then m.height else Or(FirstU32(attrs, "height"), m.height)
    ensures FoldUnseen(attrs, seen, m, MediaFileAttr).bitrate
            == if "bitrate" in seen then m.bitrate else Or(FirstU32(attrs, "bitrate"), m.bitrate)
    ensures FoldUnseen(attrs, seen, m, MediaFileAttr).url == m.url
    decreases |attrs|
  {
    if attrs != [] {
      var a, rest := attrs[0], attrs[1..];
      if a.key in seen {
        MediaFileSizeUnseen(rest, seen, m);
      } else {
        MediaFileSizeUnseen(rest, seen + {a.key}, MediaFileAttr(a, m));
      }
    }
  }

  /** The `<MediaFile>` width, height and bitrate each come from the first
      occurrence of their key, when that is a u32; the url comes from the text,
      not the attributes. */
  lemma MediaFileSizeFirst(attrs: seq<Attr>, m: MediaFile)
    ensures FoldAttrs(attrs, m, MediaFileAttr).width == Or(FirstU32(attrs, "width"), m.width)
    ensures FoldAttrs(attrs, m, MediaFileAttr).height == Or(FirstU32(attrs, "height"), m.height)
    ensures FoldAttrs(attrs, m, MediaFileAttr).bitrate == Or(FirstU32(attrs, "bitrate"), m.bitrate)
    ensures FoldAttrs(attrs, m, MediaFileAttr).url == m.url
  {
    MediaFileSizeUnseen(attrs, {}, m);
  }

  lemma {:induction false} CreativeAttrsUnseen(attrs: seq<Attr>, seen: set<string>, c: Creative)
    ensures FoldUnseen(attrs, seen, c, CreativeAttr).id
            == if "id" in seen then c.id else Or(FirstValue(attrs, "id"), c.id)
    ensures FoldUnseen(attrs, seen, c, CreativeAttr).sequence
            == if "sequence" in seen then c.sequence else Or(FirstU32(attrs, "sequence"), c.sequence)
    ensures FoldUnseen(attrs, seen, c, CreativeAttr).adId
            == if "adId" in seen then c.adId else Or(FirstValue(attrs, "adId"), c.adId)
    ensures FoldUnseen(attrs, seen, c, CreativeAttr).apiFramework
            == if "apiFramework" in seen then c.apiFramework
               else Or(FirstValue(attrs, "apiFramework"), c.apiFramework)
    ensures FoldUnseen(attrs, seen, c, CreativeAttr).linear == c.linear
    decreases |attrs|
  {
    if attrs != [] {
      var a, rest := attrs[0], attrs[1..];
      if a.key in seen {
        CreativeAttrsUnseen(rest, seen, c);
      } else {
        CreativeAttrsUnseen(rest, seen + {a.key}, CreativeAttr(a, c));
      }
    }
  }

  /** The `<Creative>` attributes: id, sequence, adId and apiFramework each come
      from the first occurrence of their key; a first sequence that is not a u32
      leaves the field as it was. The Linear payload is untouched. */
  lemma CreativeAttrsFirst(attrs: seq<Attr>, c: Creative)
    ensures FoldAttrs(attrs, c, CreativeAttr).id == Or(FirstValue(attrs, "id"), c.id)
    ensures FoldAttrs(attrs, c, CreativeAttr).sequence == Or(FirstU32(attrs, "sequence"), c.sequence)
    ensures FoldAttrs(attrs, c, CreativeAttr).adId == Or(FirstValue(attrs, "adId"), c.adId)
    ensures FoldAttrs(attrs, c, CreativeAttr).apiFramework == Or(FirstValue(attrs, "apiFramework"), c.apiFramework)
    ensures FoldAttrs(attrs, c, CreativeAttr).linear == c.linear
  {
    CreativeAttrsUnseen(attrs, {}, c);
  }

  // ---------------------------------------------------------------------------
  // parse_vast

  /** Everything before the first `<VAST>` start tag is passed over. */
  lemma {:induction false} VastSkipsPrologue(evs: seq<Event>, pos: nat, q: nat)
    requires pos <= q <= |evs|
    requires forall i :: pos <= i < q ==>
               !evs[i].Eof? && !evs[i].XmlErr? && !(evs[i].Start? && evs[i].name == "VAST")
    ensures VastSpec(evs, pos) == VastSpec(evs, q)
    decreases q - pos
  {
    if pos < q {
      VastSkipsPrologue(evs, pos + 1, q);
    }
  }

  /** A document without a `<VAST>` element parses, as an empty document with an
      empty version. */
  lemma NoVastElement(evs: seq<Event>)
    requires forall i :: 0 <= i < |evs| ==>
               !evs[i].Eof? && !evs[i].XmlErr? && !(evs[i].Start? && evs[i].name == "VAST")
    ensures VastSpec(evs, 0) == Ok(Vast("", [], None))
  {
    VastSkipsPrologue(evs, 0, |evs|);
  }

  /** The version of a parsed document is the first `version` attribute of its
      `<VAST>` tag; when that is missing, undecodable or empty the parse fails
      with MissingField("VAST version"). */
  lemma VastVersion(evs: seq<Event>, pos: nat, attrs: seq<Attr>)
    requires pos < |evs| && evs[pos] == Start("VAST", attrs)
    ensures FirstValue(attrs, "version") in {None, Some("")} ==> VastSpec(evs, pos) == Err(MissingVersion)
    ensures VastSpec(evs, pos).Ok? ==> Some(VastSpec(evs, pos).value.version) == FirstValue(attrs, "version")
  {
    VersionIsFirst(attrs, "");
  }

  /** A repeated `version` attribute is passed over: `<VAST version="3.0"
      version="">` is a 3.0 document, not a missing version. */
  lemma RepeatedVersionIgnored(evs: seq<Event>, pos: nat, rest: seq<Attr>)
    requires pos < |evs|
    requires evs[pos] == Start("VAST", [Attr("version", Some("3.0")), Attr("version", Some(""))] + rest)
    ensures VastSpec(evs, pos) == match AdsSpec(evs, pos + 1, [])
                                  case Ok(ads) => Ok(Vast("3.0", ads.value, None))
                                  case Err(e) => Err(e)
  {
    var attrs := evs[pos].attrs;
    VersionIsFirst(attrs, "");
  }

  // ---------------------------------------------------------------------------
  // read_text_element

  lemma {:induction false} LastTextFront(s: seq<Event>, text: string)
    requires s != []
    ensures LastText(s, text) == LastText(s[1..], LastText([s[0]], text))
    decreases |s|
  {
    if |s| > 1 {
      var init := s[..|s| - 1];
      LastTextFront(init, text);
      assert init[1..] == s[1..][..|s[1..]| - 1];
      assert init[0] == s[0];
    }
  }

  /** The text of an element is its last Text or CDATA payload, not their
      concatenation; the read stops at the first end tag, whatever its name. */
  lemma {:induction false} ReadTextIsLast(evs: seq<Event>, pos: nat, q: nat, text: string)
    requires pos <= q < |evs| && evs[q].End?
    requires forall i :: pos <= i < q ==> InText(evs[i])
    ensures ReadTextSpec(evs, pos, text) == Ok(Parsed(LastText(evs[pos..q], text), q + 1))
    decreases q - pos
  {
    if pos < q {
      var s := evs[pos..q];
      var t1 := LastText([evs[pos]], text);
      assert [s[0]] == s[..1];
      ReadTextIsLast(evs, pos + 1, q, t1);
      LastTextFront(s, text);
      assert s[1..] == evs[pos + 1..q];
    }
  }

  /** An entity that cannot be unescaped makes the read fail. */
  lemma ReadTextBadEntity(evs: seq<Event>, pos: nat, text: string)
    requires pos < |evs| && evs[pos] == Text(None)
    ensures ReadTextSpec(evs, pos, text) == Err(XmlParseError)
  {
  }

  // ---------------------------------------------------------------------------
  // skip_element

  /** Without a nested element of the same name, the skip ends just after the
      first end tag named `name`, passing over other elements at any depth. */
  lemma {:induction false} SkipToClose(evs: seq<Event>, pos: nat, q: nat, name: string)
    requires pos <= q < |evs| && evs[q] == End(name)
    requires forall i :: pos <= i < q ==>
               !evs[i].Eof? && !evs[i].XmlErr? && evs[i] != End(name)
               && !(evs[i].Start? && evs[i].name == name)
    ensures SkipSpec(evs, pos, name, 0) == Ok(q + 1)
    decreases q - pos
  {
    if pos < q {
      SkipToClose(evs, pos + 1, q, name);
    }
  }

  /** At depth 1, events that neither open, close nor fail leave the depth alone. */
  lemma {:induction false} SkipFlat(evs: seq<Event>, pos: nat, q: nat, name: string)
    requires pos <= q < |evs| && evs[q] == End(name)
    requires forall i :: pos <= i < q ==> evs[i].Text? || evs[i].CData? || evs[i].Empty?
    ensures SkipSpec(evs, pos, name, 1) == Ok(q + 1)
    decreases q - pos
  {
    if pos < q {
      SkipFlat(evs, pos + 1, q, name);
    }
  }

  /** As written, a nested element of the same name is counted from depth 0 to 1
      and its own end tag brings the depth back to 0, so the skip stops at the
      inner end tag and leaves the outer one unread. */
  lemma SkipStopsAtInnerClose(evs: seq<Event>, pos: nat, q: nat, name: string, attrs: seq<Attr>)
    requires pos < q < |evs| && evs[pos] == Start(name, attrs) && evs[q] == End(name)
    requires forall i :: pos < i < q ==> evs[i].Text? || evs[i].CData? || evs[i].Empty?
    ensures SkipSpec(evs, pos, name, 0) == Ok(q + 1)
  {
    SkipFlat(evs, pos + 1, q, name);
  }

  /** Without any end tag the skip runs into the end of the input. */
  lemma {:induction false} SkipTruncated(evs: seq<Event>, pos: nat, name: string, depth: nat)
    requires pos <= |evs| && Inert(evs, pos)
    ensures SkipSpec(evs, pos, name, depth) == Err(UnexpectedEof)
    decreases |evs| - pos
  {
    if pos < |evs| {
      SkipTruncated(evs, pos + 1, name, depth);
    }
  }

  // ---------------------------------------------------------------------------
  // Truncated input: an element loop that reaches the end of the input fails,
  // the ad list does not.

  lemma {:induction false} AdsAtEnd(evs: seq<Event>, pos: nat, acc: seq<Ad>)
    requires pos <= |evs| && Inert(evs, pos)
    ensures AdsSpec(evs, pos, acc) == Ok(Parsed(acc, |evs|))
    decreases |evs| - pos
  {
    if pos < |evs| {
      AdsAtEnd(evs, pos + 1, acc);
    }
  }

  lemma {:induction false} AdTruncated(evs: seq<Event>, pos: nat, acc: Ad)
    requires pos <= |evs| && Inert(evs, pos)
    ensures AdSpec(evs, pos, acc) == Err(UnexpectedEof)
    decreases |evs| - pos
  {
    if pos < |evs| {
      AdTruncated(evs, pos + 1, acc);
    }
  }

  lemma {:induction false} InlineTruncated(evs: seq<Event>, pos: nat, acc: InLine)
    requires pos <= |evs| && Inert(evs, pos)
    ensures InlineSpec(evs, pos, acc) == Err(UnexpectedEof)
    decreases |evs| - pos
  {
    if pos < |evs| {
      InlineTruncated(evs, pos + 1, acc);
    }
  }

  lemma {:induction false} WrapperTruncated(evs: seq<Event>, pos: nat, acc: Wrapper)
    requires pos <= |evs| && Inert(evs, pos)
    ensures WrapperSpec(evs, pos, acc) == Err(UnexpectedEof)
    decreases |evs| - pos
  {
    if pos < |evs| {
      WrapperTruncated(evs, pos + 1, acc);
    }
  }

  // ---------------------------------------------------------------------------
  // A loop succeeds only by reading its own end tag, so input that lacks that
  // tag fails, whatever else it holds.

  predicate Lacks(evs: seq<Event>, pos: nat, e: Event) {
    forall i :: pos <= i < |evs| ==> evs[i] != e
  }

  lemma SkipNeedsClose(evs: seq<Event>, pos: nat, name: string, depth: nat)
    requires pos <= |evs| && Lacks(evs, pos, End(name))
    ensures SkipSpec(evs, pos, name, depth).Err?
  {
  }

  lemma ReadTextNeedsEnd(evs: seq<Event>, pos: nat, text: string)
    requires pos <= |evs| && forall i :: pos <= i < |evs| ==> !evs[i].End?
    ensures ReadTextSpec(evs, pos, text).Err?
  {
  }

  lemma AdNeedsClose(evs: seq<Event>, pos: nat, acc: Ad)
    requires pos <= |evs| && Lacks(evs, pos, End("Ad"))
    ensures AdSpec(evs, pos, acc).Err?
  {
  }

  lemma InlineNeedsClose(evs: seq<Event>, pos: nat, acc: InLine)
    requires pos <= |evs| && Lacks(evs, pos, End("InLine"))
    ensures InlineSpec(evs, pos, acc).Err?
  {
  }

  lemma WrapperNeedsClose(evs: seq<Event>, pos: nat, acc: Wrapper)
    requires pos <= |evs| && Lacks(evs, pos, End("Wrapper"))
    ensures WrapperSpec(evs, pos, acc).Err?
  {
  }

  lemma CreativeNeedsClose(evs: seq<Event>, pos: nat, acc: Creative)
    requires pos <= |evs| && Lacks(evs, pos, End("Creative"))
    ensures CreativeSpec(evs, pos, acc).Err?
  {
  }

  lemma LinearNeedsClose(evs: seq<Event>, pos: nat, acc: Linear)
    requires pos <= |evs| && Lacks(evs, pos, End("Linear"))
    ensures LinearSpec(evs, pos, acc).Err?
  {
  }

  /** The ad list fails as soon as it reaches an `<Ad>` that is never closed:
      the ads before it are not salvaged. */
  lemma {:induction false} UnclosedAdFailsAds(evs: seq<Event>, pos: nat, q: nat, acc: seq<Ad>)
    requires pos <= q < |evs| && evs[q].Start? && evs[q].name == "Ad"
    requires Lacks(evs, pos, End("Ad"))
    requires forall i :: pos <= i < q ==> !evs[i].Eof? && !evs[i].XmlErr? && evs[i] != End("VAST")
    ensures AdsSpec(evs, pos, acc).Err?
    decreases q - pos
  {
    if evs[pos].Start? && evs[pos].name == "Ad" {
      AdNeedsClose(evs, pos + 1, FoldAttrs(evs[pos].attrs, NoAd, AdAttr));
    } else {
      UnclosedAdFailsAds(evs, pos + 1, q, acc);
    }
  }

  /** A document whose `<VAST>` tag is followed by an `<Ad>` that is never closed
      fails to parse. */
  lemma UnclosedAdFailsDocument(evs: seq<Event>, p: nat, q: nat, attrs: seq<Attr>)
    requires p < q < |evs| && evs[p] == Start("VAST", attrs) && evs[q].Start? && evs[q].name == "Ad"
    requires Lacks(evs, p, End("Ad"))
    requires forall i :: p < i < q ==> !evs[i].Eof? && !evs[i].XmlErr? && evs[i] != End("VAST")
    ensures VastSpec(evs, p).Err?
  {
    UnclosedAdFailsAds(evs, p + 1, q, []);
  }

  /** An error inside an ad fails the whole document: nothing is salvaged. */
  lemma TruncatedDocument()
    ensures VastSpec([Start("VAST", [Attr("version", Some("4.0"))]), Start("Ad", []), Eof], 0)
            == Err(UnexpectedEof)
  {
  }

  // ---------------------------------------------------------------------------
  // Examples of the overwrite and append rules

  /** An ad may carry both an InLine and a Wrapper: neither excludes the other. */
  lemma AdWithBothPayloads()
    ensures AdSpec([Start("InLine", []), End("InLine"), Start("Wrapper", []), End("Wrapper"), End("Ad")], 0, NoAd)
            == Ok(Parsed(NoAd.(inline := Some(NoInLine), wrapper := Some(NoWrapper)), 5))
  {
  }

  /** Inside `<InLine>`, an AdTitle replaces the title read so far. */
  lemma InlineTitleOverwrites(evs: seq<Event>, pos: nat, acc: InLine, attrs: seq<Attr>)
    requires pos < |evs| && evs[pos] == Start("AdTitle", attrs)
    requires ReadTextSpec(evs, pos + 1, "").Ok?
    ensures InlineSpec(evs, pos, acc)
            == InlineSpec(evs, ReadTextSpec(evs, pos + 1, "").value.next,
                          acc.(adTitle := ReadTextSpec(evs, pos + 1, "").value.value))
  {
  }

  /** Inside `<InLine>`, an Impression is appended to those read so far. */
  lemma InlineImpressionAppends(evs: seq<Event>, pos: nat, acc: InLine, attrs: seq<Attr>)
    requires pos < |evs| && evs[pos] == Start("Impression", attrs)
    requires ImpressionSpec(evs, pos + 1, attrs).Ok?
    ensures InlineSpec(evs, pos, acc)
            == InlineSpec(evs, ImpressionSpec(evs, pos + 1, attrs).value.next,
                          acc.(impressions := acc.impressions + [ImpressionSpec(evs, pos + 1, attrs).value.value]))
  {
  }

  /** A small document, from the VAST tag down to an ad title:
      `<VAST version="4.0"><Ad id="a1" sequence="2"><InLine><AdTitle>T</AdTitle></InLine></Ad></VAST>` */
  const MinimalEvents: seq<Event> :=
    [Start("VAST", [Attr("version", Some("4.0"))]),
     Start("Ad", [Attr("id", Some("a1")), Attr("sequence", Some("2"))]),
     Start("InLine", []), Start("AdTitle", []), Text(Some("T")), End("AdTitle"),
     End("InLine"), End("Ad"), End("VAST"), Eof]

  lemma MinimalInline()
    ensures InlineSpec(MinimalEvents, 3, NoInLine) == Ok(Parsed(NoInLine.(adTitle := "T"), 7))
  {
    var evs := MinimalEvents;
    assert ReadTextSpec(evs, 4, "") == Ok(Parsed("T", 6));
    assert InlineSpec(evs, 3, NoInLine) == InlineSpec(evs, 6, NoInLine.(adTitle := "T"));
  }

  lemma MinimalAd()
    ensures AdSpec(MinimalEvents, 2, FoldAttrs(MinimalEvents[1].attrs, NoAd, AdAttr))
            == Ok(Parsed(Ad(Some("a1"), Some(2), None, Some(NoInLine.(adTitle := "T")), None), 8))
  {
    var evs := MinimalEvents;
    assert ParseU32("2") == Some(2) by {
      assert AllDigits("2");
    }
    var ad0 := NoAd.(id := Some("a1"), sequence := Some(2));
    assert FoldAttrs(evs[1].attrs, NoAd, AdAttr) == ad0;
    MinimalInline();
    assert AdSpec(evs, 2, ad0) == AdSpec(evs, 7, ad0.(inline := Some(NoInLine.(adTitle := "T"))));
  }

  /** A one-ad InLine document parses to the expected record. */
  lemma MinimalDocument()
    ensures VastSpec(MinimalEvents, 0)
            == Ok(Vast("4.0", [Ad(Some("a1"), Some(2), None, Some(NoInLine.(adTitle := "T")), None)], None))
  {
    var evs := MinimalEvents;
    var ad := Ad(Some("a1"), Some(2), None, Some(NoInLine.(adTitle := "T")), None);
    MinimalAd();
    assert At(evs, 1) == Start("Ad", evs[1].attrs);
    assert [] + [ad] == [ad];
    assert AdsSpec(evs, 1, []) == AdsSpec(evs, 8, [ad]);
    assert FoldAttrs([Attr("version", Some("4.0"))], "", VersionAttr) == "4.0";
  }

}
