/** The merge step of src/stitcher.rs (stitch_vast_from_unwrapped) and the
    pipeline that drives it (stitch_vast): the tracking gathered from the wrapper
    chain is appended to every InLine ad of the unwrapped document, which is then
    written out as XML.

    The source edits the unwrapped document in place through `&mut` borrows; the
    document is a value here, and each loop rebuilds the element it walks. */
module Stitch {
  import opened Models
  import opened Errors
  import opened XmlEvents
  import opened ParserSpec
  import opened Unwrap
  import opened Tracking
  import opened Render

  // ---------------------------------------------------------------------------
  // What the merge promises

  /** The Error of an InLine after the merge: its own, else the first wrapper
      error URL, else none. */
  function MergedError(error: Option<string>, errorUrls: seq<string>): Option<string> {
    if error.None? && errorUrls != [] then Some(errorUrls[0]) else error
  }

  /** The VideoClicks of a Linear after the merge: the wrapper URLs appended to
      the existing lists, or a fresh VideoClicks without ClickThrough when there
      was none and the wrappers have some click URL. */
  function MergedClicks(v: Option<VideoClicks>, clicks: seq<string>, custom: seq<string>): Option<VideoClicks> {
    if v.Some? then
      Some(v.value.(clickTracking := v.value.clickTracking + clicks,
                    customClick := v.value.customClick + custom))
    else if clicks != [] || custom != [] then Some(VideoClicks(None, clicks, custom))
    else None
  }

  /** `after` is `before` followed by one event per (tag, URL) of `m`, and by
      nothing else. The order in which the tags follow each other is that of the
      map's iteration, which is left open. */
  ghost predicate TrackingMerged(before: seq<TrackingEvent>, m: map<string, seq<string>>, after: seq<TrackingEvent>) {
    before <= after
    && (forall tag :: UrlsFor(after[|before|..], tag) == Get(m, tag))
    && Tags(after[|before|..]) <= m.Keys
  }

  ghost predicate LinearMerged(a: Linear, t: WrapperTracking, b: Linear) {
    b.duration == a.duration && b.mediaFiles == a.mediaFiles
    && TrackingMerged(a.trackingEvents, t.trackingEvents, b.trackingEvents)
    && b.videoClicks == MergedClicks(a.videoClicks, t.clickTracking, t.customClick)
  }

  ghost predicate CreativeMerged(a: Creative, t: WrapperTracking, b: Creative) {
    b.(linear := a.linear) == a
    && b.linear.Some? == a.linear.Some?
    && (a.linear.Some? ==> LinearMerged(a.linear.value, t, b.linear.value))
  }

  ghost predicate InlineMerged(a: InLine, t: WrapperTracking, b: InLine) {
    b.(impressions := a.impressions, error := a.error, creatives := a.creatives) == a
    && b.impressions == a.impressions + t.impressions
    && b.error == MergedError(a.error, t.errorUrls)
    && |b.creatives| == |a.creatives|
    && (forall j :: 0 <= j < |a.creatives| ==> CreativeMerged(a.creatives[j], t, b.creatives[j]))
  }

  /** Only the InLine of an ad changes; an ad without one is left alone. */
  ghost predicate AdMerged(a: Ad, t: WrapperTracking, b: Ad) {
    b.(inline := a.inline) == a
    && b.inline.Some? == a.inline.Some?
    && (a.inline.Some? ==> InlineMerged(a.inline.value, t, b.inline.value))
  }

  ghost predicate Merged(v: Vast, t: WrapperTracking, r: Vast) {
    r.version == v.version && r.error == v.error
    && |r.ads| == |v.ads|
    && (forall i :: 0 <= i < |v.ads| ==> AdMerged(v.ads[i], t, r.ads[i]))
  }

  // ---------------------------------------------------------------------------
  // stitch_vast_from_unwrapped

  /** One event per URL, all tagged `tag`. */
  function Tagged(tag: string, urls: seq<string>): seq<TrackingEvent>
    decreases |urls|
  {
    if urls == [] then [] else Tagged(tag, urls[..|urls| - 1]) + [TrackingEvent(tag, urls[|urls| - 1])]
  }

  lemma {:induction false} TaggedContents(tag: string, urls: seq<string>, other: string)
    ensures UrlsFor(Tagged(tag, urls), other) == if other == tag then urls else []
    ensures Tags(Tagged(tag, urls)) <= {tag}
    ensures |Tagged(tag, urls)| == |urls|
    decreases |urls|
  {
    if urls != [] {
      var init := urls[..|urls| - 1];
      TaggedContents(tag, init, other);
      UrlsForAppend(Tagged(tag, init), [TrackingEvent(tag, urls[|urls| - 1])], other);
      TagsAppend(Tagged(tag, init), [TrackingEvent(tag, urls[|urls| - 1])]);
      assert urls == init + [urls[|urls| - 1]];
    }
  }

  /** The inner `for url in urls` loop: one event per URL of one tag. */
  method PushTagged(events: seq<TrackingEvent>, tag: string, urls: seq<string>) returns (r: seq<TrackingEvent>)
    ensures r == events + Tagged(tag, urls)
  {
    r := events;
    for j := 0 to |urls|
      invariant r == events + Tagged(tag, urls[..j])
    {
      assert urls[..j + 1][..j] == urls[..j];
      r := r + [TrackingEvent(tag, urls[j])];
    }
    assert urls[..|urls|] == urls;
  }

  /** The events appended for the tags of `tags`, taken in that order. */
  function TaggedAll(m: map<string, seq<string>>, tags: seq<string>): seq<TrackingEvent>
    decreases |tags|
  {
    if tags == [] then []
    else TaggedAll(m, tags[..|tags| - 1]) + Tagged(tags[|tags| - 1], Get(m, tags[|tags| - 1]))
  }

  /** Taking each tag once, in any order, appends exactly each tag's URLs under
      that tag. */
  lemma {:induction false} TaggedAllContents(m: map<string, seq<string>>, tags: seq<string>, other: string)
    requires NoDup(tags)
    ensures UrlsFor(TaggedAll(m, tags), other) == if other in tags then Get(m, other) else []
    ensures Tags(TaggedAll(m, tags)) <= Elems(tags)
    decreases |tags|
  {
    if tags != [] {
      var init, last := tags[..|tags| - 1], tags[|tags| - 1];
      assert NoDup(init);
      assert last !in init;
      TaggedAllContents(m, init, other);
      UrlsForAppend(TaggedAll(m, init), Tagged(last, Get(m, last)), other);
      TaggedContents(last, Get(m, last), other);
      TagsAppend(TaggedAll(m, init), Tagged(last, Get(m, last)));
      assert tags == init + [last];
      if other in init {
        assert UrlsFor(Tagged(last, Get(m, last)), other) == [];
      }
    }
  }

  /** The loop over the tracking map: every tag's URLs, one tag after another,
      in the map's iteration order. */
  method AppendTracking(events: seq<TrackingEvent>, m: map<string, seq<string>>) returns (r: seq<TrackingEvent>)
    ensures TrackingMerged(events, m, r)
  {
    r := events;
    var todo := m.Keys;
    ghost var done: seq<string> := [];
    while todo != {}
      invariant r == events + TaggedAll(m, done)
      invariant Taken(m, todo, done)
      decreases todo
    {
      var tag :| tag in todo;
      TakeTag(m, todo, done, tag);
      r := PushTagged(r, tag, m[tag]);
      done, todo := done + [tag], todo - {tag};
    }
    AppendedAll(events, m, done);
  }

  /** The tags of `done` were taken once each, and are the keys no longer in `todo`. */
  ghost predicate Taken(m: map<string, seq<string>>, todo: set<string>, done: seq<string>) {
    todo <= m.Keys && Elems(done) == m.Keys - todo && NoDup(done)
  }

  lemma TakeTag(m: map<string, seq<string>>, todo: set<string>, done: seq<string>, tag: string)
    requires Taken(m, todo, done) && tag in todo
    ensures Taken(m, todo - {tag}, done + [tag])
    ensures TaggedAll(m, done + [tag]) == TaggedAll(m, done) + Tagged(tag, m[tag])
  {
    assert (done + [tag])[..|done|] == done;
    assert Elems(done + [tag]) == Elems(done) + {tag};
  }

  lemma AppendedAll(events: seq<TrackingEvent>, m: map<string, seq<string>>, done: seq<string>)
    requires Taken(m, {}, done)
    ensures TrackingMerged(events, m, events + TaggedAll(m, done))
  {
    assert Elems(done) == m.Keys;
    assert (events + TaggedAll(m, done))[|events|..] == TaggedAll(m, done);
    forall other
      ensures UrlsFor(TaggedAll(m, done), other) == Get(m, other)
    {
      TaggedAllContents(m, done, other);
    }
    TaggedAllContents(m, done, "");
  }

  method MergeLinear(l: Linear, t: WrapperTracking) returns (r: Linear)
    ensures LinearMerged(l, t, r)
  {
    var events := AppendTracking(l.trackingEvents, t.trackingEvents);
    var clicks := l.videoClicks;
    if clicks.Some? {
      var tracking := PushAll(clicks.value.clickTracking, t.clickTracking);
      var custom := PushAll(clicks.value.customClick, t.customClick);
      clicks := Some(clicks.value.(clickTracking := tracking, customClick := custom));
    } else if t.clickTracking != [] || t.customClick != [] {
      clicks := Some(VideoClicks(None, t.clickTracking, t.customClick));
    }
    r := l.(trackingEvents := events, videoClicks := clicks);
  }

  method MergeCreative(c: Creative, t: WrapperTracking) returns (r: Creative)
    ensures CreativeMerged(c, t, r)
  {
    r := c;
    if c.linear.Some? {
      var l := MergeLinear(c.linear.value, t);
      r := c.(linear := Some(l));
    }
  }

  method MergeInline(i: InLine, t: WrapperTracking) returns (r: InLine)
    ensures InlineMerged(i, t, r)
  {
    var impressions := PushAll(i.impressions, t.impressions);
    var error := i.error;
    if error.None? && t.errorUrls != [] {
      error := Some(t.errorUrls[0]);
    }
    var creatives := i.creatives;
    for j := 0 to |creatives|
      invariant |creatives| == |i.creatives|
      invariant forall k :: 0 <= k < j ==> CreativeMerged(i.creatives[k], t, creatives[k])
      invariant forall k :: j <= k < |creatives| ==> creatives[k] == i.creatives[k]
    {
      var c := MergeCreative(creatives[j], t);
      creatives := creatives[j := c];
    }
    r := i.(impressions := impressions, error := error, creatives := creatives);
  }

  method MergeAd(ad: Ad, t: WrapperTracking) returns (r: Ad)
    ensures AdMerged(ad, t, r)
  {
    r := ad;
    if ad.inline.Some? {
      var i := MergeInline(ad.inline.value, t);
      r := ad.(inline := Some(i));
    }
  }

  /** stitch_vast_from_unwrapped: never fails. */
  method StitchVastFromUnwrapped(v: Vast, t: WrapperTracking) returns (r: Result<Vast>)
    ensures r.Ok? && Merged(v, t, r.value)
  {
    var ads := v.ads;
    for i := 0 to |ads|
      invariant |ads| == |v.ads|
      invariant forall k :: 0 <= k < i ==> AdMerged(v.ads[k], t, ads[k])
      invariant forall k :: i <= k < |ads| ==> ads[k] == v.ads[k]
    {
      var ad := MergeAd(ads[i], t);
      ads := ads[i := ad];
    }
    r := Ok(v.(ads := ads));
  }

  // ---------------------------------------------------------------------------
  // stitch_vast

  /** The tracking the depth-first traversal gathers from `doc`. */
  function ChainTracking(doc: seq<Event>, fetch: Fetch): Result<WrapperTracking> {
    var c :- CollectSpec(doc, fetch, Collection(NoTracking, []));
    Ok(c.tracking)
  }

  /** stitch_vast: gather the wrapper tracking, unwrap the document, merge the two
      and write the result out. It fails exactly when gathering fails; otherwise
      the text is the rendering of the unwrapped document merged with the
      gathered tracking. */
  method StitchVast(doc: seq<Event>, fetch: Fetch) returns (r: Result<string>)
    ensures r.Err? <==> ChainTracking(doc, fetch).Err?
    ensures r.Ok? ==> exists m :: Merged(UnwrapSpec(doc, 0, fetch, Trail({}, [])).vast, ChainTracking(doc, fetch).value, m)
                                  && r.value == VastToXml(m)
    ensures r.Ok? ==> EndsWith(r.value, "</VAST>")
    ensures r.Ok? && VastSpec(doc, 0).Ok? ==> Header(VastSpec(doc, 0).value.version) <= r.value
  {
    var tracking :- CollectWrapperTracking(doc, fetch);
    // Neither unwrapping nor merging fails once the tracking is gathered.
    var unwrapped := UnwrapVast(doc, fetch);
    var stitched := StitchVastFromUnwrapped(unwrapped.value, tracking);
    r := Ok(VastToXml(stitched.value));
  }

  /** The tracking the breadth-first traversal gathers from `doc`. */
  function QueuedTracking(doc: seq<Event>, fetch: Fetch): Result<WrapperTracking> {
    var c :- QueueSpec([doc], fetch, Collection(NoTracking, []));
    Ok(c.tracking)
  }

  /** stitch_vast_async: as StitchVast, with the tracking gathered breadth first. */
  method StitchVastAsync(doc: seq<Event>, fetch: Fetch) returns (r: Result<string>)
    ensures r.Err? <==> QueuedTracking(doc, fetch).Err?
    ensures r.Ok? ==> exists m :: Merged(UnwrapSpec(doc, 0, fetch, Trail({}, [])).vast, QueuedTracking(doc, fetch).value, m)
                                  && r.value == VastToXml(m)
    ensures r.Ok? ==> EndsWith(r.value, "</VAST>")
    ensures r.Ok? && VastSpec(doc, 0).Ok? ==> Header(VastSpec(doc, 0).value.version) <= r.value
  {
    var tracking :- CollectWrapperTrackingQueued(doc, fetch);
    var unwrapped := UnwrapVast(doc, fetch);
    var stitched := StitchVastFromUnwrapped(unwrapped.value, tracking);
    r := Ok(VastToXml(stitched.value));
  }

  /** On a document none of whose wrapper URIs can be fetched, both pipelines
      gather the same tracking. */
  lemma BothPipelinesAgreeWhenNoneFetchable(doc: seq<Event>, fetch: Fetch)
    requires VastSpec(doc, 0).Ok? ==> NoneFetchable(VastSpec(doc, 0).value.ads, fetch)
    ensures QueuedTracking(doc, fetch) == ChainTracking(doc, fetch)
  {
    BreadthFirstIsDepthFirstWhenNoneFetchable(doc, fetch, Collection(NoTracking, []));
  }

  /** Along a chain of distinct wrapper URIs both pipelines gather the same
      tracking. */
  lemma BothPipelinesAgreeOnChain(doc: seq<Event>, us: seq<string>, fetch: Fetch)
    requires TrackingChain(doc, us, fetch) && NoDup(us)
    ensures QueuedTracking(doc, fetch) == ChainTracking(doc, fetch)
  {
    DistinctIsFresh(us);
    assert Elems([]) == {};
    BreadthFirstIsDepthFirstOnChain(doc, us, fetch, Collection(NoTracking, []));
  }

  // ---------------------------------------------------------------------------
  // Properties

  /** Per tag, a merged Linear lists its own URLs and then the wrappers'. */
  lemma TrackingMergedPerTag(before: seq<TrackingEvent>, m: map<string, seq<string>>, after: seq<TrackingEvent>, tag: string)
    requires TrackingMerged(before, m, after)
    ensures UrlsFor(after, tag) == UrlsFor(before, tag) + Get(m, tag)
  {
    assert after == before + after[|before|..];
    UrlsForAppend(before, after[|before|..], tag);
  }

  /** An event list merged with an empty map is unchanged. */
  lemma TrackingMergedEmpty(before: seq<TrackingEvent>, after: seq<TrackingEvent>)
    requires TrackingMerged(before, map[], after)
    ensures after == before
  {
    TagsEmpty(after[|before|..]);
    assert after == before + after[|before|..];
  }

  lemma TagsEmpty(events: seq<TrackingEvent>)
    requires Tags(events) == {}
    ensures events == []
  {
  }

  lemma MergedClicksNothing(v: Option<VideoClicks>)
    ensures MergedClicks(v, [], []) == v
  {
    if v.Some? {
      assert v.value.clickTracking + [] == v.value.clickTracking;
      assert v.value.customClick + [] == v.value.customClick;
    }
  }

  /** The wrappers' click URLs follow the Linear's own, and a VideoClicks element
      exists after the merge exactly when one did before or the wrappers have a
      click URL. */
  lemma ClicksMerged(v: Option<VideoClicks>, clicks: seq<string>, custom: seq<string>)
    ensures MergedClicks(v, clicks, custom).Some? <==> v.Some? || clicks != [] || custom != []
    ensures MergedClicks(v, clicks, custom).Some? ==>
              MergedClicks(v, clicks, custom).value.clickTracking
                == (if v.Some? then v.value.clickTracking else []) + clicks
              && MergedClicks(v, clicks, custom).value.customClick
                == (if v.Some? then v.value.customClick else []) + custom
              && MergedClicks(v, clicks, custom).value.clickThrough
                == (if v.Some? then v.value.clickThrough else None)
  {
  }

  /** The InLine's own Error wins; the first wrapper error fills only a gap. */
  lemma ErrorMerged(error: Option<string>, errorUrls: seq<string>)
    ensures error.Some? ==> MergedError(error, errorUrls) == error
    ensures error.None? ==> (MergedError(error, errorUrls).Some? <==> errorUrls != [])
    ensures error.None? && errorUrls != [] ==> MergedError(error, errorUrls) == Some(errorUrls[0])
  {
  }

  /** Merging nothing changes nothing. */
  lemma MergeNothing(v: Vast, r: Vast)
    requires Merged(v, NoTracking, r)
    ensures r == v
  {
    assert |r.ads| == |v.ads|;
    forall i | 0 <= i < |v.ads|
      ensures r.ads[i] == v.ads[i]
    {
      var a, b := v.ads[i], r.ads[i];
      if a.inline.Some? {
        var ai, bi := a.inline.value, b.inline.value;
        assert ai.impressions + [] == ai.impressions;
        forall j | 0 <= j < |ai.creatives|
          ensures bi.creatives[j] == ai.creatives[j]
        {
          var c, d := ai.creatives[j], bi.creatives[j];
          if c.linear.Some? {
            TrackingMergedEmpty(c.linear.value.trackingEvents, d.linear.value.trackingEvents);
            MergedClicksNothing(c.linear.value.videoClicks);
            assert d.linear.value == c.linear.value;
          }
        }
        assert bi.creatives == ai.creatives;
        assert bi == ai;
      }
    }
    assert r.ads == v.ads;
  }
}
