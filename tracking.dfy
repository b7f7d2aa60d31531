/** Wrapper tracking of src/stitcher.rs: what one wrapper contributes
    (extract_wrapper_tracking), and the two traversals of the wrapper chain that
    gather it (collect_wrapper_tracking_recursive, depth first, and the queue of
    collect_wrapper_tracking_async, breadth first).

    The accumulator the source passes as `&mut WrapperTracking` and the visited
    list it passes as `&mut Vec<String>` are threaded through as values. A
    traversal that fails hands back only the error: every caller drops the partly
    filled accumulator with `?`. */
module Tracking {
  import opened Models
  import opened Errors
  import opened XmlEvents
  import opened ParserSpec
  import opened Unwrap
  import Parser

  /** WrapperTracking: everything the wrappers of a chain ask to be told about. */
  datatype WrapperTracking = WrapperTracking(
    impressions: seq<Impression>,
    errorUrls: seq<string>,
    /** event tag -> URLs, in the order they were met */
    trackingEvents: map<string, seq<string>>,
    clickTracking: seq<string>,
    customClick: seq<string>)

  const NoTracking := WrapperTracking([], [], map[], [], [])

  /** The URLs recorded under `tag`; none when the tag is absent. */
  function Get(m: map<string, seq<string>>, tag: string): seq<string> {
    if tag in m then m[tag] else []
  }

  // ---------------------------------------------------------------------------
  // Reference definitions: what a list of creatives holds

  /** The tracking events of the Linear creatives, in order. */
  function TrackingOf(creatives: seq<Creative>): seq<TrackingEvent> {
    if creatives == [] then []
    else
      (if creatives[0].linear.Some? then creatives[0].linear.value.trackingEvents else [])
      + TrackingOf(creatives[1..])
  }

  /** The ClickTracking URLs of the Linear creatives, in order. */
  function ClicksOf(creatives: seq<Creative>): seq<string> {
    if creatives == [] then []
    else
      (if creatives[0].linear.Some? && creatives[0].linear.value.videoClicks.Some?
       then creatives[0].linear.value.videoClicks.value.clickTracking else [])
      + ClicksOf(creatives[1..])
  }

  /** The CustomClick URLs of the Linear creatives, in order. */
  function CustomOf(creatives: seq<Creative>): seq<string> {
    if creatives == [] then []
    else
      (if creatives[0].linear.Some? && creatives[0].linear.value.videoClicks.Some?
       then creatives[0].linear.value.videoClicks.value.customClick else [])
      + CustomOf(creatives[1..])
  }

  /** The URLs of the events tagged `tag`, in order. */
  function UrlsFor(events: seq<TrackingEvent>, tag: string): (urls: seq<string>)
    ensures |urls| <= |events|
  {
    if events == [] then []
    else (if events[0].event == tag then [events[0].url] else []) + UrlsFor(events[1..], tag)
  }

  /** The tags carried by `events`. */
  function Tags(events: seq<TrackingEvent>): set<string> {
    if events == [] then {} else {events[0].event} + Tags(events[1..])
  }

  function ErrorList(error: Option<string>): seq<string> {
    if error.Some? then [error.value] else []
  }

  // ---------------------------------------------------------------------------
  // extract_wrapper_tracking

  /** `entry(tag).or_insert_with(Vec::new).push(url)` for each event in turn. */
  function AddEvents(m: map<string, seq<string>>, events: seq<TrackingEvent>): map<string, seq<string>>
    decreases |events|
  {
    if events == [] then m
    else AddEvents(m[events[0].event := Get(m, events[0].event) + [events[0].url]], events[1..])
  }

  /** One pass of the creatives loop: only a Linear creative contributes. */
  function AddCreative(t: WrapperTracking, c: Creative): WrapperTracking {
    if c.linear.None? then t
    else
      var l := c.linear.value;
      var t1 := t.(trackingEvents := AddEvents(t.trackingEvents, l.trackingEvents));
      if l.videoClicks.None? then t1
      else t1.(clickTracking := t1.clickTracking + l.videoClicks.value.clickTracking,
               customClick := t1.customClick + l.videoClicks.value.customClick)
  }

  function AddCreatives(t: WrapperTracking, creatives: seq<Creative>): WrapperTracking
    decreases |creatives|
  {
    if creatives == [] then t else AddCreatives(AddCreative(t, creatives[0]), creatives[1..])
  }

  function ExtractSpec(w: Wrapper, t: WrapperTracking): WrapperTracking {
    AddCreatives(t.(impressions := t.impressions + w.impressions,
                    errorUrls := t.errorUrls + ErrorList(w.error)),
                 w.creatives)
  }

  /** A `for x in xs { v.push(x.clone()) }` loop. */
  method PushAll<T>(v: seq<T>, xs: seq<T>) returns (r: seq<T>)
    ensures r == v + xs
  {
    r := v;
    for i := 0 to |xs|
      invariant r == v + xs[..i]
    {
      assert xs[..i + 1] == xs[..i] + [xs[i]];
      r := r + [xs[i]];
    }
    assert xs[..|xs|] == xs;
  }

  /** The tracking-event loop of extract_wrapper_tracking. */
  method PushTrackingEvents(m: map<string, seq<string>>, events: seq<TrackingEvent>)
    returns (r: map<string, seq<string>>)
    ensures r == AddEvents(m, events)
  {
    r := m;
    for j := 0 to |events|
      invariant AddEvents(r, events[j..]) == AddEvents(m, events)
    {
      assert events[j..][1..] == events[j + 1..];
      var tag := events[j].event;
      var urls := if tag in r then r[tag] else [];
      r := r[tag := urls + [events[j].url]];
    }
  }

  /** extract_wrapper_tracking. */
  method ExtractWrapperTracking(w: Wrapper, t: WrapperTracking) returns (r: WrapperTracking)
    ensures r == ExtractSpec(w, t)
  {
    var impressions := PushAll(t.impressions, w.impressions);
    r := t.(impressions := impressions);
    if w.error.Some? {
      r := r.(errorUrls := r.errorUrls + [w.error.value]);
    } else {
      assert t.errorUrls + ErrorList(w.error) == t.errorUrls;
    }
    ghost var r0 := r;
    for i := 0 to |w.creatives|
      invariant AddCreatives(r, w.creatives[i..]) == AddCreatives(r0, w.creatives)
    {
      assert w.creatives[i..][1..] == w.creatives[i + 1..];
      var creative := w.creatives[i];
      if creative.linear.Some? {
        var linear := creative.linear.value;
        var events := PushTrackingEvents(r.trackingEvents, linear.trackingEvents);
        r := r.(trackingEvents := events);
        if linear.videoClicks.Some? {
          var clicks := PushAll(r.clickTracking, linear.videoClicks.value.clickTracking);
          var custom := PushAll(r.customClick, linear.videoClicks.value.customClick);
          r := r.(clickTracking := clicks, customClick := custom);
        }
      }
    }
  }

  lemma {:induction false} UrlsForAppend(a: seq<TrackingEvent>, b: seq<TrackingEvent>, tag: string)
    ensures UrlsFor(a + b, tag) == UrlsFor(a, tag) + UrlsFor(b, tag)
    decreases |a|
  {
    if a != [] {
      var ab := a + b;
      assert ab[0] == a[0] && ab[1..] == a[1..] + b;
      assert UrlsFor(ab, tag) == (if a[0].event == tag then [a[0].url] else []) + UrlsFor(a[1..] + b, tag);
      UrlsForAppend(a[1..], b, tag);
    } else {
      assert a + b == b;
    }
  }

  lemma {:induction false} TagsAppend(a: seq<TrackingEvent>, b: seq<TrackingEvent>)
    ensures Tags(a + b) == Tags(a) + Tags(b)
    decreases |a|
  {
    if a != [] {
      var ab := a + b;
      assert ab[0] == a[0] && ab[1..] == a[1..] + b;
      assert Tags(ab) == {a[0].event} + Tags(a[1..] + b);
      TagsAppend(a[1..], b);
    } else {
      assert a + b == b;
    }
  }

  /** Each event's URL is appended under its own tag, keeping order per tag. */
  lemma {:induction false} AddEventsPerTag(m: map<string, seq<string>>, events: seq<TrackingEvent>, tag: string)
    ensures Get(AddEvents(m, events), tag) == Get(m, tag) + UrlsFor(events, tag)
    decreases |events|
  {
    if events != [] {
      var e := events[0];
      AddEventsPerTag(m[e.event := Get(m, e.event) + [e.url]], events[1..], tag);
    }
  }

  /** A tag is present afterwards exactly when it was before or an event carries it. */
  lemma {:induction false} AddEventsKeys(m: map<string, seq<string>>, events: seq<TrackingEvent>)
    ensures AddEvents(m, events).Keys == m.Keys + Tags(events)
    decreases |events|
  {
    if events != [] {
      var e := events[0];
      AddEventsKeys(m[e.event := Get(m, e.event) + [e.url]], events[1..]);
    }
  }

  /** What one wrapper adds: its impressions and error URL, and from its Linear
      creatives their tracking URLs under their tags and their click lists; all
      appended after what was already collected. */
  lemma ExtractContents(w: Wrapper, t: WrapperTracking)
    ensures ExtractSpec(w, t).impressions == t.impressions + w.impressions
    ensures ExtractSpec(w, t).errorUrls == t.errorUrls + ErrorList(w.error)
    ensures ExtractSpec(w, t).clickTracking == t.clickTracking + ClicksOf(w.creatives)
    ensures ExtractSpec(w, t).customClick == t.customClick + CustomOf(w.creatives)
    ensures forall tag :: Get(ExtractSpec(w, t).trackingEvents, tag)
                          == Get(t.trackingEvents, tag) + UrlsFor(TrackingOf(w.creatives), tag)
    ensures ExtractSpec(w, t).trackingEvents.Keys == t.trackingEvents.Keys + Tags(TrackingOf(w.creatives))
  {
    var t0 := t.(impressions := t.impressions + w.impressions, errorUrls := t.errorUrls + ErrorList(w.error));
    AddCreativesLists(t0, w.creatives);
    AddCreativesKeys(t0, w.creatives);
    forall tag
      ensures Get(ExtractSpec(w, t).trackingEvents, tag)
              == Get(t.trackingEvents, tag) + UrlsFor(TrackingOf(w.creatives), tag)
    {
      AddCreativesPerTag(t0, w.creatives, tag);
    }
  }

  lemma {:induction false} AddCreativesLists(t: WrapperTracking, creatives: seq<Creative>)
    ensures AddCreatives(t, creatives).impressions == t.impressions
    ensures AddCreatives(t, creatives).errorUrls == t.errorUrls
    ensures AddCreatives(t, creatives).clickTracking == t.clickTracking + ClicksOf(creatives)
    ensures AddCreatives(t, creatives).customClick == t.customClick + CustomOf(creatives)
    decreases |creatives|
  {
    if creatives != [] {
      var c := creatives[0];
      var t1 := AddCreative(t, c);
      AddCreativesLists(t1, creatives[1..]);
      AddCreativeLists(t, c);
      assert ClicksOf(creatives) == ClicksOf([c]) + ClicksOf(creatives[1..]);
      assert CustomOf(creatives) == CustomOf([c]) + CustomOf(creatives[1..]);
    }
  }

  lemma AddCreativeLists(t: WrapperTracking, c: Creative)
    ensures AddCreative(t, c).impressions == t.impressions
    ensures AddCreative(t, c).errorUrls == t.errorUrls
    ensures AddCreative(t, c).clickTracking == t.clickTracking + ClicksOf([c])
    ensures AddCreative(t, c).customClick == t.customClick + CustomOf([c])
  {
    assert [c][1..] == [];
    if c.linear.None? || c.linear.value.videoClicks.None? {
      assert t.clickTracking + [] == t.clickTracking;
      assert t.customClick + [] == t.customClick;
    } else {
      var v := c.linear.value.videoClicks.value;
      assert v.clickTracking + [] == v.clickTracking;
      assert v.customClick + [] == v.customClick;
    }
  }

  lemma {:induction false} AddCreativesPerTag(t: WrapperTracking, creatives: seq<Creative>, tag: string)
    ensures Get(AddCreatives(t, creatives).trackingEvents, tag)
            == Get(t.trackingEvents, tag) + UrlsFor(TrackingOf(creatives), tag)
    decreases |creatives|
  {
    if creatives != [] {
      var c := creatives[0];
      var own := if c.linear.Some? then c.linear.value.trackingEvents else [];
      AddCreativesPerTag(AddCreative(t, c), creatives[1..], tag);
      AddCreativePerTag(t, c, tag);
      UrlsForAppend(own, TrackingOf(creatives[1..]), tag);
    }
  }

  lemma AddCreativePerTag(t: WrapperTracking, c: Creative, tag: string)
    ensures Get(AddCreative(t, c).trackingEvents, tag)
            == Get(t.trackingEvents, tag) + UrlsFor(if c.linear.Some? then c.linear.value.trackingEvents else [], tag)
  {
    if c.linear.Some? {
      AddEventsPerTag(t.trackingEvents, c.linear.value.trackingEvents, tag);
    } else {
      assert Get(t.trackingEvents, tag) + [] == Get(t.trackingEvents, tag);
    }
  }

  lemma {:induction false} AddCreativesKeys(t: WrapperTracking, creatives: seq<Creative>)
    ensures AddCreatives(t, creatives).trackingEvents.Keys == t.trackingEvents.Keys + Tags(TrackingOf(creatives))
    decreases |creatives|
  {
    if creatives != [] {
      var c := creatives[0];
      var own := if c.linear.Some? then c.linear.value.trackingEvents else [];
      AddCreativesKeys(AddCreative(t, c), creatives[1..]);
      AddEventsKeys(t.trackingEvents, own);
      TagsAppend(own, TrackingOf(creatives[1..]));
    }
  }

  // ---------------------------------------------------------------------------
  // Growth: the accumulator is only ever appended to

  /** `t2` extends `t1`: every list, and every tag's URL list, has the old one as
      a prefix. */
  predicate Extends(t1: WrapperTracking, t2: WrapperTracking) {
    t1.impressions <= t2.impressions && t1.errorUrls <= t2.errorUrls
    && t1.clickTracking <= t2.clickTracking && t1.customClick <= t2.customClick
    && forall tag :: tag in t1.trackingEvents ==>
         tag in t2.trackingEvents && t1.trackingEvents[tag] <= t2.trackingEvents[tag]
  }

  lemma ExtendsTrans(t1: WrapperTracking, t2: WrapperTracking, t3: WrapperTracking)
    requires Extends(t1, t2) && Extends(t2, t3)
    ensures Extends(t1, t3)
  {
  }

  lemma ExtractExtends(w: Wrapper, t: WrapperTracking)
    ensures Extends(t, ExtractSpec(w, t))
  {
    ExtractContents(w, t);
    var r := ExtractSpec(w, t);
    forall tag | tag in t.trackingEvents
      ensures tag in r.trackingEvents && t.trackingEvents[tag] <= r.trackingEvents[tag]
    {
      assert Get(t.trackingEvents, tag) == t.trackingEvents[tag];
    }
  }

  // ---------------------------------------------------------------------------
  // The visited list and termination

  function Elems(s: seq<string>): set<string> {
    set x | x in s
  }

  /** Fetchable URIs not visited yet; each recursive fetch uses one up. */
  function Unfetched(fetch: Fetch, visited: seq<string>): nat {
    |fetch.Keys - Elems(visited)|
  }

  lemma SubsetCard(a: set<string>, b: set<string>)
    requires a <= b
    ensures |a| <= |b|
  {
    if a != {} {
      var x :| x in a;
      SubsetCard(a - {x}, b - {x});
    }
  }

  lemma UnfetchedMono(fetch: Fetch, v1: seq<string>, v2: seq<string>)
    requires v1 <= v2
    ensures Unfetched(fetch, v2) <= Unfetched(fetch, v1)
  {
    SubsetCard(fetch.Keys - Elems(v2), fetch.Keys - Elems(v1));
  }

  lemma UnfetchedVisit(fetch: Fetch, v: seq<string>, uri: string)
    requires uri in fetch && uri !in v
    ensures Unfetched(fetch, v + [uri]) == Unfetched(fetch, v) - 1
  {
    assert fetch.Keys - Elems(v + [uri]) == (fetch.Keys - Elems(v)) - {uri};
  }

  // ---------------------------------------------------------------------------
  // collect_wrapper_tracking_recursive (depth first)

  datatype Collection = Collection(tracking: WrapperTracking, visited: seq<string>)

  /** Every wrapper's tracking is extracted before its URI is checked against the
      visited list; an unvisited URI is recorded and, when it can be fetched,
      followed at once. A document that does not parse aborts the collection. */
  function CollectSpec(doc: seq<Event>, fetch: Fetch, c: Collection): (r: Result<Collection>)
    ensures r.Ok? ==> c.visited <= r.value.visited
    ensures VastSpec(doc, 0).Err? ==> r.Err?
    decreases Unfetched(fetch, c.visited), 1, 0
  {
    var vast :- VastSpec(doc, 0);
    CollectAdsSpec(vast.ads, fetch, c)
  }

  /** The `for ad in vast.ads` loop of collect_wrapper_tracking_recursive. */
  function CollectAdsSpec(ads: seq<Ad>, fetch: Fetch, c: Collection): (r: Result<Collection>)
    ensures r.Ok? ==> c.visited <= r.value.visited
    decreases Unfetched(fetch, c.visited), 0, |ads|
  {
    if ads == [] then Ok(c)
    else if ads[0].wrapper.None? then CollectAdsSpec(ads[1..], fetch, c)
    else
      var w := ads[0].wrapper.value;
      var c1 := Visit(c, w);
      VisitUnfetched(fetch, c, w);
      if w.vastAdTagUri in c.visited || w.vastAdTagUri !in fetch then
        var r := CollectAdsSpec(ads[1..], fetch, c1);
        PrefixThrough(c.visited, c1.visited, r);
        r
      else
        var c2 :- CollectSpec(fetch[w.vastAdTagUri], fetch, c1);
        UnfetchedMono(fetch, c1.visited, c2.visited);
        var r := CollectAdsSpec(ads[1..], fetch, c2);
        PrefixThrough(c1.visited, c2.visited, r);
        PrefixThrough(c.visited, c1.visited, r);
        r
  }

  /** Visiting a wrapper extends the visited list; recording a fetchable URI
      leaves one fewer document to fetch. */
  lemma VisitUnfetched(fetch: Fetch, c: Collection, w: Wrapper)
    ensures c.visited <= Visit(c, w).visited
    ensures Unfetched(fetch, Visit(c, w).visited) <= Unfetched(fetch, c.visited)
    ensures w.vastAdTagUri !in c.visited && w.vastAdTagUri in fetch
            ==> Unfetched(fetch, Visit(c, w).visited) < Unfetched(fetch, c.visited)
  {
    UnfetchedMono(fetch, c.visited, Visit(c, w).visited);
    if w.vastAdTagUri !in c.visited && w.vastAdTagUri in fetch {
      UnfetchedVisit(fetch, c.visited, w.vastAdTagUri);
    }
  }

  lemma PrefixThrough(a: seq<string>, b: seq<string>, r: Result<Collection>)
    requires a <= b && (r.Ok? ==> b <= r.value.visited)
    ensures r.Ok? ==> a <= r.value.visited
  {
  }

  /** What both traversals do with a wrapper before fetching: extract its
      tracking, then record its URI unless it was visited already. */
  function Visit(c: Collection, w: Wrapper): (r: Collection)
    ensures r.tracking == ExtractSpec(w, c.tracking)
    ensures r.visited == if w.vastAdTagUri in c.visited then c.visited else c.visited + [w.vastAdTagUri]
  {
    var tracking := ExtractSpec(w, c.tracking);
    if w.vastAdTagUri in c.visited then Collection(tracking, c.visited)
    else Collection(tracking, c.visited + [w.vastAdTagUri])
  }

  /** A collection only grows: the accumulator is appended to, the visited list
      is extended and never holds a URI twice. */
  predicate Grows(c1: Collection, c2: Collection) {
    c1.visited <= c2.visited && Extends(c1.tracking, c2.tracking)
    && (NoDup(c1.visited) ==> NoDup(c2.visited))
  }

  lemma VisitGrows(c: Collection, w: Wrapper)
    ensures Grows(c, Visit(c, w))
  {
    ExtractExtends(w, c.tracking);
  }

  lemma {:induction false} CollectGrows(doc: seq<Event>, fetch: Fetch, c: Collection)
    ensures CollectSpec(doc, fetch, c).Ok? ==> Grows(c, CollectSpec(doc, fetch, c).value)
    decreases Unfetched(fetch, c.visited), 1, 0
  {
    if VastSpec(doc, 0).Ok? {
      CollectAdsGrows(VastSpec(doc, 0).value.ads, fetch, c);
    }
  }

  lemma {:induction false} CollectAdsGrows(ads: seq<Ad>, fetch: Fetch, c: Collection)
    ensures CollectAdsSpec(ads, fetch, c).Ok? ==> Grows(c, CollectAdsSpec(ads, fetch, c).value)
    decreases Unfetched(fetch, c.visited), 0, |ads|
  {
    if ads == [] {
    } else if ads[0].wrapper.None? {
      CollectAdsGrows(ads[1..], fetch, c);
    } else {
      var w := ads[0].wrapper.value;
      var c1 := Visit(c, w);
      VisitGrows(c, w);
      UnfetchedMono(fetch, c.visited, c1.visited);
      CollectAdsStep(ads, fetch, c);
      if w.vastAdTagUri in c.visited || w.vastAdTagUri !in fetch {
        CollectAdsGrows(ads[1..], fetch, c1);
        GrowsTrans(c, c1, CollectAdsSpec(ads, fetch, c));
      } else {
        UnfetchedVisit(fetch, c.visited, w.vastAdTagUri);
        CollectGrows(fetch[w.vastAdTagUri], fetch, c1);
        var r2 := CollectSpec(fetch[w.vastAdTagUri], fetch, c1);
        if r2.Ok? {
          UnfetchedMono(fetch, c1.visited, r2.value.visited);
          CollectAdsGrows(ads[1..], fetch, r2.value);
          GrowsTrans(c, c1, Ok(r2.value));
          GrowsTrans(c, r2.value, CollectAdsSpec(ads, fetch, c));
        }
      }
    }
  }

  /** One pass of the loop over the ads for a wrapper ad. */
  lemma CollectAdsStep(ads: seq<Ad>, fetch: Fetch, c: Collection)
    requires ads != [] && ads[0].wrapper.Some?
    ensures var w := ads[0].wrapper.value;
            var c1 := Visit(c, w);
            CollectAdsSpec(ads, fetch, c)
            == if w.vastAdTagUri in c.visited || w.vastAdTagUri !in fetch then CollectAdsSpec(ads[1..], fetch, c1)
               else if CollectSpec(fetch[w.vastAdTagUri], fetch, c1).Err? then CollectSpec(fetch[w.vastAdTagUri], fetch, c1)
               else CollectAdsSpec(ads[1..], fetch, CollectSpec(fetch[w.vastAdTagUri], fetch, c1).value)
  {
  }

  lemma GrowsTrans(c1: Collection, c2: Collection, r: Result<Collection>)
    requires Grows(c1, c2)
    requires r.Ok? ==> Grows(c2, r.value)
    ensures r.Ok? ==> Grows(c1, r.value)
  {
    if r.Ok? {
      ExtendsTrans(c1.tracking, c2.tracking, r.value.tracking);
    }
  }

  /** collect_wrapper_tracking_recursive. */
  method CollectWrapperTrackingRecursive(doc: seq<Event>, fetch: Fetch, c: Collection)
    returns (r: Result<Collection>)
    ensures r == CollectSpec(doc, fetch, c)
    decreases Unfetched(fetch, c.visited)
  {
    var parsed := Parser.ParseVast(doc);
    var vast :- parsed;
    var tracking, visited := c.tracking, c.visited;
    for i := 0 to |vast.ads|
      invariant c.visited <= visited
      invariant CollectAdsSpec(vast.ads[i..], fetch, Collection(tracking, visited))
                == CollectAdsSpec(vast.ads, fetch, c)
    {
      assert vast.ads[i..][1..] == vast.ads[i + 1..];
      if vast.ads[i].wrapper.Some? {
        var w := vast.ads[i].wrapper.value;
        tracking := ExtractWrapperTracking(w, tracking);
        var uri := w.vastAdTagUri;
        if uri in visited {
          continue;
        }
        visited := visited + [uri];
        if uri !in fetch {
          continue;
        }
        UnfetchedMono(fetch, c.visited, visited[..|visited| - 1]);
        assert visited[..|visited| - 1] + [uri] == visited;
        UnfetchedVisit(fetch, visited[..|visited| - 1], uri);
        var sub :- CollectWrapperTrackingRecursive(fetch[uri], fetch, Collection(tracking, visited));
        tracking, visited := sub.tracking, sub.visited;
      }
    }
    r := Ok(Collection(tracking, visited));
  }

  /** collect_wrapper_tracking: the depth-first collection from an empty
      accumulator and an empty visited list. */
  method CollectWrapperTracking(doc: seq<Event>, fetch: Fetch) returns (r: Result<WrapperTracking>)
    ensures r.Ok? <==> CollectSpec(doc, fetch, Collection(NoTracking, [])).Ok?
    ensures r.Ok? ==> r.value == CollectSpec(doc, fetch, Collection(NoTracking, [])).value.tracking
  {
    var c :- CollectWrapperTrackingRecursive(doc, fetch, Collection(NoTracking, []));
    r := Ok(c.tracking);
  }

  // ---------------------------------------------------------------------------
  // collect_wrapper_tracking_async (breadth first)

  /** The `for ad in vast.ads` loop of the queue variant: as CollectAdsSpec, but a
      fetched document is queued instead of followed. */
  function EnqueueSpec(ads: seq<Ad>, fetch: Fetch, c: Collection, queued: seq<seq<Event>>)
    : (r: (Collection, seq<seq<Event>>))
    ensures c.visited <= r.0.visited && queued <= r.1
    ensures Unfetched(fetch, r.0.visited) + |r.1| <= Unfetched(fetch, c.visited) + |queued|
    decreases |ads|
  {
    if ads == [] then (c, queued)
    else if ads[0].wrapper.None? then EnqueueSpec(ads[1..], fetch, c, queued)
    else
      var w := ads[0].wrapper.value;
      var c1 := Visit(c, w);
      VisitUnfetched(fetch, c, w);
      var q1 := if w.vastAdTagUri in c.visited || w.vastAdTagUri !in fetch then queued
                else queued + [fetch[w.vastAdTagUri]];
      var r := EnqueueSpec(ads[1..], fetch, c1, q1);
      assert c.visited <= c1.visited <= r.0.visited && queued <= q1 <= r.1;
      r
  }

  /** The `while let Some(current) = queue.pop_front()` loop. */
  function QueueSpec(queue: seq<seq<Event>>, fetch: Fetch, c: Collection): (r: Result<Collection>)
    ensures r.Ok? ==> c.visited <= r.value.visited
    ensures queue != [] && VastSpec(queue[0], 0).Err? ==> r.Err?
    decreases Unfetched(fetch, c.visited) + |queue|
  {
    if queue == [] then Ok(c)
    else
      var vast :- VastSpec(queue[0], 0);
      var (c1, rest) := EnqueueSpec(vast.ads, fetch, c, queue[1..]);
      QueueSpec(rest, fetch, c1)
  }

  lemma {:induction false} EnqueueGrows(ads: seq<Ad>, fetch: Fetch, c: Collection, queued: seq<seq<Event>>)
    ensures Grows(c, EnqueueSpec(ads, fetch, c, queued).0)
    decreases |ads|
  {
    if ads != [] {
      if ads[0].wrapper.None? {
        EnqueueGrows(ads[1..], fetch, c, queued);
      } else {
        var w := ads[0].wrapper.value;
        var c1 := Visit(c, w);
        VisitGrows(c, w);
        var q1 := if w.vastAdTagUri in c.visited || w.vastAdTagUri !in fetch then queued
                  else queued + [fetch[w.vastAdTagUri]];
        EnqueueGrows(ads[1..], fetch, c1, q1);
        GrowsTrans(c, c1, Ok(EnqueueSpec(ads, fetch, c, queued).0));
      }
    }
  }

  lemma {:induction false} QueueGrows(queue: seq<seq<Event>>, fetch: Fetch, c: Collection)
    ensures QueueSpec(queue, fetch, c).Ok? ==> Grows(c, QueueSpec(queue, fetch, c).value)
    decreases Unfetched(fetch, c.visited) + |queue|
  {
    if queue != [] && VastSpec(queue[0], 0).Ok? {
      var ads := VastSpec(queue[0], 0).value.ads;
      var (c1, rest) := EnqueueSpec(ads, fetch, c, queue[1..]);
      EnqueueGrows(ads, fetch, c, queue[1..]);
      QueueGrows(rest, fetch, c1);
      GrowsTrans(c, c1, QueueSpec(queue, fetch, c));
    }
  }

  /** One pass of the loop over the ads of the queue variant. */
  lemma EnqueueStep(ads: seq<Ad>, fetch: Fetch, c: Collection, queued: seq<seq<Event>>)
    requires ads != []
    ensures ads[0].wrapper.None? ==> EnqueueSpec(ads, fetch, c, queued) == EnqueueSpec(ads[1..], fetch, c, queued)
    ensures ads[0].wrapper.Some? ==>
              var w := ads[0].wrapper.value;
              var uri := w.vastAdTagUri;
              EnqueueSpec(ads, fetch, c, queued)
              == EnqueueSpec(ads[1..], fetch, Visit(c, w),
                             if uri in c.visited || uri !in fetch then queued else queued + [fetch[uri]])
  {
  }

  /** The body of the `for ad in vast.ads` loop of collect_wrapper_tracking_async. */
  method EnqueueWrappers(ads: seq<Ad>, fetch: Fetch, tracking: WrapperTracking, visited: seq<string>,
                         queue: seq<seq<Event>>)
    returns (tracking': WrapperTracking, visited': seq<string>, queue': seq<seq<Event>>)
    ensures (Collection(tracking', visited'), queue') == EnqueueSpec(ads, fetch, Collection(tracking, visited), queue)
  {
    tracking', visited', queue' := tracking, visited, queue;
    for i := 0 to |ads|
      invariant EnqueueSpec(ads[i..], fetch, Collection(tracking', visited'), queue')
                == EnqueueSpec(ads, fetch, Collection(tracking, visited), queue)
    {
      assert ads[i..][1..] == ads[i + 1..];
      EnqueueStep(ads[i..], fetch, Collection(tracking', visited'), queue');
      if ads[i].wrapper.Some? {
        var w := ads[i].wrapper.value;
        tracking' := ExtractWrapperTracking(w, tracking');
        var uri := w.vastAdTagUri;
        if uri in visited' {
          continue;
        }
        visited' := visited' + [uri];
        if uri in fetch {
          queue' := queue' + [fetch[uri]];
        }
      }
    }
  }

  /** collect_wrapper_tracking_async. */
  method CollectWrapperTrackingQueued(doc: seq<Event>, fetch: Fetch) returns (r: Result<WrapperTracking>)
    ensures r.Ok? <==> QueueSpec([doc], fetch, Collection(NoTracking, [])).Ok?
    ensures r.Ok? ==> r.value == QueueSpec([doc], fetch, Collection(NoTracking, [])).value.tracking
  {
    var tracking, visited := NoTracking, [];
    var queue := [doc];
    while queue != []
      invariant QueueSpec(queue, fetch, Collection(tracking, visited))
                == QueueSpec([doc], fetch, Collection(NoTracking, []))
      decreases Unfetched(fetch, visited) + |queue|
    {
      var current := queue[0];
      queue := queue[1..];
      var vast :- Parser.ParseVast(current);
      tracking, visited, queue := EnqueueWrappers(vast.ads, fetch, tracking, visited, queue);
    }
    r := Ok(tracking);
  }

  // ---------------------------------------------------------------------------
  // Properties of the traversals

  /** A wrapper met again is still extracted, but its URI is neither recorded
      nor followed a second time. */
  lemma WrapperTwiceInOneDocument(a: Ad, fetch: Fetch)
    requires a.wrapper.Some? && a.wrapper.value.vastAdTagUri !in fetch
    ensures CollectAdsSpec([a, a], fetch, Collection(NoTracking, []))
            == Ok(Collection(ExtractSpec(a.wrapper.value, ExtractSpec(a.wrapper.value, NoTracking)),
                             [a.wrapper.value.vastAdTagUri]))
  {
    var w := a.wrapper.value;
    var c1 := Visit(Collection(NoTracking, []), w);
    assert [a, a][1..] == [a];
    assert [a][1..] == [];
    assert [] + [w.vastAdTagUri] == [w.vastAdTagUri];
    assert CollectAdsSpec([a], fetch, c1) == Ok(Visit(c1, w));
  }

  /** A followed document that does not parse aborts the whole collection: here
      for a wrapper at the head of the ads. */
  lemma FetchedParseErrorAbortsAtHead(ads: seq<Ad>, fetch: Fetch, c: Collection)
    requires ads != [] && ads[0].wrapper.Some?
    requires ads[0].wrapper.value.vastAdTagUri !in c.visited
    requires ads[0].wrapper.value.vastAdTagUri in fetch
    requires VastSpec(fetch[ads[0].wrapper.value.vastAdTagUri], 0).Err?
    ensures CollectAdsSpec(ads, fetch, c).Err?
  {
  }

  /** The loop over `a + b` is the loop over `a`, then, unless that failed, the
      loop over `b` from where the first one stopped. */
  lemma {:induction false} CollectAdsSplit(a: seq<Ad>, b: seq<Ad>, fetch: Fetch, c: Collection)
    ensures CollectAdsSpec(a + b, fetch, c)
            == if CollectAdsSpec(a, fetch, c).Err? then CollectAdsSpec(a, fetch, c)
               else CollectAdsSpec(b, fetch, CollectAdsSpec(a, fetch, c).value)
    decreases |a|
  {
    if a == [] {
      assert a + b == b;
    } else {
      assert (a + b)[0] == a[0] && (a + b)[1..] == a[1..] + b;
      if a[0].wrapper.None? {
        CollectAdsSplit(a[1..], b, fetch, c);
      } else {
        var w := a[0].wrapper.value;
        var c1 := Visit(c, w);
        CollectAdsStep(a, fetch, c);
        CollectAdsStep(a + b, fetch, c);
        if w.vastAdTagUri in c.visited || w.vastAdTagUri !in fetch {
          CollectAdsSplit(a[1..], b, fetch, c1);
        } else {
          var r2 := CollectSpec(fetch[w.vastAdTagUri], fetch, c1);
          if r2.Ok? {
            CollectAdsSplit(a[1..], b, fetch, r2.value);
          }
        }
      }
    }
  }

  /** A followed document that does not parse aborts the whole collection,
      wherever its wrapper stands among the ads, provided the ads before it were
      collected without error. */
  lemma FetchedParseErrorAborts(ads: seq<Ad>, i: nat, fetch: Fetch, c: Collection)
    requires i < |ads| && ads[i].wrapper.Some?
    requires CollectAdsSpec(ads[..i], fetch, c).Ok?
    requires ads[i].wrapper.value.vastAdTagUri !in CollectAdsSpec(ads[..i], fetch, c).value.visited
    requires ads[i].wrapper.value.vastAdTagUri in fetch
    requires VastSpec(fetch[ads[i].wrapper.value.vastAdTagUri], 0).Err?
    ensures CollectAdsSpec(ads, fetch, c).Err?
  {
    assert ads == ads[..i] + ads[i..];
    CollectAdsSplit(ads[..i], ads[i..], fetch, c);
    FetchedParseErrorAbortsAtHead(ads[i..], fetch, CollectAdsSpec(ads[..i], fetch, c).value);
  }

  // ---------------------------------------------------------------------------
  // Wrapper chains

  /** The ads hold no wrapper at all. */
  predicate NoWrappers(ads: seq<Ad>) {
    forall i :: 0 <= i < |ads| ==> ads[i].wrapper.None?
  }

  /** `doc` starts a chain through the URIs `us`: each document's only ad is a
      wrapper of the next URI, each URI can be fetched, and the last document
      parses and holds no wrapper. */
  predicate TrackingChain(doc: seq<Event>, us: seq<string>, fetch: Fetch)
    decreases |us|
  {
    if us == [] then VastSpec(doc, 0).Ok? && NoWrappers(VastSpec(doc, 0).value.ads)
    else WrapsTo(doc, us[0]) && us[0] in fetch && TrackingChain(fetch[us[0]], us[1..], fetch)
  }

  /** The wrappers met along a chain, in order. */
  function ChainWrappers(doc: seq<Event>, us: seq<string>, fetch: Fetch): (ws: seq<Wrapper>)
    requires TrackingChain(doc, us, fetch)
    ensures |ws| == |us|
    decreases |us|
  {
    if us == [] then []
    else [VastSpec(doc, 0).value.ads[0].wrapper.value] + ChainWrappers(fetch[us[0]], us[1..], fetch)
  }

  /** Extracting the tracking of each wrapper in turn. */
  function ExtractAll(ws: seq<Wrapper>, t: WrapperTracking): WrapperTracking
    decreases |ws|
  {
    if ws == [] then t else ExtractAll(ws[1..], ExtractSpec(ws[0], t))
  }

  /** The impressions of the wrappers, in order. */
  function ImpressionsOf(ws: seq<Wrapper>): seq<Impression>
    decreases |ws|
  {
    if ws == [] then [] else ws[0].impressions + ImpressionsOf(ws[1..])
  }

  lemma {:induction false} NoWrappersCollect(ads: seq<Ad>, fetch: Fetch, c: Collection)
    requires NoWrappers(ads)
    ensures CollectAdsSpec(ads, fetch, c) == Ok(c)
    decreases |ads|
  {
    if ads != [] {
      NoWrappersCollect(ads[1..], fetch, c);
    }
  }

  lemma ElemsSnoc(v: seq<string>, u: string)
    ensures Elems(v + [u]) == Elems(v) + {u}
  {
  }

  /** The last document of a chain leaves the collection as it is. */
  lemma TrackingChainEnd(doc: seq<Event>, fetch: Fetch, c: Collection)
    requires TrackingChain(doc, [], fetch)
    ensures CollectSpec(doc, fetch, c) == Ok(c)
  {
    NoWrappersCollect(VastSpec(doc, 0).value.ads, fetch, c);
  }

  /** One link of a chain: the wrapper is extracted, its URI recorded, and the
      collection goes on in the fetched document. */
  lemma TrackingChainLink(doc: seq<Event>, u: string, fetch: Fetch, c: Collection)
    requires WrapsTo(doc, u) && u in fetch && u !in c.visited
    ensures var w := VastSpec(doc, 0).value.ads[0].wrapper.value;
            CollectSpec(doc, fetch, c)
            == CollectSpec(fetch[u], fetch, Collection(ExtractSpec(w, c.tracking), c.visited + [u]))
  {
    var ads := VastSpec(doc, 0).value.ads;
    CollectAdsStep(ads, fetch, c);
    assert ads[1..] == [];
  }

  /** The first link of a chain, taken off its wrappers and its URIs. */
  lemma ChainUnfold(doc: seq<Event>, us: seq<string>, fetch: Fetch, c: Collection)
    requires us != [] && TrackingChain(doc, us, fetch)
    ensures var w := VastSpec(doc, 0).value.ads[0].wrapper.value;
            ExtractAll(ChainWrappers(doc, us, fetch), c.tracking)
            == ExtractAll(ChainWrappers(fetch[us[0]], us[1..], fetch), ExtractSpec(w, c.tracking))
    ensures c.visited + us == (c.visited + [us[0]]) + us[1..]
  {
    var ws := ChainWrappers(doc, us, fetch);
    assert ws[1..] == ChainWrappers(fetch[us[0]], us[1..], fetch);
    assert us == [us[0]] + us[1..];
  }

  /** Along a chain of distinct, unvisited URIs the collection extracts every
      wrapper, in chain order, and records every URI, in chain order. */
  lemma {:induction false} TrackingChainCollects(doc: seq<Event>, us: seq<string>, fetch: Fetch, c: Collection)
    requires TrackingChain(doc, us, fetch) && Fresh(us, Elems(c.visited))
    ensures CollectSpec(doc, fetch, c)
            == Ok(Collection(ExtractAll(ChainWrappers(doc, us, fetch), c.tracking), c.visited + us))
    decreases |us|
  {
    if us == [] {
      TrackingChainEnd(doc, fetch, c);
      assert c.visited + [] == c.visited;
    } else {
      var u, rest := us[0], us[1..];
      var w := VastSpec(doc, 0).value.ads[0].wrapper.value;
      var c1 := Collection(ExtractSpec(w, c.tracking), c.visited + [u]);
      FreshTail(us, Elems(c.visited));
      ElemsSnoc(c.visited, u);
      TrackingChainCollects(fetch[u], rest, fetch, c1);
      TrackingChainLink(doc, u, fetch, c);
      ChainUnfold(doc, us, fetch, c);
    }
  }

  lemma {:induction false} ExtractAllImpressions(ws: seq<Wrapper>, t: WrapperTracking)
    ensures ExtractAll(ws, t).impressions == t.impressions + ImpressionsOf(ws)
    decreases |ws|
  {
    if ws == [] {
      assert t.impressions + [] == t.impressions;
    } else {
      ExtractContents(ws[0], t);
      ExtractAllImpressions(ws[1..], ExtractSpec(ws[0], t));
      assert (t.impressions + ws[0].impressions) + ImpressionsOf(ws[1..])
             == t.impressions + (ws[0].impressions + ImpressionsOf(ws[1..]));
    }
  }

  /** W1 -> W2 -> a document without wrappers, collected from scratch: the
      impressions are W1's followed by W2's, and both URIs are recorded. */
  lemma TwoHopImpressions(doc: seq<Event>, u1: string, u2: string, fetch: Fetch)
    requires u1 != u2
    requires WrapsTo(doc, u1) && u1 in fetch
    requires WrapsTo(fetch[u1], u2) && u2 in fetch
    requires VastSpec(fetch[u2], 0).Ok? && NoWrappers(VastSpec(fetch[u2], 0).value.ads)
    ensures var w1 := VastSpec(doc, 0).value.ads[0].wrapper.value;
            var w2 := VastSpec(fetch[u1], 0).value.ads[0].wrapper.value;
            var r := CollectSpec(doc, fetch, Collection(NoTracking, []));
            r.Ok? && r.value.tracking.impressions == w1.impressions + w2.impressions
            && r.value.visited == [u1, u2]
  {
    var us := [u1, u2];
    assert us[1..] == [u2] && us[1..][1..] == [];
    assert TrackingChain(fetch[u2], [], fetch);
    assert TrackingChain(doc, us, fetch);
    assert Fresh(us, Elems([]));
    TrackingChainCollects(doc, us, fetch, Collection(NoTracking, []));
    var ws := ChainWrappers(doc, us, fetch);
    ExtractAllImpressions(ws, NoTracking);
    assert ws[1..] == ChainWrappers(fetch[u1], [u2], fetch);
    assert ws[1..][1..] == [];
    assert ImpressionsOf(ws[1..]) == ws[1].impressions + ImpressionsOf(ws[1..][1..]);
    assert ws[1].impressions + [] == ws[1].impressions;
    assert [] + us == us;
  }

  /** A tracking chain is a chain for the resolver too: a last document without
      wrappers leaves it nothing to follow. */
  lemma {:induction false} TrackingChainIsChain(doc: seq<Event>, us: seq<string>, fetch: Fetch)
    requires TrackingChain(doc, us, fetch)
    ensures Chain(doc, us, fetch)
    decreases |us|
  {
    if us != [] {
      TrackingChainIsChain(fetch[us[0]], us[1..], fetch);
    }
  }

  /** The collectors have no depth limit: along a chain of MaxWrapperDepth or
      more distinct URIs the depth-first collection gathers the tracking of every
      wrapper and records every URI, while the resolver stops at the limit and
      the document it returns keeps no ad. */
  lemma DeepChainTrackedNotResolved(doc: seq<Event>, us: seq<string>, fetch: Fetch)
    requires MaxWrapperDepth <= |us|
    requires TrackingChain(doc, us, fetch) && NoDup(us)
    ensures CollectSpec(doc, fetch, Collection(NoTracking, []))
            == Ok(Collection(ExtractAll(ChainWrappers(doc, us, fetch), NoTracking), us))
    ensures UnwrapSpec(doc, 0, fetch, Trail({}, [])).vast == Vast(VastSpec(doc, 0).value.version, [], None)
  {
    DistinctIsFresh(us);
    assert Elems([]) == {};
    assert [] + us == us;
    TrackingChainCollects(doc, us, fetch, Collection(NoTracking, []));
    TrackingChainIsChain(doc, us, fetch);
    DeepChainResolvesEmpty(doc, us, 0, fetch, Trail({}, []));
  }

  lemma {:induction false} NoWrappersEnqueue(ads: seq<Ad>, fetch: Fetch, c: Collection, queued: seq<seq<Event>>)
    requires NoWrappers(ads)
    ensures EnqueueSpec(ads, fetch, c, queued) == (c, queued)
    decreases |ads|
  {
    if ads != [] {
      NoWrappersEnqueue(ads[1..], fetch, c, queued);
    }
  }

  /** One link of a chain in the queue variant: the wrapper is extracted, its URI
      recorded, and the fetched document becomes the whole queue. */
  lemma QueueChainLink(doc: seq<Event>, u: string, fetch: Fetch, c: Collection)
    requires WrapsTo(doc, u) && u in fetch && u !in c.visited
    ensures var w := VastSpec(doc, 0).value.ads[0].wrapper.value;
            QueueSpec([doc], fetch, c)
            == QueueSpec([fetch[u]], fetch, Collection(ExtractSpec(w, c.tracking), c.visited + [u]))
  {
    var ads := VastSpec(doc, 0).value.ads;
    EnqueueStep(ads, fetch, c, []);
    assert ads[1..] == [];
    assert [] + [fetch[u]] == [fetch[u]];
  }

  /** Along a chain of distinct, unvisited URIs the breadth-first collector
      extracts every wrapper and records every URI in chain order. */
  lemma {:induction false} QueueChainCollects(doc: seq<Event>, us: seq<string>, fetch: Fetch, c: Collection)
    requires TrackingChain(doc, us, fetch) && Fresh(us, Elems(c.visited))
    ensures QueueSpec([doc], fetch, c)
            == Ok(Collection(ExtractAll(ChainWrappers(doc, us, fetch), c.tracking), c.visited + us))
    decreases |us|
  {
    if us == [] {
      QueueChainEnd(doc, fetch, c);
      assert c.visited + [] == c.visited;
    } else {
      var u, rest := us[0], us[1..];
      var w := VastSpec(doc, 0).value.ads[0].wrapper.value;
      var c1 := Collection(ExtractSpec(w, c.tracking), c.visited + [u]);
      FreshTail(us, Elems(c.visited));
      ElemsSnoc(c.visited, u);
      QueueChainCollects(fetch[u], rest, fetch, c1);
      QueueChainLink(doc, u, fetch, c);
      ChainUnfold(doc, us, fetch, c);
    }
  }

  lemma QueueChainEnd(doc: seq<Event>, fetch: Fetch, c: Collection)
    requires TrackingChain(doc, [], fetch)
    ensures QueueSpec([doc], fetch, c) == Ok(c)
  {
    NoWrappersEnqueue(VastSpec(doc, 0).value.ads, fetch, c, []);
  }

  /** On a chain of distinct, unvisited URIs the breadth-first and depth-first
      collectors agree. */
  lemma BreadthFirstIsDepthFirstOnChain(doc: seq<Event>, us: seq<string>, fetch: Fetch, c: Collection)
    requires TrackingChain(doc, us, fetch) && Fresh(us, Elems(c.visited))
    ensures QueueSpec([doc], fetch, c) == CollectSpec(doc, fetch, c)
  {
    QueueChainCollects(doc, us, fetch, c);
    TrackingChainCollects(doc, us, fetch, c);
  }

  /** No URI of the document's wrappers can be fetched. */
  predicate NoneFetchable(ads: seq<Ad>, fetch: Fetch) {
    forall i :: 0 <= i < |ads| && ads[i].wrapper.Some? ==> ads[i].wrapper.value.vastAdTagUri !in fetch
  }

  /** When nothing is followed, the loop over the ads of both traversals does the
      same and queues nothing. */
  lemma {:induction false} EnqueueIsCollectWhenNoneFetchable(ads: seq<Ad>, fetch: Fetch, c: Collection,
                                                            queued: seq<seq<Event>>)
    requires NoneFetchable(ads, fetch)
    ensures EnqueueSpec(ads, fetch, c, queued).1 == queued
    ensures CollectAdsSpec(ads, fetch, c) == Ok(EnqueueSpec(ads, fetch, c, queued).0)
    decreases |ads|
  {
    if ads != [] {
      assert NoneFetchable(ads[1..], fetch) by {
        forall i | 0 <= i < |ads[1..]| && ads[1..][i].wrapper.Some?
          ensures ads[1..][i].wrapper.value.vastAdTagUri !in fetch
        {
          assert ads[1..][i] == ads[i + 1];
        }
      }
      if ads[0].wrapper.None? {
        EnqueueIsCollectWhenNoneFetchable(ads[1..], fetch, c, queued);
      } else {
        EnqueueIsCollectWhenNoneFetchable(ads[1..], fetch, Visit(c, ads[0].wrapper.value), queued);
      }
    }
  }

  /** The breadth-first and depth-first traversals agree on a document none of
      whose wrapper URIs can be fetched. */
  lemma BreadthFirstIsDepthFirstWhenNoneFetchable(doc: seq<Event>, fetch: Fetch, c: Collection)
    requires VastSpec(doc, 0).Ok? ==> NoneFetchable(VastSpec(doc, 0).value.ads, fetch)
    ensures QueueSpec([doc], fetch, c) == CollectSpec(doc, fetch, c)
  {
    var parsed := VastSpec(doc, 0);
    if parsed.Ok? {
      var ads := parsed.value.ads;
      EnqueueIsCollectWhenNoneFetchable(ads, fetch, c, []);
      assert [doc][1..] == [];
      var e := EnqueueSpec(ads, fetch, c, []);
      assert QueueSpec([doc], fetch, c) == QueueSpec([], fetch, e.0);
      assert CollectSpec(doc, fetch, c) == CollectAdsSpec(ads, fetch, c);
    }
  }
}
