/** The wrapper-chain resolver of src/unwrap.rs.

    A document is given as its event stream. Fetching a VASTAdTagURI is an oracle:
    `fetch` maps each URI that can be fetched to the event stream of the document
    found there, and a URI outside its domain is a failed fetch. The HashSet of
    visited URIs the source threads through the recursion is passed in and handed
    back; alongside it the model keeps the order in which URIs were fetched (the
    `fetched` log), which the source does not store but which states that no URI is
    fetched twice. */
module Unwrap {
  import opened Models
  import opened Errors
  import opened XmlEvents
  import opened ParserSpec
  import Parser

  type Fetch = map<string, seq<Event>>

  /** MAX_WRAPPER_DEPTH. */
  const MaxWrapperDepth: nat := 10
  const DepthExceeded := "Maximum wrapper depth exceeded"
  const ParseFailed := "Failed to parse VAST XML"

  /** The visited URIs and, in order, every URI whose fetch was attempted. */
  datatype Trail = Trail(visited: set<string>, fetched: seq<string>)

  datatype Unwrapped = Unwrapped(vast: Vast, trail: Trail)

  predicate NoDup(s: seq<string>) {
    forall i, j :: 0 <= i < j < |s| ==> s[i] != s[j]
  }

  /** The log and the visited set agree, and no URI was fetched twice. */
  ghost predicate Consistent(t: Trail) {
    NoDup(t.fetched) && forall u :: u in t.fetched <==> u in t.visited
  }

  predicate AllInline(ads: seq<Ad>) {
    forall i :: 0 <= i < |ads| ==> ads[i].inline.Some?
  }

  /** The ads of `ads` that carry an InLine, in order. */
  function InlineAds(ads: seq<Ad>): (r: seq<Ad>)
    ensures AllInline(r)
  {
    if ads == [] then []
    else (if ads[0].inline.Some? then [ads[0]] else []) + InlineAds(ads[1..])
  }

  /** unwrap_vast_with_depth: at the depth limit, or when the document does not
      parse, an empty document carrying an explanation; otherwise the document's
      version and error with the ads its chain resolves to. */
  function UnwrapSpec(doc: seq<Event>, depth: nat, fetch: Fetch, t: Trail): (r: Unwrapped)
    ensures AllInline(r.vast.ads)
    ensures t.visited <= r.trail.visited && t.fetched <= r.trail.fetched
    ensures Consistent(t) ==> Consistent(r.trail)
    ensures depth >= MaxWrapperDepth ==> r == Unwrapped(Vast("4.0", [], Some(DepthExceeded)), t)
    decreases MaxWrapperDepth - depth, 1, 0
  {
    if depth >= MaxWrapperDepth then Unwrapped(Vast("4.0", [], Some(DepthExceeded)), t)
    else
      match VastSpec(doc, 0)
      case Err(_) => Unwrapped(Vast("4.0", [], Some(ParseFailed)), t)
      case Ok(vast) =>
        var (ads, t') := UnwrapAdsSpec(vast.ads, depth, fetch, [], t);
        Unwrapped(Vast(vast.version, ads, vast.error), t')
  }

  /** The `for ad in vast.ads` loop: an ad with an InLine is kept; otherwise a
      wrapper whose URI was not visited yet is marked visited and, when the fetch
      succeeds, replaced by the ads its document resolves to. */
  function UnwrapAdsSpec(ads: seq<Ad>, depth: nat, fetch: Fetch, acc: seq<Ad>, t: Trail)
    : (r: (seq<Ad>, Trail))
    requires depth < MaxWrapperDepth
    ensures AllInline(acc) ==> AllInline(r.0)
    ensures acc <= r.0
    ensures t.visited <= r.1.visited && t.fetched <= r.1.fetched
    ensures Consistent(t) ==> Consistent(r.1)
    decreases MaxWrapperDepth - depth, 0, |ads|
  {
    if ads == [] then (acc, t)
    else
      var ad := ads[0];
      if ad.inline.Some? then UnwrapAdsSpec(ads[1..], depth, fetch, acc + [ad], t)
      else if ad.wrapper.Some? then
        var uri := ad.wrapper.value.vastAdTagUri;
        if uri in t.visited then UnwrapAdsSpec(ads[1..], depth, fetch, acc, t)
        else
          var t1 := Trail(t.visited + {uri}, t.fetched + [uri]);
          if uri !in fetch then UnwrapAdsSpec(ads[1..], depth, fetch, acc, t1)
          else
            var next := UnwrapSpec(fetch[uri], depth + 1, fetch, t1);
            UnwrapAdsSpec(ads[1..], depth, fetch, acc + next.vast.ads, next.trail)
      else UnwrapAdsSpec(ads[1..], depth, fetch, acc, t)
  }

  /** unwrap_vast_with_depth. The visited set is passed in and returned; the
      fetch log is ghost. The result is never an error. */
  method UnwrapVastWithDepth(doc: seq<Event>, depth: nat, fetch: Fetch, visited: set<string>,
                             ghost fetched: seq<string>)
    returns (r: Result<Vast>, visitedOut: set<string>, ghost fetchedOut: seq<string>)
    ensures var u := UnwrapSpec(doc, depth, fetch, Trail(visited, fetched));
            r == Ok(u.vast) && Trail(visitedOut, fetchedOut) == u.trail
    decreases MaxWrapperDepth - depth
  {
    if depth >= MaxWrapperDepth {
      return Ok(Vast("4.0", [], Some(DepthExceeded))), visited, fetched;
    }
    var parsed := Parser.ParseVast(doc);
    if parsed.Err? {
      return Ok(Vast("4.0", [], Some(ParseFailed))), visited, fetched;
    }
    var vast := parsed.value;
    var resultAds: seq<Ad> := [];
    visitedOut, fetchedOut := visited, fetched;
    for i := 0 to |vast.ads|
      invariant UnwrapAdsSpec(vast.ads[i..], depth, fetch, resultAds, Trail(visitedOut, fetchedOut))
                == UnwrapAdsSpec(vast.ads, depth, fetch, [], Trail(visited, fetched))
    {
      var ad := vast.ads[i];
      assert vast.ads[i..][1..] == vast.ads[i + 1..];
      if ad.inline.Some? {
        resultAds := resultAds + [ad];
      } else if ad.wrapper.Some? {
        var uri := ad.wrapper.value.vastAdTagUri;
        if uri in visitedOut {
          continue;
        }
        visitedOut, fetchedOut := visitedOut + {uri}, fetchedOut + [uri];
        if uri !in fetch {
          continue;
        }
        var next;
        next, visitedOut, fetchedOut := UnwrapVastWithDepth(fetch[uri], depth + 1, fetch, visitedOut, fetchedOut);
        if next.Ok? {
          resultAds := resultAds + next.value.ads;
        }
      }
    }
    r := Ok(Vast(vast.version, resultAds, vast.error));
  }

  /** unwrap_vast: resolves the chain from an empty visited set. It always
      succeeds; every ad of the result carries an InLine. */
  method UnwrapVast(doc: seq<Event>, fetch: Fetch) returns (r: Result<Vast>)
    ensures r == Ok(UnwrapSpec(doc, 0, fetch, Trail({}, [])).vast)
    ensures AllInline(r.value.ads)
    ensures VastSpec(doc, 0).Err? ==> r.value == Vast("4.0", [], Some(ParseFailed))
    ensures VastSpec(doc, 0).Ok? ==>
              r.value.version == VastSpec(doc, 0).value.version && r.value.error == None
  {
    var visited;
    ghost var fetched;
    r, visited, fetched := UnwrapVastWithDepth(doc, 0, fetch, {}, []);
  }

  // ---------------------------------------------------------------------------
  // Properties

  /** Without any fetchable URI the resolved ads are exactly the inline ads. */
  lemma {:induction false} NoFetchKeepsInline(ads: seq<Ad>, depth: nat, acc: seq<Ad>, t: Trail)
    requires depth < MaxWrapperDepth
    ensures UnwrapAdsSpec(ads, depth, map[], acc, t).0 == acc + InlineAds(ads)
    decreases |ads|
  {
    if ads != [] {
      var ad := ads[0];
      if ad.inline.Some? {
        NoFetchKeepsInline(ads[1..], depth, acc + [ad], t);
        assert (acc + [ad]) + InlineAds(ads[1..]) == acc + InlineAds(ads);
      } else if ad.wrapper.Some? {
        var uri := ad.wrapper.value.vastAdTagUri;
        var t1 := Trail(t.visited + {uri}, t.fetched + [uri]);
        var t' := if uri in t.visited then t else t1;
        NoFetchKeepsInline(ads[1..], depth, acc, t');
        assert UnwrapAdsSpec(ads, depth, map[], acc, t) == UnwrapAdsSpec(ads[1..], depth, map[], acc, t');
      } else {
        NoFetchKeepsInline(ads[1..], depth, acc, t);
      }
    }
  }

  /** Every inline ad of the document reaches the result, whatever the wrappers
      beside it resolve to. */
  lemma {:induction false} InlineAdsKept(ads: seq<Ad>, depth: nat, fetch: Fetch, acc: seq<Ad>, t: Trail)
    requires depth < MaxWrapperDepth
    ensures forall a :: a in acc + InlineAds(ads) ==> a in UnwrapAdsSpec(ads, depth, fetch, acc, t).0
    decreases |ads|
  {
    if ads != [] {
      var ad := ads[0];
      var rest := UnwrapAdsSpec(ads, depth, fetch, acc, t);
      if ad.inline.Some? {
        InlineAdsKept(ads[1..], depth, fetch, acc + [ad], t);
      } else if ad.wrapper.Some? {
        var uri := ad.wrapper.value.vastAdTagUri;
        var t1 := Trail(t.visited + {uri}, t.fetched + [uri]);
        if uri in t.visited {
          InlineAdsKept(ads[1..], depth, fetch, acc, t);
        } else if uri !in fetch {
          InlineAdsKept(ads[1..], depth, fetch, acc, t1);
        } else {
          var next := UnwrapSpec(fetch[uri], depth + 1, fetch, t1);
          InlineAdsKept(ads[1..], depth, fetch, acc + next.vast.ads, next.trail);
        }
      } else {
        InlineAdsKept(ads[1..], depth, fetch, acc, t);
      }
    }
  }

  /** Starting from an empty visited set, no URI is ever fetched twice: a chain
      that points back at itself stops instead of looping. */
  lemma FetchedOnce(doc: seq<Event>, fetch: Fetch)
    ensures NoDup(UnwrapSpec(doc, 0, fetch, Trail({}, [])).trail.fetched)
  {
  }

  /** A document whose only ad wraps a URI that serves the document itself is
      fetched once; the second visit is skipped and nothing is resolved. */
  lemma SelfWrapper(doc: seq<Event>, uri: string, w: Wrapper, id: Option<string>, version: string)
    requires VastSpec(doc, 0) == Ok(Vast(version, [Ad(id, None, None, None, Some(w))], None))
    requires w.vastAdTagUri == uri
    ensures UnwrapSpec(doc, 0, map[uri := doc], Trail({}, []))
            == Unwrapped(Vast(version, [], None), Trail({uri}, [uri]))
  {
    var fetch := map[uri := doc];
    var ads := [Ad(id, None, None, None, Some(w))];
    var t1 := Trail({uri}, [uri]);
    assert UnwrapAdsSpec(ads, 1, fetch, [], t1) == ([], t1);
    assert UnwrapSpec(doc, 1, fetch, t1) == Unwrapped(Vast(version, [], None), t1);
    assert Trail({} + {uri}, [] + [uri]) == t1;
    assert UnwrapAdsSpec(ads, 0, fetch, [], Trail({}, [])) == UnwrapAdsSpec([], 0, fetch, [] + [], t1);
  }

  // ---------------------------------------------------------------------------
  // The ad loop, piece by piece

  /** The ads collected before the loop are kept as they are in front of what
      the loop adds; the trail does not depend on them. */
  lemma {:induction false} UnwrapAdsAcc(ads: seq<Ad>, depth: nat, fetch: Fetch, acc: seq<Ad>, t: Trail)
    requires depth < MaxWrapperDepth
    ensures UnwrapAdsSpec(ads, depth, fetch, acc, t).0 == acc + UnwrapAdsSpec(ads, depth, fetch, [], t).0
    ensures UnwrapAdsSpec(ads, depth, fetch, acc, t).1 == UnwrapAdsSpec(ads, depth, fetch, [], t).1
    decreases |ads|
  {
    if ads != [] {
      var ad, rest := ads[0], ads[1..];
      if ad.inline.Some? {
        UnwrapAdsAcc(rest, depth, fetch, acc + [ad], t);
        UnwrapAdsAcc(rest, depth, fetch, [ad], t);
        assert [] + [ad] == [ad];
        assert (acc + [ad]) + UnwrapAdsSpec(rest, depth, fetch, [], t).0
               == acc + ([ad] + UnwrapAdsSpec(rest, depth, fetch, [], t).0);
      } else if ad.wrapper.Some? {
        var uri := ad.wrapper.value.vastAdTagUri;
        var t1 := Trail(t.visited + {uri}, t.fetched + [uri]);
        if uri in t.visited {
          UnwrapAdsAcc(rest, depth, fetch, acc, t);
        } else if uri !in fetch {
          UnwrapAdsAcc(rest, depth, fetch, acc, t1);
        } else {
          var next := UnwrapSpec(fetch[uri], depth + 1, fetch, t1);
          var found := next.vast.ads;
          UnwrapAdsAcc(rest, depth, fetch, acc + found, next.trail);
          UnwrapAdsAcc(rest, depth, fetch, [] + found, next.trail);
          assert [] + found == found;
          assert (acc + found) + UnwrapAdsSpec(rest, depth, fetch, [], next.trail).0
                 == acc + (found + UnwrapAdsSpec(rest, depth, fetch, [], next.trail).0);
        }
      } else {
        UnwrapAdsAcc(rest, depth, fetch, acc, t);
      }
    }
  }

  /** The loop over `a + b` is the loop over `a`, then the loop over `b` from
      where the first one stopped. */
  lemma {:induction false} UnwrapAdsSplit(a: seq<Ad>, b: seq<Ad>, depth: nat, fetch: Fetch, acc: seq<Ad>, t: Trail)
    requires depth < MaxWrapperDepth
    ensures var first := UnwrapAdsSpec(a, depth, fetch, acc, t);
            UnwrapAdsSpec(a + b, depth, fetch, acc, t) == UnwrapAdsSpec(b, depth, fetch, first.0, first.1)
    decreases |a|
  {
    if a != [] {
      assert (a + b)[0] == a[0] && (a + b)[1..] == a[1..] + b;
      var ad := a[0];
      if ad.inline.Some? {
        UnwrapAdsSplit(a[1..], b, depth, fetch, acc + [ad], t);
      } else if ad.wrapper.Some? {
        var uri := ad.wrapper.value.vastAdTagUri;
        var t1 := Trail(t.visited + {uri}, t.fetched + [uri]);
        if uri in t.visited {
          UnwrapAdsSplit(a[1..], b, depth, fetch, acc, t);
        } else if uri !in fetch {
          UnwrapAdsSplit(a[1..], b, depth, fetch, acc, t1);
        } else {
          var next := UnwrapSpec(fetch[uri], depth + 1, fetch, t1);
          UnwrapAdsSplit(a[1..], b, depth, fetch, acc + next.vast.ads, next.trail);
        }
      } else {
        UnwrapAdsSplit(a[1..], b, depth, fetch, acc, t);
      }
    } else {
      assert a + b == b;
    }
  }

  /** A wrapper whose URI was not visited and can be fetched is replaced, in
      place, by the ads its document resolves to; the rest of the loop goes on
      with the trail that resolution left. */
  lemma WrapperSpliced(ad: Ad, rest: seq<Ad>, depth: nat, fetch: Fetch, acc: seq<Ad>, t: Trail)
    requires depth < MaxWrapperDepth
    requires ad.inline.None? && ad.wrapper.Some?
    requires ad.wrapper.value.vastAdTagUri !in t.visited && ad.wrapper.value.vastAdTagUri in fetch
    ensures var uri := ad.wrapper.value.vastAdTagUri;
            var next := UnwrapSpec(fetch[uri], depth + 1, fetch, Trail(t.visited + {uri}, t.fetched + [uri]));
            var after := UnwrapAdsSpec(rest, depth, fetch, [], next.trail);
            UnwrapAdsSpec([ad] + rest, depth, fetch, acc, t) == (acc + next.vast.ads + after.0, after.1)
  {
    var uri := ad.wrapper.value.vastAdTagUri;
    var next := UnwrapSpec(fetch[uri], depth + 1, fetch, Trail(t.visited + {uri}, t.fetched + [uri]));
    assert ([ad] + rest)[0] == ad && ([ad] + rest)[1..] == rest;
    UnwrapAdsAcc(rest, depth, fetch, acc + next.vast.ads, next.trail);
  }

  // ---------------------------------------------------------------------------
  // The inline ads keep their order

  /** `x` can be read off `y` by dropping elements. */
  predicate Subsequence(x: seq<Ad>, y: seq<Ad>)
    decreases |y|
  {
    x == [] || (y != [] && ((x[0] == y[0] && Subsequence(x[1..], y[1..])) || Subsequence(x, y[1..])))
  }

  lemma {:induction false} SubsequencePrefix(x: seq<Ad>, p: seq<Ad>, y: seq<Ad>)
    requires Subsequence(x, y)
    ensures Subsequence(x, p + y)
    decreases |p|
  {
    if p == [] {
      assert p + y == y;
    } else {
      SubsequencePrefix(x, p[1..], y);
      assert (p + y)[1..] == p[1..] + y;
    }
  }

  /** The inline ads of a document come out in their document order, whatever
      the wrappers between them resolve to. */
  lemma {:induction false} InlineAdsInOrder(ads: seq<Ad>, depth: nat, fetch: Fetch, t: Trail)
    requires depth < MaxWrapperDepth
    ensures Subsequence(InlineAds(ads), UnwrapAdsSpec(ads, depth, fetch, [], t).0)
    decreases |ads|
  {
    if ads != [] {
      var ad, rest := ads[0], ads[1..];
      if ad.inline.Some? {
        InlineAdsInOrder(rest, depth, fetch, t);
        UnwrapAdsAcc(rest, depth, fetch, [ad], t);
        assert [] + [ad] == [ad];
        var out := UnwrapAdsSpec(ads, depth, fetch, [], t).0;
        assert out == [ad] + UnwrapAdsSpec(rest, depth, fetch, [], t).0;
        assert InlineAds(ads) == [ad] + InlineAds(rest);
        assert out[1..] == UnwrapAdsSpec(rest, depth, fetch, [], t).0;
      } else if ad.wrapper.Some? {
        var uri := ad.wrapper.value.vastAdTagUri;
        var t1 := Trail(t.visited + {uri}, t.fetched + [uri]);
        assert InlineAds(ads) == InlineAds(rest);
        if uri in t.visited {
          InlineAdsInOrder(rest, depth, fetch, t);
        } else if uri !in fetch {
          InlineAdsInOrder(rest, depth, fetch, t1);
        } else {
          var next := UnwrapSpec(fetch[uri], depth + 1, fetch, t1);
          InlineAdsInOrder(rest, depth, fetch, next.trail);
          UnwrapAdsAcc(rest, depth, fetch, [] + next.vast.ads, next.trail);
          assert [] + next.vast.ads == next.vast.ads;
          SubsequencePrefix(InlineAds(rest), next.vast.ads, UnwrapAdsSpec(rest, depth, fetch, [], next.trail).0);
        }
      } else {
        assert InlineAds(ads) == InlineAds(rest);
        InlineAdsInOrder(rest, depth, fetch, t);
      }
    }
  }

  // ---------------------------------------------------------------------------
  // Wrapper chains

  /** The document's only ad is a wrapper (without an InLine) pointing at `uri`. */
  predicate WrapsTo(doc: seq<Event>, uri: string) {
    var v := VastSpec(doc, 0);
    v.Ok? && |v.value.ads| == 1 && v.value.ads[0].inline.None? && v.value.ads[0].wrapper.Some?
    && v.value.ads[0].wrapper.value.vastAdTagUri == uri
  }

  /** No ad is left for the resolver to follow: each carries an InLine or no
      Wrapper. */
  predicate Settled(ads: seq<Ad>) {
    forall i :: 0 <= i < |ads| ==> ads[i].inline.Some? || ads[i].wrapper.None?
  }

  /** `doc` starts a chain through the URIs `us`: each document wraps the next
      URI, each URI can be fetched, and the last document parses with settled ads. */
  predicate Chain(doc: seq<Event>, us: seq<string>, fetch: Fetch)
    decreases |us|
  {
    if us == [] then VastSpec(doc, 0).Ok? && Settled(VastSpec(doc, 0).value.ads)
    else WrapsTo(doc, us[0]) && us[0] in fetch && Chain(fetch[us[0]], us[1..], fetch)
  }

  /** The ads of the last document of a chain. */
  function LastAds(doc: seq<Event>, us: seq<string>, fetch: Fetch): seq<Ad>
    requires Chain(doc, us, fetch)
    decreases |us|
  {
    if us == [] then VastSpec(doc, 0).value.ads else LastAds(fetch[us[0]], us[1..], fetch)
  }

  lemma {:induction false} SettledKeepsInline(ads: seq<Ad>, depth: nat, fetch: Fetch, acc: seq<Ad>, t: Trail)
    requires depth < MaxWrapperDepth && Settled(ads)
    ensures UnwrapAdsSpec(ads, depth, fetch, acc, t) == (acc + InlineAds(ads), t)
    decreases |ads|
  {
    if ads == [] {
      assert acc + [] == acc;
    } else if ads[0].inline.Some? {
      var ad := ads[0];
      SettledKeepsInline(ads[1..], depth, fetch, acc + [ad], t);
      assert (acc + [ad]) + InlineAds(ads[1..]) == acc + ([ad] + InlineAds(ads[1..]));
    } else {
      SettledKeepsInline(ads[1..], depth, fetch, acc, t);
      assert [] + InlineAds(ads[1..]) == InlineAds(ads[1..]);
    }
  }

  /** The last document of a chain resolves to its own inline ads. */
  lemma ChainEnd(doc: seq<Event>, depth: nat, fetch: Fetch, t: Trail)
    requires depth < MaxWrapperDepth && Chain(doc, [], fetch)
    ensures UnwrapSpec(doc, depth, fetch, t)
            == Unwrapped(Vast(VastSpec(doc, 0).value.version, InlineAds(VastSpec(doc, 0).value.ads), None), t)
  {
    SettledKeepsInline(VastSpec(doc, 0).value.ads, depth, fetch, [], t);
    assert [] + InlineAds(VastSpec(doc, 0).value.ads) == InlineAds(VastSpec(doc, 0).value.ads);
  }

  /** A document that only wraps an unvisited, fetchable URI resolves to what
      the fetched document resolves to, under its own version. */
  lemma ChainLink(doc: seq<Event>, u: string, depth: nat, fetch: Fetch, t: Trail)
    requires depth + 1 < MaxWrapperDepth
    requires WrapsTo(doc, u) && u in fetch && u !in t.visited
    ensures var next := UnwrapSpec(fetch[u], depth + 1, fetch, Trail(t.visited + {u}, t.fetched + [u]));
            UnwrapSpec(doc, depth, fetch, t) == Unwrapped(Vast(VastSpec(doc, 0).value.version, next.vast.ads, None), next.trail)
  {
    var ads := VastSpec(doc, 0).value.ads;
    var next := UnwrapSpec(fetch[u], depth + 1, fetch, Trail(t.visited + {u}, t.fetched + [u]));
    assert ads == [ads[0]] + [];
    WrapperSpliced(ads[0], [], depth, fetch, [], t);
    assert [] + next.vast.ads + [] == next.vast.ads;
  }

  /** The URIs `us` are distinct and none of them is in `visited`. */
  predicate Fresh(us: seq<string>, visited: set<string>)
    decreases |us|
  {
    us == [] || (us[0] !in visited && us[0] !in us[1..] && Fresh(us[1..], visited))
  }

  lemma {:induction false} DistinctIsFresh(us: seq<string>)
    requires NoDup(us)
    ensures Fresh(us, {})
    decreases |us|
  {
    if us != [] {
      assert NoDup(us[1..]) by {
        forall i, j | 0 <= i < j < |us| - 1
          ensures us[1..][i] != us[1..][j]
        {
          assert us[1..][i] == us[i + 1] && us[1..][j] == us[j + 1];
        }
      }
      DistinctIsFresh(us[1..]);
      assert us[0] !in us[1..] by {
        forall i | 0 <= i < |us| - 1
          ensures us[1..][i] != us[0]
        {
          assert us[1..][i] == us[i + 1];
        }
      }
    }
  }

  /** Fresh URIs stay fresh for a smaller visited set, and the rest of them
      stay fresh once the first one is visited. */
  lemma {:induction false} FreshTail(us: seq<string>, visited: set<string>)
    requires us != [] && Fresh(us, visited)
    ensures Fresh(us[1..], visited + {us[0]})
  {
    FreshWithout(us[1..], visited, us[0]);
  }

  lemma {:induction false} FreshWithout(us: seq<string>, visited: set<string>, u: string)
    requires Fresh(us, visited) && u !in us
    ensures Fresh(us, visited + {u})
    decreases |us|
  {
    if us != [] {
      assert u != us[0] && u !in us[1..];
      FreshWithout(us[1..], visited, u);
    }
  }

  /** One link of a chain, given what the rest of the chain resolves to. */
  lemma ChainStep(doc: seq<Event>, u: string, rest: seq<string>, depth: nat, fetch: Fetch, t: Trail, found: seq<Ad>)
    requires depth + 1 < MaxWrapperDepth
    requires WrapsTo(doc, u) && u in fetch && u !in t.visited
    requires var next := UnwrapSpec(fetch[u], depth + 1, fetch, Trail(t.visited + {u}, t.fetched + [u]));
             next.vast.ads == found && next.trail.fetched == (t.fetched + [u]) + rest
    ensures UnwrapSpec(doc, depth, fetch, t).vast == Vast(VastSpec(doc, 0).value.version, found, None)
    ensures UnwrapSpec(doc, depth, fetch, t).trail.fetched == t.fetched + ([u] + rest)
  {
    ChainLink(doc, u, depth, fetch, t);
    assert (t.fetched + [u]) + rest == t.fetched + ([u] + rest);
  }

  /** A chain of distinct, unvisited URIs short enough for the depth limit
      resolves to the inline ads of its last document, under the first
      document's version, and fetches each URI once, in chain order. */
  lemma {:induction false} ChainResolves(doc: seq<Event>, us: seq<string>, depth: nat, fetch: Fetch, t: Trail)
    requires depth + |us| < MaxWrapperDepth
    requires Chain(doc, us, fetch) && Fresh(us, t.visited)
    ensures UnwrapSpec(doc, depth, fetch, t).vast
            == Vast(VastSpec(doc, 0).value.version, InlineAds(LastAds(doc, us, fetch)), None)
    ensures UnwrapSpec(doc, depth, fetch, t).trail.fetched == t.fetched + us
    decreases |us|
  {
    if us == [] {
      ChainEnd(doc, depth, fetch, t);
      assert t.fetched + [] == t.fetched;
    } else {
      var u, rest := us[0], us[1..];
      FreshTail(us, t.visited);
      ChainResolves(fetch[u], rest, depth + 1, fetch, Trail(t.visited + {u}, t.fetched + [u]));
      ChainStep(doc, u, rest, depth, fetch, t, InlineAds(LastAds(fetch[u], rest, fetch)));
      assert us == [u] + rest;
    }
  }

  /** A document that only wraps an unvisited, fetchable URI resolving to no
      ad resolves to no ad, under its own version. */
  lemma EmptyLink(doc: seq<Event>, u: string, depth: nat, fetch: Fetch, t: Trail)
    requires depth < MaxWrapperDepth
    requires WrapsTo(doc, u) && u in fetch && u !in t.visited
    requires UnwrapSpec(fetch[u], depth + 1, fetch, Trail(t.visited + {u}, t.fetched + [u])).vast.ads == []
    ensures UnwrapSpec(doc, depth, fetch, t).vast == Vast(VastSpec(doc, 0).value.version, [], None)
  {
    var vast := VastSpec(doc, 0).value;
    assert vast.ads == [vast.ads[0]] + [];
    WrapperSpliced(vast.ads[0], [], depth, fetch, [], t);
    assert UnwrapAdsSpec(vast.ads, depth, fetch, [], t).0 == [];
  }

  /** The first link of a chain of fresh URIs, and the rest of the chain. */
  lemma ChainHead(doc: seq<Event>, us: seq<string>, fetch: Fetch, visited: set<string>)
    requires us != [] && Chain(doc, us, fetch) && Fresh(us, visited)
    ensures WrapsTo(doc, us[0]) && us[0] in fetch && us[0] !in visited
    ensures Chain(fetch[us[0]], us[1..], fetch) && Fresh(us[1..], visited + {us[0]})
  {
    FreshTail(us, visited);
  }

  /** At the depth limit a document is not read: it resolves to no ad. */
  lemma AtLimit(doc: seq<Event>, depth: nat, fetch: Fetch, t: Trail)
    requires depth >= MaxWrapperDepth
    ensures UnwrapSpec(doc, depth, fetch, t).vast.ads == []
  {
  }

  /** A chain that reaches the depth limit before its end resolves to no ad:
      the document at the limit is replaced by the empty document carrying
      DepthExceeded, and every link above it splices in that empty list. */
  lemma DeepChainResolvesEmpty(doc: seq<Event>, us: seq<string>, depth: nat, fetch: Fetch, t: Trail)
    requires depth < MaxWrapperDepth <= depth + |us|
    requires Chain(doc, us, fetch) && Fresh(us, t.visited)
    ensures UnwrapSpec(doc, depth, fetch, t).vast == Vast(VastSpec(doc, 0).value.version, [], None)
  {
    DeepChainBelow(doc, us, depth, fetch, t);
    ChainHead(doc, us, fetch, t.visited);
    EmptyLink(doc, us[0], depth, fetch, t);
  }

  /** The ads of such a chain, by induction along it. */
  lemma {:induction false} DeepChainNoAds(doc: seq<Event>, us: seq<string>, depth: nat, fetch: Fetch, t: Trail)
    requires depth < MaxWrapperDepth <= depth + |us|
    requires Chain(doc, us, fetch) && Fresh(us, t.visited)
    ensures UnwrapSpec(doc, depth, fetch, t).vast.ads == []
    decreases |us|, 1
  {
    DeepChainBelow(doc, us, depth, fetch, t);
    ChainHead(doc, us, fetch, t.visited);
    EmptyLink(doc, us[0], depth, fetch, t);
  }

  /** The document the first link of such a chain fetches resolves to no ad,
      whether it is at the depth limit or the chain goes on below it. */
  lemma {:induction false} DeepChainBelow(doc: seq<Event>, us: seq<string>, depth: nat, fetch: Fetch, t: Trail)
    requires depth < MaxWrapperDepth <= depth + |us|
    requires Chain(doc, us, fetch) && Fresh(us, t.visited)
    ensures us != [] && us[0] in fetch
    ensures UnwrapSpec(fetch[us[0]], depth + 1, fetch, Trail(t.visited + {us[0]}, t.fetched + [us[0]])).vast.ads == []
    decreases |us|, 0
  {
    ChainHead(doc, us, fetch, t.visited);
    var u := us[0];
    var t1 := Trail(t.visited + {u}, t.fetched + [u]);
    if depth + 1 < MaxWrapperDepth {
      DeepChainNoAds(fetch[u], us[1..], depth + 1, fetch, t1);
    } else {
      AtLimit(fetch[u], depth + 1, fetch, t1);
    }
  }

  /** From the top: a chain of fewer than MaxWrapperDepth distinct URIs resolves
      to the inline ads at its end. */
  lemma ChainFromTop(doc: seq<Event>, us: seq<string>, fetch: Fetch)
    requires |us| < MaxWrapperDepth
    requires Chain(doc, us, fetch) && NoDup(us)
    ensures UnwrapSpec(doc, 0, fetch, Trail({}, [])).vast
            == Vast(VastSpec(doc, 0).value.version, InlineAds(LastAds(doc, us, fetch)), None)
  {
    DistinctIsFresh(us);
    ChainResolves(doc, us, 0, fetch, Trail({}, []));
  }
}
