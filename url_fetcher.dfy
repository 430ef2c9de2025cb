/** The `UrlFetcher` mixin: a response cache in front of the network. The cache directory
    is a map from URL to stored body; the network is an oracle that answers each URL
    with a fixed body or fails, and records every request it receives. */
module UrlFetcher {
  import opened Results

  /** What a lookup of `url` in `known` yields: the body, or a fetch failure. */
  function Remote(known: map<string, string>, url: string): (r: Result<string>)
    ensures r.Success? <==> url in known
    ensures r.Success? ==> r.value == known[url]
    ensures r.Failure? ==> r.error == FetchError(url)
  {
    if url in known then Success(known[url]) else Failure(FetchError(url))
  }

  /** The bodies the network gives for the URLs in `asked`, as the cache stores them. */
  function Answered(responses: map<string, string>, asked: seq<string>): map<string, string>
  {
    map url | url in asked && url in responses :: responses[url]
  }

  /** The change one `fetch_url_response(url)` makes to the cache and to the request log:
      a hit changes neither; a miss logs one request and stores the body if there is one. */
  predicate FetchedOnce(entries0: map<string, string>, requests0: seq<string>,
                        entries1: map<string, string>, requests1: seq<string>,
                        responses: map<string, string>, url: string)
  {
    if url in entries0 then entries1 == entries0 && requests1 == requests0
    else
      && requests1 == requests0 + [url]
      && entries1 == if url in responses then entries0[url := responses[url]] else entries0
  }

  /** The change a run of fetches makes: the log grows by requests for URLs in `urls`
      that the cache did not hold, and the cache gains exactly the bodies that came back. */
  predicate CachedRun(entries0: map<string, string>, requests0: seq<string>,
                      entries1: map<string, string>, requests1: seq<string>,
                      responses: map<string, string>, urls: set<string>)
  {
    && |requests0| <= |requests1| && requests1[..|requests0|] == requests0
    && (forall url :: url in requests1[|requests0|..] ==> url in urls && url !in entries0)
    && entries1 == entries0 + Answered(responses, requests1[|requests0|..])
  }

  /** Doing nothing is a run of no fetches. */
  lemma CachedRunNone(entries: map<string, string>, requests: seq<string>, responses: map<string, string>)
    ensures CachedRun(entries, requests, entries, requests, responses, {})
  {
    assert requests[|requests|..] == [];
    assert entries + Answered(responses, []) == entries;
  }

  /** One fetch is a run that asks at most for its own URL. */
  lemma FetchedOnceIsRun(entries0: map<string, string>, requests0: seq<string>,
                         entries1: map<string, string>, requests1: seq<string>,
                         responses: map<string, string>, url: string)
    requires FetchedOnce(entries0, requests0, entries1, requests1, responses, url)
    ensures CachedRun(entries0, requests0, entries1, requests1, responses, {url})
  {
    if url in entries0 {
      CachedRunNone(entries0, requests0, responses);
    } else {
      assert requests1[|requests0|..] == [url];
      assert entries1 == entries0 + Answered(responses, [url]);
    }
  }

  lemma AnsweredAppend(responses: map<string, string>, a: seq<string>, b: seq<string>)
    ensures Answered(responses, a + b) == Answered(responses, a) + Answered(responses, b)
  {
    var l, r := Answered(responses, a + b), Answered(responses, a) + Answered(responses, b);
    assert forall url :: url in a + b <==> url in a || url in b;
    assert l.Keys == r.Keys;
  }

  lemma LogThen(requests0: seq<string>, requests1: seq<string>, requests2: seq<string>)
    requires |requests0| <= |requests1| && requests1[..|requests0|] == requests0
    requires |requests1| <= |requests2| && requests2[..|requests1|] == requests1
    ensures requests2[..|requests0|] == requests0
    ensures requests2[|requests0|..] == requests1[|requests0|..] + requests2[|requests1|..]
  {
    assert requests2[..|requests0|] == requests2[..|requests1|][..|requests0|];
  }

  lemma StoreThen(entries0: map<string, string>, a01: map<string, string>, a12: map<string, string>)
    ensures (entries0 + a01) + a12 == entries0 + (a01 + a12)
  {
    assert ((entries0 + a01) + a12).Keys == (entries0 + (a01 + a12)).Keys;
  }

  /** Two runs one after the other are one run over both sets of URLs. */
  lemma CachedRunThen(entries0: map<string, string>, requests0: seq<string>,
                      entries1: map<string, string>, requests1: seq<string>,
                      entries2: map<string, string>, requests2: seq<string>,
                      responses: map<string, string>, urls01: set<string>, urls12: set<string>)
    requires CachedRun(entries0, requests0, entries1, requests1, responses, urls01)
    requires CachedRun(entries1, requests1, entries2, requests2, responses, urls12)
    ensures CachedRun(entries0, requests0, entries2, requests2, responses, urls01 + urls12)
  {
    var asked01, asked12 := requests1[|requests0|..], requests2[|requests1|..];
    LogThen(requests0, requests1, requests2);
    AnsweredAppend(responses, asked01, asked12);
    StoreThen(entries0, Answered(responses, asked01), Answered(responses, asked12));
    assert entries0.Keys <= entries1.Keys;
    forall url | url in asked01 + asked12 ensures url in urls01 + urls12 && url !in entries0 {
      if url !in asked01 {
        assert url in asked12;
      }
    }
  }

  /** A traversal that stops at the first failure, one item further: the run so far
      followed by the item's own run is a run over what the longer prefix reaches, and
      over all the traversal reaches once that item fails. */
  lemma {:induction false} CachedRunStep<T>(entries0: map<string, string>, requests0: seq<string>,
                                         entries1: map<string, string>, requests1: seq<string>,
                                         entries2: map<string, string>, requests2: seq<string>,
                                         responses: map<string, string>,
                                         rs: seq<Result<T>>, us: seq<set<string>>, k: nat)
    requires |rs| == |us| && k < |rs| && Collect(rs[..k]).Success?
    requires CachedRun(entries0, requests0, entries1, requests1, responses, Reached(rs[..k], us[..k]))
    requires CachedRun(entries1, requests1, entries2, requests2, responses, us[k])
    ensures CachedRun(entries0, requests0, entries2, requests2, responses, Reached(rs[..k + 1], us[..k + 1]))
    ensures rs[k].Failure? ==> CachedRun(entries0, requests0, entries2, requests2, responses, Reached(rs, us))
  {
    CachedRunThen(entries0, requests0, entries1, requests1, entries2, requests2, responses,
                  Reached(rs[..k], us[..k]), us[k]);
    assert rs[..k + 1] == rs[..k] + [rs[k]] && us[..k + 1] == us[..k] + [us[k]];
    ReachedSnoc(rs[..k], us[..k], rs[k], us[k]);
    if rs[k].Failure? {
      ReachedStopsAtFailure(rs, us, k);
    }
  }

  /** The remote web as the core sees it: `URI.open(url).read`. */
  class Network {
    const responses: map<string, string>
    var requests: seq<string>

    constructor (responses: map<string, string>)
      ensures this.responses == responses && requests == []
    {
      this.responses := responses;
      requests := [];
    }

    method Get(url: string) returns (r: Result<string>)
      modifies this
      ensures requests == old(requests) + [url]
      ensures r == Remote(responses, url)
    {
      requests := requests + [url];
      r := Remote(responses, url);
    }
  }

  /** The `.cache` directory: one stored body per URL, never evicted. */
  class ResponseCache {
    var entries: map<string, string>

    constructor (entries: map<string, string>)
      ensures this.entries == entries
    {
      this.entries := entries;
    }

    /** What a fetch of each URL yields: the stored body where there is one, otherwise
        the network's answer. */
    function View(net: Network): map<string, string>
      reads this
    {
      net.responses + entries
    }

    /** Every stored body is what the network serves for that URL. */
    predicate Coherent(net: Network)
      reads this
    {
      forall url :: url in entries ==> url in net.responses && net.responses[url] == entries[url]
    }

    /** `fetch_url_response(url)`: a hit returns the stored body and asks the network
        nothing; a miss asks the network once and stores a body it returns. */
    method FetchUrlResponse(url: string, net: Network) returns (r: Result<string>)
      modifies this, net
      ensures r == Remote(old(View(net)), url)
      ensures View(net) == old(View(net))
      ensures url in old(entries) ==> r == Success(old(entries)[url])
      ensures FetchedOnce(old(entries), old(net.requests), entries, net.requests, net.responses, url)
      ensures old(Coherent(net)) ==> Coherent(net)
    {
      if url in entries {
        r := Success(entries[url]);
      } else {
        r := net.Get(url);
        if r.Success? {
          entries := entries[url := r.value];
          assert View(net) == old(View(net));
        }
      }
    }
  }

  /** A coherent cache is invisible: fetching through it yields what the network serves. */
  lemma CoherentCacheIsTransparent(cache: ResponseCache, net: Network)
    requires cache.Coherent(net)
    ensures cache.View(net) == net.responses
  {
    assert cache.View(net).Keys == net.responses.Keys;
  }

  /** Two fetches of one URL: the network is asked at most once and both give the same. */
  method FetchTwice(cache: ResponseCache, net: Network, url: string) returns (first: Result<string>, second: Result<string>)
    modifies cache, net
    ensures first == second == Remote(old(cache.View(net)), url)
    ensures first.Success? ==> |net.requests| <= |old(net.requests)| + 1
    ensures first.Failure? ==> net.requests == old(net.requests) + [url, url]
  {
    first := cache.FetchUrlResponse(url, net);
    second := cache.FetchUrlResponse(url, net);
  }
}
