/** `Scryfall#find_card_by`: a search that must match exactly one card. */
module Scryfall {
  import opened Results
  import opened Cube
  import opened UrlFetcher

  const SearchEndpoint := "https://api.scryfall.com/cards/search?q="

  /** `"https://api.scryfall.com/cards/search?q=#{CGI.escape(search)}"`. */
  function SearchUrl(codecs: Codecs, search: string): string
  {
    SearchEndpoint + codecs.escape(search)
  }

  /** The count-based choice on `data[:data]`: the sole result, or an error naming the
      search (and, when ambiguous, the number of matches). */
  function Pick(data: seq<SearchResult>, search: string): (r: Result<SearchResult>)
    ensures r.Success? <==> |data| == 1
    ensures r.Success? ==> r.value == data[0]
    ensures r == Failure(TooManyCards(search, |data|)) <==> |data| > 1
    ensures r == Failure(ScryfallCardNotFound(search)) <==> |data| == 0
  {
    if |data| == 1 then Success(data[0])
    else if |data| > 1 then Failure(TooManyCards(search, |data|))
    else Failure(ScryfallCardNotFound(search))
  }

  /** What `find_card_by(search)` yields when every URL fetches as in `view`. */
  function FindCard(view: map<string, string>, codecs: Codecs, search: string): (r: Result<SearchResult>)
    ensures r.Success? <==>
              SearchUrl(codecs, search) in view && |codecs.parseJson(view[SearchUrl(codecs, search)])| == 1
    ensures r.Success? ==> r.value == codecs.parseJson(view[SearchUrl(codecs, search)])[0]
    ensures SearchUrl(codecs, search) !in view ==> r == Failure(FetchError(SearchUrl(codecs, search)))
  {
    match Remote(view, SearchUrl(codecs, search))
    case Failure(e) => Failure(e)
    case Success(json) => Pick(codecs.parseJson(json), search)
  }

  /** A search either fails to download or ends in one of the three outcomes of `Pick`;
      it never reports a card missing from the cube. */
  lemma FindCardOutcomes(view: map<string, string>, codecs: Codecs, search: string)
    ensures FindCard(view, codecs, search).Failure? ==>
              FindCard(view, codecs, search).error in
                {FetchError(SearchUrl(codecs, search)), ScryfallCardNotFound(search)}
              || FindCard(view, codecs, search).error.TooManyCards?
    ensures !(FindCard(view, codecs, search).Failure? && FindCard(view, codecs, search).error.CubeCobraCardNotFound?)
  {
  }

  /** `find_card_by(search)` through the response cache. */
  method FindCardBy(search: string, cache: ResponseCache, net: Network, codecs: Codecs) returns (r: Result<SearchResult>)
    modifies cache, net
    ensures r == FindCard(old(cache.View(net)), codecs, search)
    ensures cache.View(net) == old(cache.View(net))
    ensures FetchedOnce(old(cache.entries), old(net.requests), cache.entries, net.requests, net.responses,
                        SearchUrl(codecs, search))
    ensures CachedRun(old(cache.entries), old(net.requests), cache.entries, net.requests, net.responses,
                      {SearchUrl(codecs, search)})
  {
    ghost var entries0, requests0 := cache.entries, net.requests;
    var json := cache.FetchUrlResponse(SearchUrl(codecs, search), net);
    FetchedOnceIsRun(entries0, requests0, cache.entries, net.requests, net.responses, SearchUrl(codecs, search));
    if json.Failure? {
      return Failure(json.error);
    }
    r := Pick(codecs.parseJson(json.value), search);
  }
}
