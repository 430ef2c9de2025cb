/** `Deck#overview` and `Deck#card_images`: each card name is looked up in the cube's
    card list, its printing is searched for on Scryfall, and the result's identifier
    becomes an image token. The first failure aborts the whole deck. */
module DeckRender {
  import opened Results
  import opened Cube
  import opened Text
  import opened Decks
  import opened UrlFetcher
  import opened Catalog
  import opened Scryfall

  /** `"!#{card_name.inspect} s:#{set} cn:#{collector_number}"`, with the collector
      number already normalised. */
  function Query(codecs: Codecs, name: string, record: CardRecord): string
  {
    "!" + codecs.inspect(name) + " s:" + record.setCode + " cn:" + KeepDigits(record.collectorNumber)
  }

  /** The image token of one card when every URL fetches as in `view`. */
  function CardImageSpec(view: map<string, string>, codecs: Codecs, name: string): Result<string>
  {
    match LookUp(view, codecs, name)
    case Failure(e) => Failure(e)
    case Success(i) =>
      var record := CatalogCards(view, codecs).value[i];
      match FindCard(view, codecs, Query(codecs, name, record))
      case Failure(e) => Failure(e)
      case Success(card) => Success(Token(name, card.id))
  }

  /** The outcome for each card, in card order. */
  function CardImageResults(view: map<string, string>, codecs: Codecs, names: seq<string>): (rs: seq<Result<string>>)
    ensures |rs| == |names| && forall i :: 0 <= i < |names| ==> rs[i] == CardImageSpec(view, codecs, names[i])
  {
    seq(|names|, i requires 0 <= i < |names| => CardImageSpec(view, codecs, names[i]))
  }

  /** `card_images` when every URL fetches as in `view`. */
  function CardImagesSpec(view: map<string, string>, codecs: Codecs, names: seq<string>): Result<string>
  {
    match Collect(CardImageResults(view, codecs, names))
    case Failure(e) => Failure(e)
    case Success(tokens) => Success(ImageStrip(tokens))
  }

  /** `Deck#overview` when every URL fetches as in `view`. */
  function DeckOverviewSpec(view: map<string, string>, codecs: Codecs, d: Deck): Result<string>
  {
    match CardImagesSpec(view, codecs, d.cards)
    case Failure(e) => Failure(e)
    case Success(images) => Success(Block(d, images))
  }

  /** The URLs one card's lookup can ask the network for: the catalog and, once the
      card is found, its search. */
  function CardUrls(view: map<string, string>, codecs: Codecs, name: string): (r: set<string>)
    ensures CatalogUrl in r
  {
    match LookUp(view, codecs, name)
    case Failure(_) => {CatalogUrl}
    case Success(i) => {CatalogUrl, SearchUrl(codecs, Query(codecs, name, CatalogCards(view, codecs).value[i]))}
  }

  /** The URLs of each card, in card order. */
  function CardUrlList(view: map<string, string>, codecs: Codecs, names: seq<string>): (us: seq<set<string>>)
    ensures |us| == |names| && forall i :: 0 <= i < |names| ==> us[i] == CardUrls(view, codecs, names[i])
  {
    seq(|names|, i requires 0 <= i < |names| => CardUrls(view, codecs, names[i]))
  }

  /** The URLs a deck's rendering can ask for: those of its cards up to the first one
      that fails. */
  function DeckUrls(view: map<string, string>, codecs: Codecs, names: seq<string>): set<string>
  {
    Reached(CardImageResults(view, codecs, names), CardUrlList(view, codecs, names))
  }

  /** No card after the first failing one is looked up or searched for. */
  lemma DeckStopsAtFailingCard(view: map<string, string>, codecs: Codecs, names: seq<string>, k: nat)
    requires k < |names| && CardImageSpec(view, codecs, names[k]).Failure?
    ensures DeckUrls(view, codecs, names) == DeckUrls(view, codecs, names[..k + 1])
  {
    var rs, us := CardImageResults(view, codecs, names), CardUrlList(view, codecs, names);
    ReachedStopsAtFailure(rs, us, k);
    assert rs[..k + 1] == CardImageResults(view, codecs, names[..k + 1]);
    assert us[..k + 1] == CardUrlList(view, codecs, names[..k + 1]);
  }

  /** A found card's token names the card and the identifier Scryfall gave its printing. */
  lemma CardImageIsToken(view: map<string, string>, codecs: Codecs, name: string)
    requires CardImageSpec(view, codecs, name).Success?
    ensures exists record, card ::
              && CatalogCards(view, codecs) == Success(record)
              && FirstByName(record, name).Some?
              && FindCard(view, codecs, Query(codecs, name, record[FirstByName(record, name).value])) == Success(card)
              && CardImageSpec(view, codecs, name) == Success(Token(name, card.id))
  {
    var records := CatalogCards(view, codecs).value;
    var i := LookUp(view, codecs, name).value;
    var card := FindCard(view, codecs, Query(codecs, name, records[i])).value;
    assert CardImageSpec(view, codecs, name) == Success(Token(name, card.id));
  }

  /** A deck renders exactly when each of its cards does. */
  lemma DeckRendersIffCardsDo(view: map<string, string>, codecs: Codecs, d: Deck)
    ensures DeckOverviewSpec(view, codecs, d).Success? <==>
              forall i :: 0 <= i < |d.cards| ==> CardImageSpec(view, codecs, d.cards[i]).Success?
  {
    var rs := CardImageResults(view, codecs, d.cards);
    assert Collect(rs).Success? <==> forall i :: 0 <= i < |rs| ==> rs[i].Success?;
  }

  /** A rendered deck is the heading, a line break and the tokens in card order. */
  lemma DeckBlockShape(view: map<string, string>, codecs: Codecs, d: Deck)
    requires DeckOverviewSpec(view, codecs, d).Success?
    ensures exists tokens: seq<string> ::
              && |tokens| == |d.cards|
              && (forall i :: 0 <= i < |d.cards| ==> CardImageSpec(view, codecs, d.cards[i]) == Success(tokens[i]))
              && DeckOverviewSpec(view, codecs, d).value
                 == "### " + ManaSymbols(d.mana) + " " + d.title + " " + Stars(d.stars)
                    + "\n" + "<<" + Join(tokens, "") + ">>"
  {
    var rs := CardImageResults(view, codecs, d.cards);
    var tokens := Collect(rs).value;
    BlockShape(d, tokens);
    assert DeckOverviewSpec(view, codecs, d).value == Block(d, ImageStrip(tokens));
  }

  /** A deck that fails reports the error of its first card that fails. */
  lemma DeckFailsAtFirstFailingCard(view: map<string, string>, codecs: Codecs, d: Deck)
    requires DeckOverviewSpec(view, codecs, d).Failure?
    ensures exists k :: 0 <= k < |d.cards|
              && CardImageSpec(view, codecs, d.cards[k]) == Failure(DeckOverviewSpec(view, codecs, d).error)
              && forall j :: 0 <= j < k ==> CardImageSpec(view, codecs, d.cards[j]).Success?
  {
    var rs := CardImageResults(view, codecs, d.cards);
    assert Collect(rs).Failure? && Collect(rs).error == DeckOverviewSpec(view, codecs, d).error;
    CollectFirstFailure(rs);
  }

  /** The catalog download followed by the card's search is a run over the card's URLs. */
  lemma CardRun(view: map<string, string>, codecs: Codecs, name: string, search: string,
                entries0: map<string, string>, requests0: seq<string>,
                entries1: map<string, string>, requests1: seq<string>,
                entries2: map<string, string>, requests2: seq<string>, responses: map<string, string>)
    requires LookUp(view, codecs, name).Success?
    requires search == Query(codecs, name, CatalogCards(view, codecs).value[LookUp(view, codecs, name).value])
    requires CachedRun(entries0, requests0, entries1, requests1, responses, {CatalogUrl})
    requires CachedRun(entries1, requests1, entries2, requests2, responses, {SearchUrl(codecs, search)})
    ensures CachedRun(entries0, requests0, entries2, requests2, responses, CardUrls(view, codecs, name))
  {
    CachedRunThen(entries0, requests0, entries1, requests1, entries2, requests2, responses,
                  {CatalogUrl}, {SearchUrl(codecs, search)});
    assert {CatalogUrl} + {SearchUrl(codecs, search)} == CardUrls(view, codecs, name);
  }

  /** The block mapped from one card name (the body of `cards.map`). */
  method CardImage(name: string, cube: CubeCobra, cache: ResponseCache, net: Network, codecs: Codecs)
    returns (r: Result<string>)
    requires cube.Valid(cache.View(net), codecs)
    modifies cube, cache, net
    ensures cache.View(net) == old(cache.View(net)) && cube.Valid(cache.View(net), codecs)
    ensures r == CardImageSpec(old(cache.View(net)), codecs, name)
    ensures r == Failure(CubeCobraCardNotFound(name)) ==>
              net.requests == old(net.requests) || net.requests == old(net.requests) + [CatalogUrl]
    ensures CachedRun(old(cache.entries), old(net.requests), cache.entries, net.requests, net.responses,
                      CardUrls(old(cache.View(net)), codecs, name))
    ensures cube.cards == AfterLookUp(old(cube.cards), old(cache.View(net)), codecs, name)
  {
    ghost var view := cache.View(net);
    ghost var entries0, requests0 := cache.entries, net.requests;
    var found := cube.CardByName(name, cache, net, codecs);
    if found.Failure? {
      return Failure(found.error);
    }
    ghost var entries1, requests1 := cache.entries, net.requests;
    var i := found.value;
    var record := cube.cards.value[i];
    ghost var loaded := cube.cards.value;
    cube.NormaliseCollectorNumber(i, view, codecs);
    var collectorNumber := cube.cards.value[i].collectorNumber;
    var search := "!" + codecs.inspect(name) + " s:" + record.setCode + " cn:" + collectorNumber;
    assert search == Query(codecs, name, CatalogCards(view, codecs).value[i]) by {
      NormalisedLookUp(loaded, codecs.parseCsv(view[CatalogUrl]), name);
    }
    var card := FindCardBy(search, cache, net, codecs);
    CardRun(view, codecs, name, search, entries0, requests0, entries1, requests1, cache.entries, net.requests,
            net.responses);
    if card.Failure? {
      FindCardOutcomes(view, codecs, search);
      return Failure(card.error);
    }
    r := Success(Token(name, card.value.id));
  }

  /** One more card of `cards.map`, after `k` that all render: its run and its lookups
      extend those of the cards before it, and if it fails the rendering stops there. */
  lemma TokensStep(view: map<string, string>, codecs: Codecs, names: seq<string>, k: nat,
                   memo0: Option<seq<CardRecord>>, cards1: Option<seq<CardRecord>>, cards2: Option<seq<CardRecord>>,
                   entries0: map<string, string>, requests0: seq<string>,
                   entries1: map<string, string>, requests1: seq<string>,
                   entries2: map<string, string>, requests2: seq<string>, responses: map<string, string>)
    requires k < |names| && Collect(CardImageResults(view, codecs, names)[..k]).Success?
    requires CachedRun(entries0, requests0, entries1, requests1, responses,
                       Reached(CardImageResults(view, codecs, names)[..k], CardUrlList(view, codecs, names)[..k]))
    requires CachedRun(entries1, requests1, entries2, requests2, responses, CardUrls(view, codecs, names[k]))
    requires cards1 == AfterLookUps(memo0, view, codecs, names[..k])
    requires cards2 == AfterLookUp(cards1, view, codecs, names[k])
    ensures CachedRun(entries0, requests0, entries2, requests2, responses,
                      Reached(CardImageResults(view, codecs, names)[..k + 1], CardUrlList(view, codecs, names)[..k + 1]))
    ensures cards2 == AfterLookUps(memo0, view, codecs, names[..k + 1])
    ensures CardImageSpec(view, codecs, names[k]).Success? ==>
              Collect(CardImageResults(view, codecs, names)[..k + 1])
              == Success(Collect(CardImageResults(view, codecs, names)[..k]).value + [CardImageSpec(view, codecs, names[k]).value])
    ensures CardImageSpec(view, codecs, names[k]).Failure? ==>
              && Collect(CardImageResults(view, codecs, names)) == Failure(CardImageSpec(view, codecs, names[k]).error)
              && CachedRun(entries0, requests0, entries2, requests2, responses, DeckUrls(view, codecs, names))
              && Attempted(CardImageResults(view, codecs, names)) == k + 1
  {
    var rs, us := CardImageResults(view, codecs, names), CardUrlList(view, codecs, names);
    AfterLookUpsStep(memo0, view, codecs, names, k);
    CachedRunStep(entries0, requests0, entries1, requests1, entries2, requests2, responses, rs, us, k);
    CollectStep(rs, k);
    if rs[k].Failure? {
      AttemptedAt(rs, k);
    }
  }

  /** `images = cards.map do ... end`: the cards in order, the first failure aborting
      the rest. */
  method CardTokens(names: seq<string>, cube: CubeCobra, cache: ResponseCache, net: Network, codecs: Codecs)
    returns (r: Result<seq<string>>)
    requires cube.Valid(cache.View(net), codecs)
    modifies cube, cache, net
    ensures cache.View(net) == old(cache.View(net)) && cube.Valid(cache.View(net), codecs)
    ensures r == Collect(CardImageResults(old(cache.View(net)), codecs, names))
    ensures CachedRun(old(cache.entries), old(net.requests), cache.entries, net.requests, net.responses,
                      DeckUrls(old(cache.View(net)), codecs, names))
    ensures cube.cards == AfterLookUps(old(cube.cards), old(cache.View(net)), codecs,
                                       names[..Attempted(CardImageResults(old(cache.View(net)), codecs, names))])
  {
    ghost var view := cache.View(net);
    ghost var all, urls := CardImageResults(view, codecs, names), CardUrlList(view, codecs, names);
    ghost var entries0, requests0 := cache.entries, net.requests;
    ghost var memo0 := cube.cards;
    CachedRunNone(entries0, requests0, net.responses);
    var tokens: seq<string> := [];
    var k := 0;
    while k < |names|
      invariant 0 <= k <= |names|
      invariant cache.View(net) == view && cube.Valid(view, codecs)
      invariant Collect(all[..k]) == Success(tokens)
      invariant CachedRun(entries0, requests0, cache.entries, net.requests, net.responses, Reached(all[..k], urls[..k]))
      invariant cube.cards == AfterLookUps(memo0, view, codecs, names[..k])
    {
      ghost var entries1, requests1, cards1 := cache.entries, net.requests, cube.cards;
      var t := CardImage(names[k], cube, cache, net, codecs);
      TokensStep(view, codecs, names, k, memo0, cards1, cube.cards, entries0, requests0, entries1, requests1,
                 cache.entries, net.requests, net.responses);
      if t.Failure? {
        return Failure(t.error);
      }
      tokens := tokens + [t.value];
      k := k + 1;
    }
    assert all[..k] == all && urls[..k] == urls;
    AttemptedAt(all, k);
    r := Success(tokens);
  }

  /** `card_images`: the tokens of the cards inside "<<" and ">>". */
  method CardImages(names: seq<string>, cube: CubeCobra, cache: ResponseCache, net: Network, codecs: Codecs)
    returns (r: Result<string>)
    requires cube.Valid(cache.View(net), codecs)
    modifies cube, cache, net
    ensures cache.View(net) == old(cache.View(net)) && cube.Valid(cache.View(net), codecs)
    ensures r == CardImagesSpec(old(cache.View(net)), codecs, names)
    ensures CachedRun(old(cache.entries), old(net.requests), cache.entries, net.requests, net.responses,
                      DeckUrls(old(cache.View(net)), codecs, names))
    ensures cube.cards == AfterLookUps(old(cube.cards), old(cache.View(net)), codecs,
                                       names[..Attempted(CardImageResults(old(cache.View(net)), codecs, names))])
  {
    var images := CardTokens(names, cube, cache, net, codecs);
    if images.Failure? {
      return Failure(images.error);
    }
    r := Success(ImageStrip(images.value));
  }

  /** `Deck#overview`, with the deck's own Cube Cobra client. */
  method DeckOverview(d: Deck, cache: ResponseCache, net: Network, codecs: Codecs) returns (r: Result<string>)
    modifies cache, net
    ensures cache.View(net) == old(cache.View(net))
    ensures r == DeckOverviewSpec(old(cache.View(net)), codecs, d)
    ensures CachedRun(old(cache.entries), old(net.requests), cache.entries, net.requests, net.responses,
                      DeckUrls(old(cache.View(net)), codecs, d.cards))
  {
    var cube := new CubeCobra();
    var images := CardImages(d.cards, cube, cache, net, codecs);
    if images.Failure? {
      return Failure(images.error);
    }
    r := Success(Block(d, images.value));
  }

  /** A catalog with one row for "Card A" (set XYZ, collector number "XYZ-7"), a search
      that answers with one printing whose identifier is "abc123", and `inspect` quoting
      its argument. */
  function ExampleCodecs(catalog: seq<CardRecord>): Codecs
  {
    Codecs(_ => catalog, _ => [SearchResult("abc123")], s => s, s => "\"" + s + "\"")
  }

  const ExampleRow := CardRecord("Card A", "XYZ", "XYZ-7")
  const ExampleSearch := "!" + "\"Card A\"" + " s:" + "XYZ" + " cn:" + "7"

  function ExampleView(): map<string, string>
  {
    map[CatalogUrl := "csv", SearchEndpoint + ExampleSearch := "json"]
  }

  /** The search built for "Card A" from its catalog row. */
  lemma ExampleQuery()
    ensures Query(ExampleCodecs([ExampleRow]), "Card A", ExampleRow) == ExampleSearch
  {
    var codecs := ExampleCodecs([ExampleRow]);
    KeepDigitsExamples();
    assert codecs.inspect("Card A") == "\"Card A\"";
    assert Query(codecs, "Card A", ExampleRow) == "!" + "\"Card A\"" + " s:" + "XYZ" + " cn:" + "7";
  }

  /** That search finds the printing abc123. */
  lemma ExampleFind()
    ensures FindCard(ExampleView(), ExampleCodecs([ExampleRow]), ExampleSearch) == Success(SearchResult("abc123"))
  {
    var codecs := ExampleCodecs([ExampleRow]);
    assert SearchUrl(codecs, ExampleSearch) == SearchEndpoint + ExampleSearch;
    assert Remote(ExampleView(), SearchEndpoint + ExampleSearch) == Success("json");
  }

  /** "Card A" becomes the token for abc123. */
  lemma ExampleCardImage()
    ensures CardImageSpec(ExampleView(), ExampleCodecs([ExampleRow]), "Card A") == Success(Token("Card A", "abc123"))
  {
    var codecs, view := ExampleCodecs([ExampleRow]), ExampleView();
    assert CatalogCards(view, codecs) == Success([ExampleRow]) by {
      assert Remote(view, CatalogUrl) == Success("csv");
    }
    assert LookUp(view, codecs, "Card A") == Success(0);
    ExampleQuery();
    ExampleFind();
  }

  /** The one-card deck of that catalog renders as its heading and one image token. */
  lemma ExampleDeck()
    ensures DeckOverviewSpec(ExampleView(), ExampleCodecs([ExampleRow]), Deck("Mono", "w", 2, ["Card A"]))
         == Success("### {w} Mono \U{2B50}\U{2B50}" + "\n" + "<<[[!Card A|abc123]]>>")
  {
    var codecs, view := ExampleCodecs([ExampleRow]), ExampleView();
    var t := Token("Card A", "abc123");
    ExampleCardImage();
    var rs := CardImageResults(view, codecs, ["Card A"]);
    assert rs == [Success(t)];
    CollectSingle(Success(t));
    ExampleBlock();
  }

  /** With no row for "Card A", the deck fails naming the card. */
  lemma ExampleMissingCard()
    ensures DeckOverviewSpec(ExampleView(), ExampleCodecs([]), Deck("Mono", "w", 2, ["Card A"]))
         == Failure(CubeCobraCardNotFound("Card A"))
  {
    var codecs, view := ExampleCodecs([]), ExampleView();
    assert CardImageSpec(view, codecs, "Card A") == Failure(CubeCobraCardNotFound("Card A"));
    var rs := CardImageResults(view, codecs, ["Card A"]);
    assert rs == [Failure(CubeCobraCardNotFound("Card A"))];
  }
}
