# Cube overview: a Dafny model

This project models the core of a small Ruby program that writes the Markdown "cube
overview" page of a Magic: The Gathering cube. The page has a title, a description and
one block per themed deck. A block is a heading (mana symbols, deck title, star rating)
followed by inline card images. Each image is found in two steps. First the card name is
looked up in the cube's CSV export on Cube Cobra, which gives its set code and collector
number. Then a search on Scryfall must match exactly one printing, and that printing's `id`
goes into an image token `[[!name|id]]`. Both downloads go through a response cache that
keeps one body per URL forever. Before anything is rendered, the overview refuses a card
name that occurs more than once.

Layout, one module per part of the Ruby program:

- `Results`: the five exceptions as `Error` variants, `Result`/`Outcome`, and `Collect`, a
  Ruby `map` whose block may raise (the first failure aborts the rest).
- `StringOrder`: the order `Array#sort` gives strings (code-point lexicographic, the same
  as byte order on UTF-8), with the least-element lemma behind `validate!`'s sorted walk.
- `Text`: `Array#join`. `Markdown`: `h2`, `h3`, `hr`. `Layout`: the page header and joining
  of blocks, which both renderers share.
- `Cube`: the data (`Deck`, `CubeOverview`, `CardRecord`, `SearchResult`) and `Codecs`, the
  library routines the core calls, given as function values.
- `UrlFetcher`: the cache directory as class `ResponseCache` (a map from URL to body) and
  the web as class `Network`. The network answers each URL with a fixed body or fails, and
  logs every request. `View` is what a fetch of each URL yields: the stored body if there is
  one, otherwise the network's answer. Every fetch leaves `View` unchanged and returns
  `Remote(View, url)`. So each rendering method is proved equal to a pure specification
  function of the `View` at entry. `FetchedOnce` is the change one fetch makes to the cache
  and the request log. `CachedRun` is the change a run of fetches makes: the log grows only
  by requests for URLs not yet stored, and the cache gains exactly the bodies that came back.
  The deck and page methods state a `CachedRun` over `DeckUrls` and `PageUrls`. These are the
  URLs of the cards and decks up to and including the first one that fails (`Reached`).
- `Catalog`: class `CubeCobra` (the memoised `@cards`, `card_by_name`), the digit filter
  `gsub(/\D/, '')`, and the first-match search.
- `Scryfall`: `find_card_by` and its three count-based outcomes.
- `Decks`: the text of a deck block. `DeckRender`: `Deck#card_images` and `Deck#overview`
  with their lookups.
- `OverviewBuilder`: `validate!` and `overview`. `Draft`: the earlier renderer in
  `build.rb`.

`build.rb` defines `Markdown#h2/h3/hr` (build.rb:4-16) and `Deck#mana_symbols`
(build.rb:61-63) with the same text as `cube-cobra-description.rb`. The model defines each
once (`Markdown.H2`, `Markdown.H3`, `Markdown.Hr`, `Decks.ManaSymbols`), and `Draft` uses
those definitions.

Behaviour of the code that is easy to misread, and that the model keeps:

- `validate!` counts occurrences in the flattened card list. So a card listed twice in the
  *same* deck is rejected too, not only a card shared by two decks.
  `Cube.SharedCardIsRepeated` shows that the cross-deck case is included. The error's count
  is the number of occurrences.
- The error names the first repeated card in sorted order, that is, the least one.
- Each `Deck` creates its own `CubeCobra`, so `@cards` is memoised per deck, not once per
  run. Later decks read the CSV from the response cache.
- The collector number is normalised in place in the memoised record (`gsub!`), not as a
  separate pure step. `Catalog.NormalisedLookUp` shows this cannot change a later lookup.
  The methods state the memo after each call: `Memo` after `card_by_name`, `AfterLookUp`
  after one card, and `AfterLookUps` after the cards of a deck up to the first failure.

## Model

| member | source | states |
|---|---|---|
| Markdown.H2 | cube-cobra-description.rb:47-49 | the result is "## " followed by the argument unchanged |
| Markdown.H3 | cube-cobra-description.rb:43-45 | the result is "### " followed by the argument unchanged |
| Markdown.Hr | cube-cobra-description.rb:51-53 | the rule is exactly 30 characters, all '-' |
| Layout.Document | cube-cobra-description.rb:72-79 | the header parts and the blocks joined by "\n\n" (spelled out by DocumentShape) |
| Layout.DocumentShape | cube-cobra-description.rb:72-79 | the page is "## "+title, rule, description, "## Archetypes and inspiration", rule, then each block, all separated by "\n\n" |
| Layout.DocumentStartsWithTitle | cube-cobra-description.rb:72-73 | the page begins with "## " + title |
| Text.Join | cube-cobra-description.rb:72-79 | Array#join: the parts in order with the separator between neighbours (its shape is stated by JoinIsHeadAndSections and JoinAppend) |
| Text.JoinIsHeadAndSections | cube-cobra-description.rb:72-79 | a join is its first part followed by "sep + part" for each later part |
| Text.JoinAppend | cube-cobra-description.rb:72-79 | joining header parts followed by blocks is the header's join plus "sep + block" for each block in order |
| Results.Collect | cube-cobra-description.rb:117-127 | mapping with a block that may raise succeeds exactly when every element does, with one value per element in order |
| Results.Attempted | cube-cobra-description.rb:117-127 | how many elements a map that stops at the first raise runs its block on: all of them, or those up to and including the first failure |
| Results.AttemptedAt | cube-cobra-description.rb:117-127 | after k successes the map stops at element k if it fails, and after all elements if none does |
| Results.CollectFirstFailure | cube-cobra-description.rb:117-127 | a failed map reports the error of the first failing element, and every earlier element succeeded |
| Cube.AllCards | cube-cobra-description.rb:83 | flat_map contains every card of every deck and nothing else; no decks give no cards |
| Cube.AllCardsAppend | cube-cobra-description.rb:83 | flattening two deck lists one after the other is the first flattening followed by the second, so order and repeats are kept |
| Cube.AllCardsSingle | cube-cobra-description.rb:83 | one deck flattens to exactly its own card list, repeats included |
| Cube.SharedCardIsRepeated | cube-cobra-description.rb:83-85 | a card used by two different decks occurs at least twice in the flattened list |
| StringOrder.BelowTotal | cube-cobra-description.rb:83 | any two strings are comparable in the sort order |
| StringOrder.BelowTransitive | cube-cobra-description.rb:83 | the sort order is transitive |
| StringOrder.Below | cube-cobra-description.rb:83 | the order `sort` puts card names in: code point by code point, a proper prefix first (its order properties are the lemmas below) |
| StringOrder.LeastOf | cube-cobra-description.rb:83 | gives an element of a non-empty set that is below every element of the set |
| StringOrder.LeastExists | cube-cobra-description.rb:83 | every non-empty set of card names has a least element, so the sorted walk over the tally is defined |
| StringOrder.LeastIsUnique | cube-cobra-description.rb:83 | that least element is unique |
| OverviewBuilder.Validate | cube-cobra-description.rb:82-88 | passes exactly when no name occurs twice; otherwise raises RepeatedCard with that card's count (> 1), the least repeated card in sort order |
| OverviewBuilder.NoRepeatsIffDistinct | cube-cobra-description.rb:83-84 | "every tally count is at most 1" holds exactly when no two positions of the flattened list hold the same name |
| OverviewBuilder.DeckBlocks | cube-cobra-description.rb:78 | the decks are rendered in order, the first failing deck aborts the rest; the result equals the specification; only URLs of decks up to the first failing one are requested, and exactly the returned bodies are stored |
| OverviewBuilder.PageStopsAtFailingDeck | cube-cobra-description.rb:78 | the URLs a page can request are those of its decks up to a failing deck; later decks add none |
| OverviewBuilder.Overview | cube-cobra-description.rb:69-80 | a repeated card fails with RepeatedCard before any download (cache and request log unchanged); otherwise the result equals the page specification of the fetch view at entry, and the cache and log change as in DeckBlocks |
| OverviewBuilder.OverviewSpec | cube-cobra-description.rb:72-79 | the page of the fetch view: the shared layout over each deck's block, or the first failing deck's error; OverviewShape and OverviewFailsAtFirstFailingDeck state its outcomes |
| OverviewBuilder.OverviewShape | cube-cobra-description.rb:72-79 | a rendered page is the fixed header followed by each deck's block in deck order |
| OverviewBuilder.OverviewFailsAtFirstFailingDeck | cube-cobra-description.rb:78 | the page renders exactly when every deck does; otherwise it fails with the first failing deck's error |
| Decks.ManaSymbols | cube-cobra-description.rb:112-114 | three characters per colour letter |
| Decks.ManaSymbolAt | cube-cobra-description.rb:113 | symbol i is '{', the i-th letter, '}' |
| Decks.ManaSymbolsRoundTrip | cube-cobra-description.rb:112-114 | the letters read back from the symbols are the mana string, in order |
| Decks.Stars | cube-cobra-description.rb:107 | the rating is exactly `stars` star glyphs |
| Decks.Heading | cube-cobra-description.rb:107 | h3 of mana symbols, title and stars, separated by spaces |
| Decks.Token | cube-cobra-description.rb:126 | "[[!" + card name + a bar + id + "]]" |
| Decks.ImageStrip | cube-cobra-description.rb:129 | the tokens concatenated in order between "<<" and ">>" |
| Decks.Block | cube-cobra-description.rb:105-110 | the heading and the image strip joined by "\n" |
| Decks.BlockShape | cube-cobra-description.rb:105-110 | a block is "### " + symbols + " " + title + " " + stars, "\n", "<<" + tokens concatenated + ">>" |
| Decks.ImageStripSnoc | cube-cobra-description.rb:129 | one more card appends its token just before ">>" |
| Decks.ExampleBlock | cube-cobra-description.rb:105-130 | the block of deck "Mono" (mana "w", 2 stars) with token abc123 is the heading "### {w} Mono ⭐⭐", a line break, and the strip holding the single token for "Card A" and abc123 |
| Catalog.KeepDigits | cube-cobra-description.rb:122 | the normalised number is no longer than the raw one and holds only digits |
| Catalog.KeepDigitsCounts | cube-cobra-description.rb:122 | every digit keeps its number of occurrences; every other character is removed |
| Catalog.KeepDigitsAppend | cube-cobra-description.rb:122 | normalisation works piecewise and keeps order |
| Catalog.KeepDigitsOfDigits | cube-cobra-description.rb:122 | an all-digit number is left unchanged |
| Catalog.KeepDigitsOfNonDigits | cube-cobra-description.rb:122 | a number with no digit, such as a set-code prefix, becomes empty |
| Catalog.KeepDigitsIdempotent | cube-cobra-description.rb:122 | normalising twice is normalising once |
| Catalog.KeepDigitsExamples | cube-cobra-description.rb:122 | "XLN-1" becomes "1", "XYZ-7" becomes "7", "42" stays "42" |
| Catalog.FirstByName | cube-cobra-description.rb:139 | finds the first record whose name equals the query (all earlier ones differ); none exactly when no record matches |
| Catalog.LookUp | cube-cobra-description.rb:138-142 | success is the first exact match of the downloaded list; CardNotFound exactly when the download worked and no record matches |
| Catalog.NormalisedLookUp | cube-cobra-description.rb:118-122 | records normalised in place give the same lookups and the same normalised numbers |
| Catalog.CatalogCards | cube-cobra-description.rb:144-150 | the parsed download exactly when the catalog URL fetches; otherwise a fetch error naming that URL |
| Catalog.CubeCobra.Cards | cube-cobra-description.rb:144-150 | a memoised list is returned with no fetch and no cache change; otherwise the catalog URL is fetched through the cache (a stored body: no request; else one request, and a returned body is stored under that URL), parsed and memoised, and a failed download memoises nothing |
| Catalog.CubeCobra.CardByName | cube-cobra-description.rb:138-142 | equals LookUp of the fetch view at entry; with a memoised list nothing is fetched, otherwise the catalog URL is fetched once through the cache as in Cards; `@cards` becomes Memo: kept when set, else the parsed list when the download worked |
| Catalog.Memo | cube-cobra-description.rb:144-146 | `@cards` after a call to `cards`: a set memo is kept; otherwise the parsed download, or nothing when the download fails (defines the state CardByName ensures) |
| Catalog.NormaliseAt | cube-cobra-description.rb:122 | the list with the one record's collector number replaced by its digits (defines the state NormaliseCollectorNumber ensures) |
| Catalog.AfterLookUp | cube-cobra-description.rb:117-122 | `@cards` after one card's lookup: the memo, with the found record normalised in place (defines the state CardImage ensures) |
| Catalog.AfterLookUps | cube-cobra-description.rb:117-127 | `@cards` after the lookups of several cards, one after another (defines the state CardImages ensures) |
| Catalog.AfterLookUpsStep | cube-cobra-description.rb:117-127 | the state after one more card is AfterLookUp of the state after the cards before it |
| Catalog.CubeCobra.NormaliseCollectorNumber | cube-cobra-description.rb:121-122 | the record's collector number is replaced by its digits, and nothing else changes |
| Scryfall.Pick | cube-cobra-description.rb:167-173 | exactly one result returns it; more than one raises TooManyCards with the count; none raises CardNotFound |
| Scryfall.FindCard | cube-cobra-description.rb:163-174 | succeeds exactly when the search URL fetches and its results hold one card, which it returns; an unfetchable URL gives a fetch error naming it |
| Scryfall.FindCardOutcomes | cube-cobra-description.rb:163-174 | a search fails only by download error, no match or too many matches |
| Scryfall.SearchUrl | cube-cobra-description.rb:164 | the Scryfall search endpoint followed by the escaped search |
| Scryfall.FindCardBy | cube-cobra-description.rb:163-174 | applies Pick to the parsed results of the escaped search URL, fetched through the cache: a stored body makes no request; otherwise one request, and a returned body is stored under that URL |
| DeckRender.CardImageSpec | cube-cobra-description.rb:117-127 | one card's token in terms of the fetch view: lookup, search, token; the lemmas CardImageIsToken and FindCardOutcomes state its outcomes |
| DeckRender.CardImagesSpec | cube-cobra-description.rb:116-130 | the tokens in card order inside "<<" and ">>", or the first card's failure; DeckRendersIffCardsDo and DeckFailsAtFirstFailingCard state its outcomes |
| DeckRender.DeckOverviewSpec | cube-cobra-description.rb:105-110 | the heading and the card strip joined by "\n", or the strip's failure; DeckBlockShape states its text |
| DeckRender.Query | cube-cobra-description.rb:124 | the search "!" + inspect(name) + " s:" + set + " cn:" + the collector number's digits |
| DeckRender.CardImage | cube-cobra-description.rb:117-127 | for one card: lookup, gsub! of its collector number, search for "!"+inspect(name)+" s:"+set+" cn:"+digits, then the token; a card missing from the cube makes no search request; the cache changes as a run over the card's URLs (CardUrls); `@cards` becomes AfterLookUp of the memo at entry, so the found record's collector number is rewritten in place |
| DeckRender.TokensStep | cube-cobra-description.rb:117-127 | one more card of the map extends the run, the lookups and the collected tokens of the cards before it; a failing card ends the deck there |
| DeckRender.CardTokens | cube-cobra-description.rb:117-127 | the per-card results collected in order, stopping at the first failure; the cache changes as a run over DeckUrls; `@cards` becomes AfterLookUps over the cards up to and including the first failing one (Attempted) |
| DeckRender.CardImages | cube-cobra-description.rb:116-130 | the tokens in card order inside "<<…>>"; the first failing card aborts the deck; only URLs of cards up to the first failing one are requested, none of them already stored, and exactly the returned bodies are stored; `@cards` is AfterLookUps over the cards up to and including the first failing one |
| DeckRender.DeckStopsAtFailingCard | cube-cobra-description.rb:116-127 | the URLs a deck can request are those of its cards up to a failing card; later cards add none |
| DeckRender.DeckOverview | cube-cobra-description.rb:105-110 | the deck's block with a fresh Cube Cobra client, equal to the specification of the fetch view at entry; the cache and log change as in CardImages |
| DeckRender.DeckRendersIffCardsDo | cube-cobra-description.rb:116-130 | a deck renders exactly when each of its cards does |
| DeckRender.DeckBlockShape | cube-cobra-description.rb:105-130 | a rendered deck is the heading, "\n", and "<<" + each card's token in card order + ">>" |
| DeckRender.DeckFailsAtFirstFailingCard | cube-cobra-description.rb:117-118 | a failed deck carries the error of its first failing card |
| DeckRender.CardImageIsToken | cube-cobra-description.rb:118-126 | a card's token is "[[!", the name, a bar, the id, "]]", with the id of the single printing the search found |
| DeckRender.ExampleDeck | cube-cobra-description.rb:105-130 | catalog row ("Card A", XYZ, "XYZ-7") and a search reply with id abc123 give the heading "### {w} Mono ⭐⭐", a line break, and the strip holding the token for "Card A" and abc123 |
| DeckRender.ExampleMissingCard | cube-cobra-description.rb:138-142 | with no such row the deck fails with CardNotFound naming "Card A" |
| UrlFetcher.Network.Get | cube-cobra-description.rb:17 | the request is logged, and the answer is the server's body for that URL or a fetch error |
| UrlFetcher.Remote | cube-cobra-description.rb:14-19 | a fetch yields the known body of the URL when there is one, and otherwise fails naming the URL |
| UrlFetcher.FetchedOnceIsRun | cube-cobra-description.rb:13-21 | one fetch is a run that requests at most its own URL |
| UrlFetcher.CachedRunThen | cube-cobra-description.rb:13-21 | two runs one after the other are one run over both URL sets: nothing stored is requested again, and each returned body stays stored |
| UrlFetcher.ResponseCache.View | cube-cobra-description.rb:13-21 | what fetching each URL yields: the stored body where there is one (`cached?`, `read_cache`), otherwise the network's answer (defines the state every fetch preserves) |
| UrlFetcher.ResponseCache.FetchUrlResponse | cube-cobra-description.rb:13-21 | a hit returns the stored body with no request and no change; a miss makes one request, stores a returned body under that URL only, and returns it; a failure stores nothing (FetchedOnce) |
| UrlFetcher.CoherentCacheIsTransparent | cube-cobra-description.rb:14-19 | when every stored body is what the server sends, fetching through the cache yields the server's answers |
| UrlFetcher.FetchTwice | cube-cobra-description.rb:13-21 | two fetches of one URL return the same result, and after a success at most one request was made |
| Draft.CardImages | build.rb:65-67 | the image placeholder "TODO" |
| Draft.DeckOverview | build.rb:53-59 | the heading with the title first, the stars and the placeholder joined by "\n\n" (spelled out by DeckOverviewShape) |
| Draft.Overview | build.rb:29-38 | the shared page layout over the draft blocks (spelled out by OverviewShape) |
| Draft.DeckOverviews | build.rb:36 | one block per deck, in deck order |
| Draft.DeckOverviewShape | build.rb:53-59 | a draft block is "### " + title + " " + mana symbols, "\n\n", the stars, "\n\n", "TODO" |
| Draft.StarLine | build.rb:56 | the star line between the blank lines holds exactly `stars` star glyphs and nothing else |
| Draft.CardImagesIgnoresDeck | build.rb:65-67 | the image placeholder is "TODO" whatever the deck |
| Draft.OverviewShape | build.rb:29-38 | the draft page is the same header followed by the draft blocks, with no validation step |

## Left out

- Network and file I/O: `URI.open` is the `Network` oracle, and the `.cache` directory is the `entries` map. An HTTP error and a network error are both one `FetchError`. Timeouts and partial writes are not modelled.
- The SHA-512 file name of a cache entry: entries are keyed by the URL itself, which is what an injective hash gives.
- `CSV.parse(..., headers: true).map(&:to_h)`, `JSON.parse(...)[:data]`, `CGI.escape` and `String#inspect` are opaque functions in `Codecs`. A malformed CSV or JSON body, or a record without a `name`, `Set`, `Collector Number` or `id` field (a `nil` in Ruby), is not modelled. Parsing is treated as total.
- Error message text: each error carries the card name, search, URL or count its message interpolates, not the message string.
- The hard-coded title, description and deck tables, the `puts` of the page, and `require 'debug'`.
- The exact width and encoding of '⭐': it is one character, U+2B50.
- DeckRender.DeckOverview: Ruby allocates the deck's `CubeCobra` and `Scryfall` clients in `Deck.new`; the model allocates the Cube Cobra client when the deck renders. The deck renders once, so the behaviour is the same. `Scryfall` holds no state, so it is not an object in the model.
- Catalog.CubeCobra.CardByName: gives the record's position in `@cards` rather than the record object. The caller normalises that record in place through `NormaliseCollectorNumber`.
- UrlFetcher.Network: the server gives each URL one fixed answer for the whole run. This is what makes `FetchTwice` return equal results after a failed first fetch. Within one rendering a URL reaches the server at most once: after a success the cache holds its body, and a failure ends the rendering. So the fixed answer does not hide a second, different reply.
