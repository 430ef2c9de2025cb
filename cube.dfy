/** The data the overview is built from, and the library routines the core calls but
    does not define, given as function values. */
module Cube {

  /** A row of the Cube Cobra CSV export: the three columns the core reads. */
  datatype CardRecord = CardRecord(name: string, setCode: string, collectorNumber: string)

  /** An entry of a Scryfall search response: the image identifier the core embeds. */
  datatype SearchResult = SearchResult(id: string)

  /** `Deck.new(title:, mana:, stars:, cards:)`. Ruby's `'⭐' * stars` raises on a
      negative count, so the rating is a natural number. */
  datatype Deck = Deck(title: string, mana: string, stars: nat, cards: seq<string>)

  /** `OverviewBuilder.new(title:, description:, decks:)`. */
  datatype CubeOverview = CubeOverview(title: string, description: string, decks: seq<Deck>)

  /** The library routines: `CSV.parse(...).map(&:to_h)`, `JSON.parse(...)[:data]`,
      `CGI.escape` and `String#inspect`. */
  datatype Codecs = Codecs(
    parseCsv: string -> seq<CardRecord>,
    parseJson: string -> seq<SearchResult>,
    escape: string -> string,
    inspect: string -> string)

  /** `decks.flat_map(&:cards)`: every deck's card names, deck after deck. */
  function AllCards(decks: seq<Deck>): (r: seq<string>)
    ensures decks == [] ==> r == []
    ensures forall i, j :: 0 <= i < |decks| && 0 <= j < |decks[i].cards| ==> decks[i].cards[j] in r
    ensures forall c :: c in r ==> exists i :: 0 <= i < |decks| && c in decks[i].cards
  {
    if decks == [] then []
    else
      var rest := AllCards(decks[1..]);
      assert forall c :: c in rest ==> exists i :: 1 <= i < |decks| && c in decks[i].cards by {
        forall c | c in rest ensures exists i :: 1 <= i < |decks| && c in decks[i].cards {
          var i :| 0 <= i < |decks[1..]| && c in decks[1..][i].cards;
          assert decks[i + 1] == decks[1..][i];
        }
      }
      decks[0].cards + rest
  }

  /** Flattening a concatenation of deck lists concatenates their flattenings. */
  lemma {:induction false} AllCardsAppend(a: seq<Deck>, b: seq<Deck>)
    ensures AllCards(a + b) == AllCards(a) + AllCards(b)
  {
    if a == [] {
      assert a + b == b;
    } else {
      assert (a + b)[0] == a[0] && (a + b)[1..] == a[1..] + b;
      AllCardsAppend(a[1..], b);
    }
  }

  /** A single deck flattens to its own card list, duplicates and order included. */
  lemma AllCardsSingle(d: Deck)
    ensures AllCards([d]) == d.cards
  {
    assert [d][1..] == [];
  }

  /** A card that two different decks use occurs at least twice in the flattened list. */
  lemma {:induction false} SharedCardIsRepeated(decks: seq<Deck>, i: nat, j: nat, c: string)
    requires i < j < |decks| && c in decks[i].cards && c in decks[j].cards
    ensures multiset(AllCards(decks))[c] >= 2
  {
    assert AllCards(decks) == decks[0].cards + AllCards(decks[1..]);
    assert decks[j] == decks[1..][j - 1];
    if i == 0 {
      var k :| 0 <= k < |decks[j].cards| && decks[j].cards[k] == c;
      assert c in AllCards(decks[1..]);
    } else {
      assert decks[i] == decks[1..][i - 1];
      SharedCardIsRepeated(decks[1..], i - 1, j - 1, c);
    }
  }
}
