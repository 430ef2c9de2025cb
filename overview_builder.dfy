/** `OverviewBuilder`: checks that no card is used twice, then renders the page. */
module OverviewBuilder {
  import opened Results
  import opened Cube
  import opened Text
  import opened Markdown
  import opened Layout
  import opened StringOrder
  import opened UrlFetcher
  import opened DeckRender

  /** No card name occurs more than once among `cards`. */
  predicate NoRepeats(cards: seq<string>)
  {
    forall c :: c in cards ==> multiset(cards)[c] <= 1
  }

  /** `validate!`: `decks.flat_map(&:cards).sort.tally.each`, raising on the first card
      (in sorted order) counted more than once. The sorted walk over the tally takes the
      least remaining distinct card at each step. */
  method Validate(decks: seq<Deck>) returns (r: Outcome)
    ensures r.Pass? <==> NoRepeats(AllCards(decks))
    ensures r.Fail? ==>
              && r.error.RepeatedCard?
              && r.error.count == multiset(AllCards(decks))[r.error.card] > 1
              && forall c :: multiset(AllCards(decks))[c] > 1 ==> Below(r.error.card, c)
  {
    var cards := AllCards(decks);
    var tally := multiset(cards);
    var names := set c | c in cards;
    var pending := names;
    while pending != {}
      invariant pending <= names
      invariant forall c :: c in names && c !in pending ==> tally[c] <= 1
      decreases |pending|
    {
      LeastExists(pending);
      var card :| card in pending && forall c :: c in pending ==> Below(card, c);
      if tally[card] > 1 {
        return Fail(RepeatedCard(card, tally[card]));
      }
      pending := pending - {card};
    }
    r := Pass;
  }

  /** Counting and pairwise comparison agree: no count above one exactly when no two
      positions hold the same name. */
  lemma {:induction false} NoRepeatsIffDistinct(cards: seq<string>)
    ensures NoRepeats(cards) <==> forall i, j :: 0 <= i < j < |cards| ==> cards[i] != cards[j]
  {
    if cards != [] {
      var rest := cards[1..];
      assert cards == [cards[0]] + rest;
      NoRepeatsIffDistinct(rest);
      if NoRepeats(cards) {
        forall c ensures multiset(rest)[c] <= 1 {
          assert multiset(cards)[c] == multiset(rest)[c] + (if c == cards[0] then 1 else 0);
        }
        assert cards[0] !in rest by {
          assert multiset(cards)[cards[0]] == multiset(rest)[cards[0]] + 1;
        }
        forall i, j | 0 <= i < j < |cards| ensures cards[i] != cards[j] {
          if i == 0 {
            assert cards[j] == rest[j - 1];
          } else {
            assert cards[i] == rest[i - 1] && cards[j] == rest[j - 1];
          }
        }
      } else {
        var c :| multiset(cards)[c] > 1;
        if c == cards[0] && multiset(rest)[c] >= 1 {
          var j :| 0 <= j < |rest| && rest[j] == c;
          assert cards[0] == cards[j + 1];
        } else {
          assert multiset(rest)[c] > 1;
          var i, j :| 0 <= i < j < |rest| && rest[i] == rest[j];
          assert cards[i + 1] == cards[j + 1];
        }
      }
    }
  }

  /** The rendered block of each deck, in deck order. */
  function DeckResults(view: map<string, string>, codecs: Codecs, decks: seq<Deck>): (rs: seq<Result<string>>)
    ensures |rs| == |decks| && forall i :: 0 <= i < |decks| ==> rs[i] == DeckOverviewSpec(view, codecs, decks[i])
  {
    seq(|decks|, i requires 0 <= i < |decks| => DeckOverviewSpec(view, codecs, decks[i]))
  }

  /** The page of a validated overview when every URL fetches as in `view`. */
  function OverviewSpec(view: map<string, string>, codecs: Codecs, ob: CubeOverview): Result<string>
  {
    match Collect(DeckResults(view, codecs, ob.decks))
    case Failure(e) => Failure(e)
    case Success(blocks) => Success(Document(ob.title, ob.description, blocks))
  }

  /** A rendered page is the fixed header followed by every deck's block, in deck
      order, each behind a blank line. */
  lemma OverviewShape(view: map<string, string>, codecs: Codecs, ob: CubeOverview)
    requires OverviewSpec(view, codecs, ob).Success?
    ensures exists blocks: seq<string> ::
              && |blocks| == |ob.decks|
              && (forall i :: 0 <= i < |ob.decks| ==> DeckOverviewSpec(view, codecs, ob.decks[i]) == Success(blocks[i]))
              && OverviewSpec(view, codecs, ob).value
                 == H2(ob.title) + "\n\n" + Hr() + "\n\n" + ob.description + "\n\n"
                    + H2("Archetypes and inspiration") + "\n\n" + Hr() + Sections(blocks, "\n\n")
  {
    var rs := DeckResults(view, codecs, ob.decks);
    var blocks := Collect(rs).value;
    assert OverviewSpec(view, codecs, ob).value == Document(ob.title, ob.description, blocks);
    DocumentShape(ob.title, ob.description, blocks);
    forall i | 0 <= i < |ob.decks| ensures DeckOverviewSpec(view, codecs, ob.decks[i]) == Success(blocks[i]) {
      assert rs[i] == Success(blocks[i]);
    }
  }

  /** A page renders exactly when every deck does; otherwise the error is that of the
      first deck that fails. */
  lemma OverviewFailsAtFirstFailingDeck(view: map<string, string>, codecs: Codecs, ob: CubeOverview)
    ensures OverviewSpec(view, codecs, ob).Success? <==>
              forall i :: 0 <= i < |ob.decks| ==> DeckOverviewSpec(view, codecs, ob.decks[i]).Success?
    ensures OverviewSpec(view, codecs, ob).Failure? ==>
              exists k :: 0 <= k < |ob.decks|
                && DeckOverviewSpec(view, codecs, ob.decks[k]) == Failure(OverviewSpec(view, codecs, ob).error)
                && forall j :: 0 <= j < k ==> DeckOverviewSpec(view, codecs, ob.decks[j]).Success?
  {
    var rs := DeckResults(view, codecs, ob.decks);
    if Collect(rs).Failure? {
      CollectFirstFailure(rs);
    }
  }

  /** The URLs each deck's rendering can ask for, in deck order. */
  function DeckUrlList(view: map<string, string>, codecs: Codecs, decks: seq<Deck>): (us: seq<set<string>>)
    ensures |us| == |decks| && forall i :: 0 <= i < |decks| ==> us[i] == DeckUrls(view, codecs, decks[i].cards)
  {
    seq(|decks|, i requires 0 <= i < |decks| => DeckUrls(view, codecs, decks[i].cards))
  }

  /** The URLs a page's rendering can ask for: those of its decks up to the first one
      that fails. */
  function PageUrls(view: map<string, string>, codecs: Codecs, decks: seq<Deck>): set<string>
  {
    Reached(DeckResults(view, codecs, decks), DeckUrlList(view, codecs, decks))
  }

  /** No deck after the first failing one is rendered. */
  lemma PageStopsAtFailingDeck(view: map<string, string>, codecs: Codecs, decks: seq<Deck>, k: nat)
    requires k < |decks| && DeckOverviewSpec(view, codecs, decks[k]).Failure?
    ensures PageUrls(view, codecs, decks) == PageUrls(view, codecs, decks[..k + 1])
  {
    var rs, us := DeckResults(view, codecs, decks), DeckUrlList(view, codecs, decks);
    ReachedStopsAtFailure(rs, us, k);
    assert rs[..k + 1] == DeckResults(view, codecs, decks[..k + 1]);
    assert us[..k + 1] == DeckUrlList(view, codecs, decks[..k + 1]);
  }

  /** `decks.map(&:overview)`: every deck's block in order, the first failure aborting
      the rest. */
  method DeckBlocks(decks: seq<Deck>, cache: ResponseCache, net: Network, codecs: Codecs)
    returns (r: Result<seq<string>>)
    modifies cache, net
    ensures cache.View(net) == old(cache.View(net))
    ensures r == Collect(DeckResults(old(cache.View(net)), codecs, decks))
    ensures CachedRun(old(cache.entries), old(net.requests), cache.entries, net.requests, net.responses,
                      PageUrls(old(cache.View(net)), codecs, decks))
  {
    ghost var view := cache.View(net);
    ghost var all, urls := DeckResults(view, codecs, decks), DeckUrlList(view, codecs, decks);
    ghost var entries0, requests0 := cache.entries, net.requests;
    CachedRunNone(entries0, requests0, net.responses);
    var blocks: seq<string> := [];
    var k := 0;
    while k < |decks|
      invariant 0 <= k <= |decks|
      invariant cache.View(net) == view
      invariant Collect(all[..k]) == Success(blocks)
      invariant CachedRun(entries0, requests0, cache.entries, net.requests, net.responses, Reached(all[..k], urls[..k]))
    {
      ghost var entries1, requests1 := cache.entries, net.requests;
      var b := DeckOverview(decks[k], cache, net, codecs);
      CachedRunStep(entries0, requests0, entries1, requests1, cache.entries, net.requests, net.responses,
                    all, urls, k);
      CollectStep(all, k);
      if b.Failure? {
        return Failure(b.error);
      }
      blocks := blocks + [b.value];
      k := k + 1;
    }
    assert all[..k] == all && urls[..k] == urls;
    r := Success(blocks);
  }

  /** `overview`: `validate!` first, so a repeated card ends the run before anything is
      fetched; then the header and every deck's block. */
  method Overview(ob: CubeOverview, cache: ResponseCache, net: Network, codecs: Codecs) returns (r: Result<string>)
    modifies cache, net
    ensures cache.View(net) == old(cache.View(net))
    ensures !NoRepeats(AllCards(ob.decks)) ==>
              && r.Failure? && r.error.RepeatedCard?
              && r.error.count == multiset(AllCards(ob.decks))[r.error.card] > 1
              && (forall c :: multiset(AllCards(ob.decks))[c] > 1 ==> Below(r.error.card, c))
              && cache.entries == old(cache.entries) && net.requests == old(net.requests)
    ensures NoRepeats(AllCards(ob.decks)) ==> r == OverviewSpec(old(cache.View(net)), codecs, ob)
    ensures NoRepeats(AllCards(ob.decks)) ==>
              CachedRun(old(cache.entries), old(net.requests), cache.entries, net.requests, net.responses,
                        PageUrls(old(cache.View(net)), codecs, ob.decks))
  {
    var checked := Validate(ob.decks);
    if checked.Fail? {
      return Failure(checked.error);
    }
    var blocks := DeckBlocks(ob.decks, cache, net, codecs);
    if blocks.Failure? {
      return Failure(blocks.error);
    }
    r := Success(Document(ob.title, ob.description, blocks.value));
  }
}
