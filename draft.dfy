/** The earlier draft renderer: title before mana symbols, the stars on a line of their
    own, a placeholder for the images, and no validation. The heading helpers and the
    mana symbols are the same as the main renderer's. */
module Draft {
  import opened Cube
  import opened Text
  import opened Markdown
  import opened Layout
  import opened Decks

  /** `card_images`: a placeholder. */
  function CardImages(d: Deck): string
  {
    "TODO"
  }

  /** `[h3("#{title} #{mana_symbols}"), '⭐' * stars, card_images].join("\n\n")`. */
  function DeckOverview(d: Deck): string
  {
    Join([H3(d.title + " " + ManaSymbols(d.mana)), Stars(d.stars), CardImages(d)], BlankLine)
  }

  /** Every deck's block, in deck order. */
  function DeckOverviews(decks: seq<Deck>): (r: seq<string>)
    ensures |r| == |decks| && forall i :: 0 <= i < |decks| ==> r[i] == DeckOverview(decks[i])
  {
    seq(|decks|, i requires 0 <= i < |decks| => DeckOverview(decks[i]))
  }

  /** `overview`: the header and every deck's block, joined by blank lines. */
  function Overview(ob: CubeOverview): string
  {
    Document(ob.title, ob.description, DeckOverviews(ob.decks))
  }

  /** The placeholder does not depend on the deck. */
  lemma CardImagesIgnoresDeck(d: Deck, e: Deck)
    ensures CardImages(d) == CardImages(e) == "TODO"
  {
  }

  /** A draft deck block: the heading with the title before the mana symbols, a blank
      line, the star line, a blank line, and the placeholder. */
  lemma DeckOverviewShape(d: Deck)
    ensures DeckOverview(d)
         == "### " + d.title + " " + ManaSymbols(d.mana) + "\n\n" + Stars(d.stars) + "\n\n" + "TODO"
  {
    var a, b, c := H3(d.title + " " + ManaSymbols(d.mana)), Stars(d.stars), CardImages(d);
    var parts := [a, b, c];
    JoinIsHeadAndSections(parts, BlankLine);
    assert parts[1..] == [b, c] && [b, c][1..] == [c] && [c][1..] == [];
    assert Sections([c], BlankLine) == BlankLine + c + "";
    assert Sections([b, c], BlankLine) == BlankLine + b + Sections([c], BlankLine);
    assert DeckOverview(d) == a + (BlankLine + b + (BlankLine + c + ""));
    var line := d.title + " " + ManaSymbols(d.mana);
    assert a == "### " + line;
    assert a + (BlankLine + b + (BlankLine + c + "")) == "### " + line + "\n\n" + b + "\n\n" + c;
    assert "### " + line == "### " + d.title + " " + ManaSymbols(d.mana);
  }

  /** The star line of a draft deck holds exactly `stars` star glyphs and nothing else. */
  lemma StarLine(d: Deck)
    ensures exists heading, rest ::
              DeckOverview(d) == heading + "\n\n" + Stars(d.stars) + "\n\n" + rest
    ensures |Stars(d.stars)| == d.stars && forall i :: 0 <= i < d.stars ==> Stars(d.stars)[i] == Star
  {
    DeckOverviewShape(d);
    var heading := "### " + d.title + " " + ManaSymbols(d.mana);
    assert DeckOverview(d) == heading + "\n\n" + Stars(d.stars) + "\n\n" + "TODO";
  }

  /** The draft page: the header, then every draft deck block in order, each behind a
      blank line; it is produced whether or not a card repeats. */
  lemma OverviewShape(ob: CubeOverview)
    ensures Overview(ob)
         == H2(ob.title) + "\n\n" + Hr() + "\n\n" + ob.description + "\n\n"
            + H2("Archetypes and inspiration") + "\n\n" + Hr() + Sections(DeckOverviews(ob.decks), "\n\n")
  {
    DocumentShape(ob.title, ob.description, DeckOverviews(ob.decks));
  }
}
