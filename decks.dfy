/** The text of one deck block: `Deck#mana_symbols`, the star rating, the image tokens
    and the heading that holds them. */
module Decks {
  import opened Cube
  import opened Text
  import opened Markdown

  const Star := '\U{2B50}'

  /** `mana.chars.map { |m| "{#{m}}" }.join`: every colour letter in braces, in order. */
  function ManaSymbols(mana: string): (r: string)
    ensures |r| == 3 * |mana|
  {
    if mana == [] then "" else ['{', mana[0], '}'] + ManaSymbols(mana[1..])
  }

  /** The i-th colour letter is the i-th symbol, in braces. */
  lemma {:induction false} ManaSymbolAt(mana: string, i: nat)
    requires i < |mana|
    ensures ManaSymbols(mana)[3 * i .. 3 * i + 3] == ['{', mana[i], '}']
  {
    var rest := ManaSymbols(mana[1..]);
    assert ManaSymbols(mana) == ['{', mana[0], '}'] + rest;
    if i > 0 {
      ManaSymbolAt(mana[1..], i - 1);
      assert ManaSymbols(mana)[3 * i .. 3 * i + 3] == rest[3 * (i - 1) .. 3 * (i - 1) + 3];
    }
  }

  /** Reads the colour letters back out of a run of mana symbols. */
  function ManaLetters(symbols: string): string
  {
    if |symbols| < 3 then "" else [symbols[1]] + ManaLetters(symbols[3..])
  }

  /** The mana symbols lose nothing: the letters and their order come back out. */
  lemma {:induction false} ManaSymbolsRoundTrip(mana: string)
    ensures ManaLetters(ManaSymbols(mana)) == mana
  {
    if mana != [] {
      var r, rest := ManaSymbols(mana), ManaSymbols(mana[1..]);
      assert r == ['{', mana[0], '}'] + rest;
      assert r[1] == mana[0] && r[3..] == rest;
      ManaSymbolsRoundTrip(mana[1..]);
      assert mana == [mana[0]] + mana[1..];
    }
  }

  /** `'⭐' * stars`. */
  function Stars(n: nat): (r: string)
    ensures |r| == n && forall i :: 0 <= i < |r| ==> r[i] == Star
  {
    seq(n, _ => Star)
  }

  /** `h3("#{mana_symbols} #{title} #{'⭐' * stars}")`. */
  function Heading(d: Deck): string
  {
    H3(ManaSymbols(d.mana) + " " + d.title + " " + Stars(d.stars))
  }

  /** `"[[!#{card_name}|#{scryfall_card_data[:id]}]]"`. */
  function Token(name: string, id: string): string
  {
    "[[!" + name + "|" + id + "]]"
  }

  /** `"<<#{images.join}>>"`. */
  function ImageStrip(tokens: seq<string>): string
  {
    "<<" + Join(tokens, "") + ">>"
  }

  /** `[h3(...), card_images].join("\n")`. */
  function Block(d: Deck, images: string): string
  {
    Join([Heading(d), images], "\n")
  }

  /** A deck block is its heading line, a line break and the image strip, with the
      tokens concatenated in card order. */
  lemma BlockShape(d: Deck, tokens: seq<string>)
    ensures Block(d, ImageStrip(tokens))
         == "### " + ManaSymbols(d.mana) + " " + d.title + " " + Stars(d.stars)
            + "\n" + "<<" + Join(tokens, "") + ">>"
  {
    var line := ManaSymbols(d.mana) + " " + d.title + " " + Stars(d.stars);
    var strip, joined := ImageStrip(tokens), Join(tokens, "");
    BlockJoinsHeading("### " + line, strip, d);
    var heading := "### " + ManaSymbols(d.mana) + " " + d.title + " " + Stars(d.stars);
    assert "### " + line == heading;
    assert heading + "\n" + strip == heading + "\n" + "<<" + joined + ">>";
  }

  /** The image strip of one more card ends with that card's token. */
  lemma ImageStripSnoc(tokens: seq<string>, t: string)
    ensures ImageStrip(tokens + [t]) == "<<" + Join(tokens, "") + t + ">>"
  {
    JoinSnoc(tokens, t);
  }

  /** The heading of a one-colour, two-star deck. */
  lemma ExampleHeading()
    ensures Heading(Deck("Mono", "w", 2, ["Card A"])) == "### {w} Mono \U{2B50}\U{2B50}"
  {
    assert ManaSymbols("w") == "{w}" by { assert "w"[1..] == ""; }
    assert Stars(2) == [Star, Star];
  }

  /** The image strip of a single token. */
  lemma ExampleStrip()
    ensures ImageStrip([Token("Card A", "abc123")]) == "<<[[!Card A|abc123]]>>"
  {
    assert Join([Token("Card A", "abc123")], "") == "[[!Card A|abc123]]";
  }

  /** A block is its heading, a line break and the images. */
  lemma BlockJoinsHeading(heading: string, strip: string, d: Deck)
    requires Heading(d) == heading
    ensures Block(d, strip) == heading + "\n" + strip
  {
    var parts := [heading, strip];
    JoinIsHeadAndSections(parts, "\n");
    assert parts[1..] == [strip] && parts[1..][1..] == [];
  }

  /** The block of a one-colour, two-star deck with a single card. */
  lemma ExampleBlock()
    ensures Block(Deck("Mono", "w", 2, ["Card A"]), ImageStrip([Token("Card A", "abc123")]))
         == "### {w} Mono \U{2B50}\U{2B50}" + "\n" + "<<[[!Card A|abc123]]>>"
  {
    var d := Deck("Mono", "w", 2, ["Card A"]);
    ExampleHeading();
    ExampleStrip();
    BlockJoinsHeading("### {w} Mono \U{2B50}\U{2B50}", "<<[[!Card A|abc123]]>>", d);
  }
}
