/** The page both renderers produce: a fixed header, then one block per deck, all
    separated by blank lines. */
module Layout {
  import opened Markdown
  import opened Text

  const ArchetypesHeading := "Archetypes and inspiration"
  const BlankLine := "\n\n"

  /** Title heading, rule, description, section heading, rule. */
  function Header(title: string, description: string): seq<string>
  {
    [H2(title), Hr(), description, H2(ArchetypesHeading), Hr()]
  }

  /** `[h2(title), hr, description, h2('Archetypes and inspiration'), hr, *blocks].join("\n\n")`. */
  function Document(title: string, description: string, blocks: seq<string>): string
  {
    Join(Header(title, description) + blocks, BlankLine)
  }

  /** The document spelled out: the five header parts, then every deck block in order,
      each behind a blank line. */
  lemma DocumentShape(title: string, description: string, blocks: seq<string>)
    ensures Document(title, description, blocks)
         == H2(title) + BlankLine + Hr() + BlankLine + description + BlankLine
            + H2(ArchetypesHeading) + BlankLine + Hr() + Sections(blocks, BlankLine)
  {
    JoinAppend(Header(title, description), blocks, BlankLine);
    HeaderText(H2(title), Hr(), description, H2(ArchetypesHeading));
  }

  lemma HeaderText(a: string, b: string, c: string, d: string)
    ensures Join([a, b, c, d, b], BlankLine)
         == a + BlankLine + b + BlankLine + c + BlankLine + d + BlankLine + b
  {
    var h := [a, b, c, d, b];
    JoinIsHeadAndSections(h, BlankLine);
    assert h[1..] == [b, c, d, b];
    assert [b, c, d, b][1..] == [c, d, b];
    assert [c, d, b][1..] == [d, b];
    assert [d, b][1..] == [b];
    assert [b][1..] == [];
    var s4 := Sections([b], BlankLine);
    assert Sections([b][1..], BlankLine) == "";
    assert s4 == BlankLine + b + "";
    assert BlankLine + b + "" == BlankLine + b;
    var s3 := Sections([d, b], BlankLine);
    assert s3 == BlankLine + d + s4;
    var s2 := Sections([c, d, b], BlankLine);
    assert s2 == BlankLine + c + s3;
    var s1 := Sections([b, c, d, b], BlankLine);
    assert s1 == BlankLine + b + s2;
  }

  /** A document starts with its title heading. */
  lemma DocumentStartsWithTitle(title: string, description: string, blocks: seq<string>)
    ensures |Document(title, description, blocks)| >= |title| + 3
    ensures Document(title, description, blocks)[..|title| + 3] == "## " + title
  {
    var parts := Header(title, description) + blocks;
    JoinIsHeadAndSections(parts, BlankLine);
    var head, rest := parts[0], Sections(parts[1..], BlankLine);
    assert head == H2(title);
    assert (head + rest)[..|head|] == head;
  }
}
