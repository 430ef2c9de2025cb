/** Ruby's `Array#join` on strings, and the shape of what it builds. */
module Text {

  /** `parts.join(sep)`: the parts in order with `sep` between neighbours. */
  function Join(parts: seq<string>, sep: string): string
  {
    if |parts| == 0 then ""
    else if |parts| == 1 then parts[0]
    else parts[0] + sep + Join(parts[1..], sep)
  }

  /** Each part preceded by `sep`: what `join` adds after its first part. */
  function Sections(parts: seq<string>, sep: string): string
  {
    if parts == [] then "" else sep + parts[0] + Sections(parts[1..], sep)
  }

  lemma {:induction false} JoinIsHeadAndSections(parts: seq<string>, sep: string)
    requires |parts| > 0
    ensures Join(parts, sep) == parts[0] + Sections(parts[1..], sep)
  {
    if |parts| == 1 {
      assert parts[1..] == [];
    } else {
      JoinIsHeadAndSections(parts[1..], sep);
      assert parts[1..][1..] == parts[2..];
    }
  }

  lemma {:induction false} SectionsAppend(a: seq<string>, b: seq<string>, sep: string)
    ensures Sections(a + b, sep) == Sections(a, sep) + Sections(b, sep)
  {
    if a == [] {
      assert a + b == b;
    } else {
      assert (a + b)[0] == a[0] && (a + b)[1..] == a[1..] + b;
      SectionsAppend(a[1..], b, sep);
    }
  }

  /** Joining a longer list extends the join of its first parts. */
  lemma {:induction false} JoinAppend(a: seq<string>, b: seq<string>, sep: string)
    requires |a| > 0
    ensures Join(a + b, sep) == Join(a, sep) + Sections(b, sep)
  {
    JoinIsHeadAndSections(a + b, sep);
    JoinIsHeadAndSections(a, sep);
    assert (a + b)[1..] == a[1..] + b;
    SectionsAppend(a[1..], b, sep);
  }

  /** `join` with an empty separator is plain concatenation, one part after another. */
  lemma {:induction false} JoinSnoc(parts: seq<string>, last: string)
    ensures Join(parts + [last], "") == Join(parts, "") + last
  {
    if parts == [] {
      assert parts + [last] == [last];
    } else {
      JoinAppend(parts, [last], "");
    }
  }
}
