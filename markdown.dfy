/** The `Markdown` mixin: level-two and level-three headings and a horizontal rule. */
module Markdown {

  const RuleWidth := 30

  /** `h2(str)`: the text behind a "## " marker, otherwise unchanged. */
  function H2(s: string): (r: string)
    ensures |r| == |s| + 3 && r[..3] == "## " && r[3..] == s
  {
    "## " + s
  }

  /** `h3(str)`: the text behind a "### " marker, otherwise unchanged. */
  function H3(s: string): (r: string)
    ensures |r| == |s| + 4 && r[..4] == "### " && r[4..] == s
  {
    "### " + s
  }

  /** `hr`: a rule of thirty dashes. */
  function Hr(): (r: string)
    ensures |r| == RuleWidth && forall i :: 0 <= i < |r| ==> r[i] == '-'
  {
    seq(RuleWidth, _ => '-')
  }
}
