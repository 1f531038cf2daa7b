/**
 * The parts of a Word document the report scripts emit, as values: paragraphs
 * made of runs, headings, tables of cells and page breaks. Fonts, sizes and
 * spacing are not part of this model; text, weight and colour are.
 */
module Docx {
  import opened Common

  /** A colour as python-docx's `RGBColor(r, g, b)` holds it. */
  datatype Rgb = Rgb(r: int, g: int, b: int)

  const Green: Rgb := Rgb(0, 128, 0)
  const Orange: Rgb := Rgb(255, 165, 0)
  const Red: Rgb := Rgb(255, 0, 0)
  const Gray: Rgb := Rgb(128, 128, 128)

  /**
   * A run of text. `Figure` is a run showing `caption`, then the number `value`
   * rounded to `decimals` places, then `unit` (an f-string such as
   * `f'Rate: {x:.1f}%'`); the digits themselves are not modelled.
   */
  datatype Run =
    | Run(text: string, bold: bool, color: Option<Rgb>)
    | Figure(caption: string, value: real, decimals: nat, unit: string, bold: bool, color: Option<Rgb>)

  datatype Cell = Cell(text: string, bold: bool, color: Option<Rgb>)

  /** A block of the document body; `style` None is the document's default paragraph or table style. */
  datatype Block =
    | Paragraph(style: Option<string>, runs: seq<Run>)
    | Heading(text: string, level: int)
    | Table(style: Option<string>, rows: seq<seq<Cell>>)
    | PageBreak

  /** A plain run: not bold, default colour. */
  function Plain(text: string): Run
  {
    Run(text, false, None)
  }

  predicate StartsWith(s: string, prefix: string)
  {
    |prefix| <= |s| && s[..|prefix|] == prefix
  }

  /** `doc.add_paragraph(text, style)`: an empty text adds no run. */
  function TextParagraph(style: Option<string>, text: string): Block
  {
    Paragraph(style, if text == "" then [] else [Plain(text)])
  }

  predicate HasStyle(b: Block, style: string)
  {
    b.Paragraph? && b.style == Some(style)
  }

  /** The number of paragraphs in `bs` whose style is `style`. */
  function CountStyled(bs: seq<Block>, style: string): nat
  {
    if bs == [] then 0
    else CountStyled(bs[..|bs| - 1], style) + (if HasStyle(bs[|bs| - 1], style) then 1 else 0)
  }

  lemma {:induction false} CountStyledAppend(a: seq<Block>, b: seq<Block>, style: string)
    ensures CountStyled(a + b, style) == CountStyled(a, style) + CountStyled(b, style)
  {
    if b != [] {
      assert (a + b)[..|a + b| - 1] == a + b[..|b| - 1];
      assert (a + b)[|a + b| - 1] == b[|b| - 1];
      CountStyledAppend(a, b[..|b| - 1], style);
    } else {
      assert a + b == a;
    }
  }

  lemma StartsWithHead(s: string, prefix: string)
    requires StartsWith(s, prefix) && prefix != []
    ensures s != [] && s[0] == prefix[0]
  {
    assert s[..|prefix|][0] == s[0];
  }

  /** A paragraph of the heading style the report uses for its section titles. */
  predicate IsSectionHeading(b: Block)
  {
    b.Paragraph? && b.style == Some("Custom Heading")
  }

  /** The text of a paragraph's first run, when it is plain text. */
  function FirstText(b: Block): string
  {
    if b.Paragraph? && |b.runs| > 0 && b.runs[0].Run? then b.runs[0].text else ""
  }

  /** The titles of the section headings in `bs`, in order. */
  function SectionHeadings(bs: seq<Block>): seq<string>
  {
    if bs == [] then []
    else SectionHeadings(bs[..|bs| - 1]) + (if IsSectionHeading(bs[|bs| - 1]) then [FirstText(bs[|bs| - 1])] else [])
  }

  lemma {:induction false} SectionHeadingsAppend(a: seq<Block>, b: seq<Block>)
    ensures SectionHeadings(a + b) == SectionHeadings(a) + SectionHeadings(b)
  {
    if b != [] {
      assert (a + b)[..|a + b| - 1] == a + b[..|b| - 1];
      assert (a + b)[|a + b| - 1] == b[|b| - 1];
      SectionHeadingsAppend(a, b[..|b| - 1]);
    } else {
      assert a + b == a;
    }
  }

  lemma {:induction false} NoSectionHeadings(bs: seq<Block>)
    requires forall b :: b in bs ==> !IsSectionHeading(b)
    ensures SectionHeadings(bs) == []
  {
    if bs != [] {
      assert bs[|bs| - 1] in bs;
      forall b | b in bs[..|bs| - 1] ensures b in bs {
      }
      NoSectionHeadings(bs[..|bs| - 1]);
    }
  }

  lemma {:induction false} NoneStyled(bs: seq<Block>, style: string)
    requires forall b :: b in bs ==> !HasStyle(b, style)
    ensures CountStyled(bs, style) == 0
  {
    if bs != [] {
      assert bs[|bs| - 1] in bs;
      forall b | b in bs[..|bs| - 1] ensures b in bs {
      }
      NoneStyled(bs[..|bs| - 1], style);
    }
  }
}
