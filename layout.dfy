/**
 * The document the interpreter builds, in place of the rendering library's
 * objects: a paragraph is a sequence of styled text runs with a left padding
 * and a justified flag; the document is the sequence of paragraphs.
 */
module Layout {

  /** The three fonts the interpreter loads: Helvetica, Helvetica-Bold, Helvetica-Oblique. */
  datatype Font = Regular | Bold | Oblique

  /** Every paragraph is created with this font size; a run without `.large` inherits it. */
  const DefaultFontSize: int := 12
  /** The font size a `.large` run is given. */
  const LargeFontSize: int := 22
  /** Left padding of the paragraph that `.fill` opens. */
  const FillPadding: int := 100
  /** Padding per unit of `.indent n`. */
  const IndentUnit: int := 10

  /** One line of text with the font and size it is rendered in. */
  datatype Run = Run(content: string, font: Font, size: int)

  /**
   * A paragraph: its runs in order, its left padding (0 when none was set,
   * the renderer's default) and whether its alignment was set to justified.
   */
  datatype Paragraph = Paragraph(runs: seq<Run>, paddingLeft: int, justified: bool)

  /** A fresh paragraph: no runs, the given padding, default alignment. */
  function NewParagraph(padding: int): Paragraph {
    Paragraph([], padding, false)
  }
}
