/**
 * Whole inputs worked through the interpreter: the examples the program's
 * behaviour is usually explained with, for any text lines in place of the
 * sample words.
 */
module Scenarios {
  import opened Wrappers
  import opened JavaLang
  import opened Layout
  import opened Interpreter
  import opened Properties

  /** A text line that is not made only of spaces (a literal text line of a document). */
  predicate PlainText(x: string) {
    IsTextLine(x) && !(|x| > 0 && AllSpaces(x))
  }

  /** Empty input: one paragraph, without runs, padding or justification. */
  lemma EmptyInput()
    ensures Compile([]) == Ok([Paragraph([], 0, false)])
  {
    assert Initial.document + [Initial.current] == [Paragraph([], 0, false)];
  }

  /** Any input that starts with `.bold` and a text line x has, after those two lines, one bold run x and no flag set. */
  lemma BoldThenText(lines: seq<string>, x: string)
    requires |lines| >= 2 && lines[0] == ".bold" && lines[1] == x && PlainText(x)
    ensures StateAfter(lines[..2]) ==
      Ok(Initial.(current := Paragraph([Run(x, Bold, 12)], 0, false)))
  {
    var s1 := Initial.(bold := true);
    assert StateAfter(lines[..1]) == Ok(s1) by {
      assert lines[..1][..0] == [] && lines[..1][0] == ".bold";
      SplitOfCommandNames();
      CommandLineStep(Initial, ".bold");
    }
    assert lines[..2][..1] == lines[..1] && lines[..2][1] == x;
    TextLineStep(s1, x);
  }

  /** `.paragraph` and a text line y, from a state with no flag set: y opens a plain paragraph of its own. */
  lemma ParagraphThenText(s: State, y: string)
    requires PlainText(y) && !s.bold && !s.italics && !s.large && !s.justify
    ensures NextState(s, ".paragraph") == Ok(Flush(s, 0))
    ensures NextState(Flush(s, 0), y) ==
      Ok(Flush(s, 0).(current := Paragraph([Run(y, Regular, 12)], 0, false)))
  {
    SplitOfCommandNames();
    CommandLineStep(s, ".paragraph");
    TextLineStep(Flush(s, 0), y);
  }

  /** `.bold`, x, `.paragraph`, y: a paragraph with x in bold, then one with y in the regular font. */
  lemma BoldThenParagraph(x: string, y: string)
    requires PlainText(x) && PlainText(y)
    ensures Compile([".bold", x, ".paragraph", y]) ==
      Ok([Paragraph([Run(x, Bold, 12)], 0, false), Paragraph([Run(y, Regular, 12)], 0, false)])
  {
    var lines := [".bold", x, ".paragraph", y];
    BoldThenText(lines, x);
    var s2 := Initial.(current := Paragraph([Run(x, Bold, 12)], 0, false));
    ParagraphThenText(s2, y);
    assert StateAfter(lines[..3]) == Ok(Flush(s2, 0)) by {
      assert lines[..3][..2] == lines[..2] && lines[..3][2] == ".paragraph";
    }
    assert lines[..3] == lines[..|lines| - 1] && lines[3] == y;
    var s4 := Flush(s2, 0).(current := Paragraph([Run(y, Regular, 12)], 0, false));
    assert s4.document + [s4.current] ==
      [Paragraph([Run(x, Bold, 12)], 0, false), Paragraph([Run(y, Regular, 12)], 0, false)];
  }

  /** `.fill`, x: the flush emits an empty plain paragraph, then a justified one padded by 100. */
  lemma FillScenario(x: string)
    requires PlainText(x)
    ensures Compile([".fill", x]) ==
      Ok([Paragraph([], 0, false), Paragraph([Run(x, Regular, 12)], 100, true)])
  {
    var lines := [".fill", x];
    assert lines[..1][..0] == [];
    assert lines[..1] == [".fill"];
    SplitOfCommandNames();
    CommandLineStep(Initial, ".fill");
    var s1 := Flush(Initial, FillPadding).(justify := true);
    assert StateAfter(lines[..1]) == Ok(s1);
    TextLineStep(s1, x);
    var s2 := NextState(s1, x).value;
    assert s2.current == Paragraph([Run(x, Regular, 12)], 100, true);
    assert s2.document == [Paragraph([], 0, false)];
    assert StateAfter(lines) == Ok(s2);
    assert s2.document + [s2.current] == [Paragraph([], 0, false), Paragraph([Run(x, Regular, 12)], 100, true)];
  }
}
