/**
 * The line interpreter of `App.createPdf`: it walks the input lines, keeps
 * four one-shot flags and an indentation, adds text runs to the open
 * paragraph and, on the four paragraph commands, seals the open paragraph
 * into the document and opens a new one.
 *
 * The reference semantics is given by pure functions over a `State` record
 * (`NextState`, `StateAfter`, `Compile`); the class `PdfCompiler` holds the
 * same state in mutable fields and its methods are proved against them.
 */
module Interpreter {
  import opened Wrappers
  import opened JavaLang
  import opened Layout

  /** Why a run is aborted: the exception that escapes `createPdf`. */
  datatype ErrorKind =
    | NoCommandToken          // a line made only of spaces splits into nothing: `lineArgs[0]` is out of bounds
    | MissingIndentArgument   // `.indent` alone: `lineArgs[1]` is out of bounds
    | InvalidIndentArgument   // `.indent x` where `Integer.parseInt(x)` throws

  /** All variables the loop of `createPdf` reads and writes. */
  datatype State = State(
    bold: bool,
    italics: bool,
    large: bool,
    justify: bool,
    indentations: Int32,
    current: Paragraph,
    document: seq<Paragraph>)

  /** The state before the first line: all flags off, an empty open paragraph, an empty document. */
  const Initial: State := State(false, false, false, false, 0, NewParagraph(0), [])

  /** A line starting with `.` is a command line; every other line is text. */
  predicate IsCommandLine(line: string) {
    StartsWith(line, ".")
  }

  /** `setFont(bold)` and then `setFont(italics)`: the later call wins. */
  function FontFor(bold: bool, italics: bool): Font {
    if italics then Oblique else if bold then Bold else Regular
  }

  function SizeFor(large: bool): int {
    if large then LargeFontSize else DefaultFontSize
  }

  /** The run a text line becomes under the current flags. */
  function TextRun(s: State, line: string): Run {
    Run(line, FontFor(s.bold, s.italics), SizeFor(s.large))
  }

  /**
   * The text half of one iteration: a text line is added as a run (marking
   * the paragraph justified when `justify` is set) and all four flags are
   * cleared; a command line leaves the state alone.
   */
  function TakeText(s: State, line: string): State {
    if IsCommandLine(line) then s
    else
      var p := if s.justify then s.current.(justified := true) else s.current;
      s.(current := p.(runs := p.runs + [TextRun(s, line)]),
         bold := false, italics := false, large := false, justify := false)
  }

  /** Seal the open paragraph into the document and open a new one with the given padding. */
  function Flush(s: State, padding: int): State {
    s.(document := s.document + [s.current], current := NewParagraph(padding))
  }

  /** The `switch` on the first token of the line. */
  function Dispatch(s: State, lineArgs: seq<string>): Result<State, ErrorKind>
    requires |lineArgs| > 0
  {
    var command := lineArgs[0];
    if command == ".paragraph" then Ok(Flush(s, 0))
    else if command == ".bold" then Ok(s.(bold := true))
    else if command == ".italics" then Ok(s.(italics := true))
    else if command == ".large" then Ok(s.(large := true))
    else if command == ".fill" then Ok(Flush(s, FillPadding).(justify := true))
    else if command == ".nofill" then Ok(Flush(s, 0).(justify := false))
    else if command == ".regular" then Ok(s.(bold := false, italics := false, large := false, justify := false))
    else if command == ".indent" then
      if |lineArgs| < 2 then Err(MissingIndentArgument)
      else match ParseInt(lineArgs[1])
        case None => Err(InvalidIndentArgument)
        case Some(n) => Ok(Flush(s.(indentations := n), Wrap32(IndentUnit * n)))
    else Ok(s)
  }

  /** One iteration of the loop: the text half, then the dispatch on `line.split(" ")[0]`. */
  function NextState(s: State, line: string): Result<State, ErrorKind> {
    var t := TakeText(s, line);
    var lineArgs := Split(line);
    if |lineArgs| == 0 then Err(NoCommandToken) else Dispatch(t, lineArgs)
  }

  /** The state after the loop has consumed `lines`, or the exception that stopped it. */
  function StateAfter(lines: seq<string>): Result<State, ErrorKind> {
    if lines == [] then Ok(Initial)
    else match StateAfter(lines[..|lines| - 1])
      case Err(e) => Err(e)
      case Ok(s) => NextState(s, lines[|lines| - 1])
  }

  /** The paragraphs handed to the renderer: the sealed ones, then the open one (the final flush). */
  function Compile(lines: seq<string>): Result<seq<Paragraph>, ErrorKind> {
    match StateAfter(lines)
    case Err(e) => Err(e)
    case Ok(s) => Ok(s.document + [s.current])
  }

  /** The interpreter's variables as mutable fields. */
  class PdfCompiler {
    var bold: bool
    var italics: bool
    var justify: bool
    var large: bool
    var indentations: Int32
    var current: Paragraph
    var document: seq<Paragraph>

    /** The fields as a `State` value. */
    function Snapshot(): State
      reads this
    {
      State(bold, italics, large, justify, indentations, current, document)
    }

    constructor ()
      ensures Snapshot() == Initial
    {
      bold, italics, justify, large := false, false, false, false;
      indentations := 0;
      current := NewParagraph(0);
      document := [];
    }

    /** `document.add(current)` followed by a fresh `current`. */
    method FlushParagraph(padding: int)
      modifies this
      ensures Snapshot() == Flush(old(Snapshot()), padding)
    {
      document := document + [current];
      current := NewParagraph(padding);
    }

    /** The text half of one iteration (the `if (!line.startsWith("."))` block). */
    method TakeTextLine(line: string)
      modifies this
      ensures Snapshot() == TakeText(old(Snapshot()), line)
    {
      if !StartsWith(line, ".") {
        var font := Regular;
        if bold { font := Bold; }
        if italics { font := Oblique; }
        var size := DefaultFontSize;
        if large { size := LargeFontSize; }
        if justify { current := current.(justified := true); }
        current := current.(runs := current.runs + [Run(line, font, size)]);
        bold, italics, large, justify := false, false, false, false;
      }
    }

    /** The `switch (command)` half of one iteration; on an exception nothing has changed. */
    method Execute(lineArgs: seq<string>) returns (err: Option<ErrorKind>)
      requires |lineArgs| > 0
      modifies this
      ensures match Dispatch(old(Snapshot()), lineArgs)
        case Ok(t) => err == None && Snapshot() == t
        case Err(e) => err == Some(e) && Snapshot() == old(Snapshot())
    {
      var command := lineArgs[0];
      if command == ".paragraph" {
        FlushParagraph(0);
      } else if command == ".bold" {
        bold := true;
      } else if command == ".italics" {
        italics := true;
      } else if command == ".large" {
        large := true;
      } else if command == ".fill" {
        FlushParagraph(FillPadding);
        justify := true;
      } else if command == ".nofill" {
        FlushParagraph(0);
        justify := false;
      } else if command == ".regular" {
        bold, italics, large, justify := false, false, false, false;
      } else if command == ".indent" {
        if |lineArgs| < 2 {
          return Some(MissingIndentArgument);
        }
        var parsed := ParseInt(lineArgs[1]);
        if parsed.None? {
          return Some(InvalidIndentArgument);
        }
        indentations := parsed.value;
        FlushParagraph(Wrap32(IndentUnit * indentations));
      }
      return None;
    }

    /**
     * One iteration of the loop.  On an exception the text half has already
     * happened: a line of spaces has been added as a run, while a bad
     * `.indent` has changed nothing.
     */
    method Step(line: string) returns (err: Option<ErrorKind>)
      modifies this
      ensures match NextState(old(Snapshot()), line)
        case Ok(t) => err == None && Snapshot() == t
        case Err(e) => err == Some(e) && Snapshot() == TakeText(old(Snapshot()), line)
    {
      TakeTextLine(line);
      var lineArgs := Split(line);
      if |lineArgs| == 0 {
        return Some(NoCommandToken);
      }
      err := Execute(lineArgs);
    }
  }

  /** `createPdf` without the renderer: the paragraphs it hands over, or the exception it throws. */
  method CreatePdf(input: seq<string>) returns (r: Result<seq<Paragraph>, ErrorKind>)
    ensures r == Compile(input)
  {
    var it := new PdfCompiler();
    for i := 0 to |input|
      invariant StateAfter(input[..i]) == Ok(it.Snapshot())
    {
      assert input[..i + 1][..i] == input[..i];
      var err := it.Step(input[i]);
      if err.Some? {
        assert input[..i + 1][..i] == input[..i];
        r := Err(err.value);
        StopsAtError(input, i + 1);
        return;
      }
    }
    assert input[..|input|] == input;
    // the final flush after the loop
    r := Ok(it.document + [it.current]);
  }

  /** Once the loop has thrown, the rest of the input does not matter. */
  lemma {:induction false} StopsAtError(lines: seq<string>, i: nat)
    requires i <= |lines| && StateAfter(lines[..i]).Err?
    ensures StateAfter(lines) == StateAfter(lines[..i])
    decreases |lines| - i
  {
    if i < |lines| {
      assert lines[..i + 1][..i] == lines[..i];
      StopsAtError(lines, i + 1);
    } else {
      assert lines[..i] == lines;
    }
  }
}
