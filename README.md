# pdf-compiler: the line interpreter, modelled and proved in Dafny

The program turns a text file into a PDF. Text lines become the document's
content, and lines that start with `.` are formatting commands. All of its
logic sits in the loop of `App.createPdf` (src/App.java:102-218). The loop
reads the lines one by one and keeps this state:

- four one-shot flags: `bold`, `italics`, `large` and `justify`;
- an `indentations` value;
- the open paragraph, `current`;
- the document, which only grows.

A text line becomes one run of the open paragraph, in the font and size the
flags select, and then all four flags are cleared. The line is then split on
spaces and its first token is dispatched:

- `.paragraph`, `.fill`, `.nofill` and `.indent n` seal the open paragraph
  into the document and open a new one;
- `.bold`, `.italics`, `.large` and `.regular` only set or clear flags;
- any other token does nothing.

At the end of the input the open paragraph is sealed too.

This project models that loop:

- `wrappers.dfy`: the `Option` and `Result` datatypes.
- `java_lang.dfy`: the Java library behaviour the loop depends on.
  - `String.split(" ")`, including its edge cases: no separator gives the
    whole string; trailing empty pieces are dropped.
  - `Integer.parseInt`: an optional sign, decimal digits, and the `int`
    range.
  - `int` wrap-around.
- `java_lang_lemmas.dfy`: each library operation proved against a partner.
  `parseInt` is proved against `toString` (round trip), and `split` against
  joining with spaces.
- `layout.dfy`: the document, as plain datatypes in place of the iText
  objects.
  - `Font` is Regular, Bold or Oblique.
  - `Run(content, font, size)` is one styled run of text.
  - `Paragraph(runs, paddingLeft, justified)` is one paragraph.
  - The constants: font sizes 12 and 22, `.fill` padding 100, indent unit 10.
- `interpreter.dfy`: the interpreter itself.
  - `NextState`, `StateAfter` and `Compile` are the pure reference semantics,
    over a `State` record.
  - The class `PdfCompiler` holds the loop's variables as fields.
  - Its methods `TakeTextLine` (the text half of an iteration), `Execute`
    (the `switch`) and `Step` are proved against the reference functions.
  - The method `CreatePdf` runs the loop and returns either the paragraphs
    or the exception that aborts the run.
- `properties.dfy`: what the interpreter guarantees, one line at a time
  and over a whole input.
- `scenarios.dfy`: worked inputs, with arbitrary text lines in place of the
  sample words.

The model follows the code where the command list at the top of
src/App.java, or the program's intended design, says otherwise:

- The italic command is `.italics` (src/App.java:165). The documented
  `.italic` (src/App.java:8) is ignored like any unknown token.
- `.normal` (src/App.java:12) has no case and does nothing.
- `.regular` also clears `justify` (src/App.java:197).
- `justify` is a one-shot flag, not a lasting fill mode. It is cleared after
  every text line (src/App.java:143), so only the first text line after
  `.fill` marks its paragraph justified.
- `.paragraph` and `.indent` keep `justify`, so a `.fill` before them still
  justifies the next paragraph.
- The flush commands leave `bold`, `italics` and `large` alone, so they carry
  into the new paragraph.
- `.fill` pads its paragraph by the constant 100 (src/App.java:178). `.indent n`
  pads by `10 * n` in 32-bit arithmetic (src/App.java:209), and `n` may be
  negative because `parseInt` accepts a sign. The value of `indentations` is
  never reused by a later paragraph.
- A malformed line aborts the whole run, because the exception escapes
  `createPdf`. Nothing skips the line or reports its line number. The
  malformed lines are:
  - a line of one space or more and nothing else: `split` yields no token, so `lineArgs[0]`
    throws, after the line was already added as a run;
  - `.indent` without an argument: `lineArgs[1]` throws;
  - `.indent` with an argument that `parseInt` rejects.

## Model

| member | source | states |
|---|---|---|
| JavaLang.Split | src/App.java:147 | every piece of `split(" ")` is free of spaces; JoinFields, FieldsOne, SplitEmptyIff, SplitHead and SplitIsFieldsPrefix fix its result on every line |
| JavaLang.ParseInt | src/App.java:202 | `Integer.parseInt`, `None` where it throws; ParseIntAccepts and ParseIntOfDigits together state exactly which strings it accepts and their value, ParseIntToString its round trip with `toString` |
| JavaLang.Wrap32 | src/App.java:209 | the result is a Java `int` congruent to the exact value modulo 2^32, and equal to it when the exact value fits |
| JavaLangLemmas.JoinFields | src/App.java:147 | joining the pieces between the spaces with single spaces gives back the line |
| JavaLangLemmas.SplitEmptyIff | src/App.java:147-148 | `split(" ")` returns no piece exactly when the line is non-empty and made only of spaces |
| JavaLangLemmas.SplitHead | src/App.java:147-148 | the first piece of `split(" ")` is the text of the line before its first space (the whole line when it has none) |
| JavaLangLemmas.SplitFirstWord | src/App.java:147-151 | a word followed by a space is the first piece, whatever follows it |
| JavaLangLemmas.FieldsOne | src/App.java:147 | a string without a space is one piece, itself |
| JavaLangLemmas.SplitIsFieldsPrefix | src/App.java:147 | `split(" ")` keeps the leading pieces between the spaces and drops only empty trailing ones; a line without a space gives exactly itself, and on a line with a space all trailing empty pieces go, so the last piece, if any, is non-empty |
| JavaLangLemmas.ParseIntToString | src/App.java:202 | `parseInt` reads every `int`'s decimal form, negative ones included, back as that `int` |
| JavaLangLemmas.ParseIntAccepts | src/App.java:202 | an accepted string is an optional sign and one digit or more, and its value is the signed digit value; empty, `-` and `+` are rejected |
| JavaLangLemmas.ParseIntOfDigits | src/App.java:202 | conversely, one digit or more, bare or after `+` or `-`, is accepted exactly when its signed value fits in an `int`, and is read as that value (leading zeros, `+5` and `-0` included); out of range gives the exception |
| JavaLangLemmas.TenTimesInRange | src/App.java:209 | `10 * n` does not wrap for an indent of at most 214748364 in magnitude |
| Interpreter.TakeText | src/App.java:125-144 | the text half of one iteration; TextLineStep states its effect on a text line that is not only spaces, and CommandLineStep that a command line is left unchanged; for a line of spaces, the run added before `lineArgs[0]` throws is stated by PdfCompiler.Step |
| Interpreter.Dispatch | src/App.java:151-213 | the `switch` on the first token; StyleCommandStep, FlushCommandStep, IndentStep, UnknownCommandStep and OpenedPaddingByCommand state each case |
| Interpreter.NextState | src/App.java:124-213 | one iteration: the text half, then `split` and the `switch`; StepShape states the two shapes of a step and LineErrorIsStateFree when it throws |
| Interpreter.StateAfter | src/App.java:124-214 | the loop over the lines, stopping at the first exception; StateAfterOkIff, StateAfterError and StopsAtError characterise it |
| Interpreter.Compile | src/App.java:124-218 | the loop plus the final `document.add(current)`; CompileSucceedsIff, RunsAreTextLines, ParagraphCount, ParagraphPaddings and DocumentAppendOnly characterise it |
| Interpreter.PdfCompiler.constructor | src/App.java:103-121 | all flags off, indentation 0, an empty open paragraph with no padding, an empty document |
| Interpreter.PdfCompiler.FlushParagraph | src/App.java:154-157 | the open paragraph is appended to the document and a new empty one with the given padding is opened |
| Interpreter.PdfCompiler.TakeTextLine | src/App.java:125-144 | a text line is added as a run in the font the flags select (italics over bold), size 22 or 12; `justify` marks the paragraph; all four flags are cleared; command lines change nothing |
| Interpreter.PdfCompiler.Execute | src/App.java:151-213 | the fields become exactly the reference dispatch's state; on a bad `.indent` argument the exception is reported and no field changes |
| Interpreter.PdfCompiler.Step | src/App.java:124-213 | the fields become exactly the reference state after the line; on an exception the text half has still happened |
| Interpreter.CreatePdf | src/App.java:102-218 | the loop plus the final flush return exactly the reference document, or the reference exception |
| Interpreter.StopsAtError | src/App.java:124-214 | once a line has thrown, the lines after it have no effect on the outcome |
| Properties.TextLineHasNoCommand | src/App.java:125-151 | the first token of a text line never starts with `.`, so a text line dispatches no command |
| Properties.LineErrorIsStateFree | src/App.java:147-202 | whether a line throws, and which exception, depends on the line alone and not on the state |
| Properties.TextLineStep | src/App.java:125-144 | a text line that is not only spaces adds exactly one run with its content verbatim: Oblique iff `italics`, Bold iff `bold` without `italics`, size 22 iff `large`, else 12. Afterwards all flags are off, the paragraph is justified iff it was or `justify` was set, and padding, document and indentation are unchanged |
| Properties.StyleDoesNotCarryOver | src/App.java:131-143 | `.bold` and then two text lines give one bold run and then one regular run |
| Properties.StyleCommandStep | src/App.java:161-198 | the style commands never touch the document or the open paragraph; `.bold`, `.italics` and `.large` each set only their own flag, and `.regular` clears all four |
| Properties.FlushCommandStep | src/App.java:152-212 | a well-formed flush command appends the open paragraph exactly once and opens an empty unjustified one with the line's padding; `bold`, `italics` and `large` are kept; `justify` is set by `.fill`, cleared by `.nofill`, kept by `.paragraph` and `.indent`; `indentations` becomes the `.indent` argument and is otherwise kept |
| Properties.OpenedPaddingByCommand | src/App.java:155-210 | `.paragraph` and `.nofill` open with no padding, `.fill` with 100, and `.indent n` with `10 * n` modulo 2^32, equal to `10 * n` when that fits |
| Properties.UnknownCommandStep | src/App.java:151-213 | a command line whose first token is none of the eight commands leaves the whole state unchanged |
| Properties.DocumentedButUnhandled | src/App.java:8-12 | `.normal` and `.italic` leave the whole state unchanged |
| Properties.TrailingTokensIgnored | src/App.java:147-151 | `.bold` followed by a space and anything acts exactly as `.bold` |
| Properties.IndentStep | src/App.java:200-212 | `.indent` alone throws the missing-argument error, and a rejected argument throws the invalid-argument error; with an `int` `n` it records `n`, seals the paragraph and opens one padded by `10 * n` wrapped to 32 bits |
| Properties.FillJustifiesNextText | src/App.java:134-182 | after `.fill` the open paragraph is empty with padding 100 and `justify` set; the next text line marks it justified and clears the flag |
| Properties.NofillAndRegularClearJustify | src/App.java:184-198 | `.nofill` seals and opens an unpadded paragraph with `justify` cleared; `.regular` clears `justify` and keeps the open paragraph |
| Properties.StepShape | src/App.java:124-213 | a step either seals the open paragraph and opens a fresh one (flush lines, always command lines), or keeps its padding, keeps it justified once marked, and appends one run exactly for a text line |
| Properties.StateAfterOkIff | src/App.java:124-214 | the loop completes iff no line of the input is malformed |
| Properties.StateAfterError | src/App.java:124-214 | when the loop throws, the exception is the one raised by the first malformed line |
| Properties.CompileSucceedsIff | src/App.java:124-218 | a document is produced iff no line is malformed; otherwise the error is that of the first malformed line |
| Properties.RunsAreTextLines | src/App.java:124-218 | the contents of all runs, in document order, are exactly the input's text lines, verbatim and in input order; command lines never become runs |
| Properties.ParagraphCount | src/App.java:119-218 | the document has one paragraph more than the input has flush lines (`.paragraph`, `.fill`, `.nofill`, `.indent`), empty paragraphs included |
| Properties.ParagraphPaddings | src/App.java:152-218 | the first paragraph has no padding, and each later one has the padding its own flush line selects, in order |
| Properties.DocumentAppendOnly | src/App.java:154-212 | paragraphs already sealed are never changed or removed by later lines |
| Scenarios.EmptyInput | src/App.java:119-218 | empty input gives exactly one paragraph with no runs, no padding and no justification |
| Scenarios.BoldThenText | src/App.java:124-144 | `.bold` then a text line x leaves one bold run x and no flag set |
| Scenarios.ParagraphThenText | src/App.java:152-159 | from any state with no flag set, `.paragraph` only seals the open paragraph, and a following text line gets a plain paragraph of its own |
| Scenarios.BoldThenParagraph | src/App.java:124-218 | `.bold`, x, `.paragraph`, y gives a paragraph with x in bold, then one with y in the regular font, neither padded nor justified |
| Scenarios.FillScenario | src/App.java:173-218 | `.fill`, x gives an empty plain paragraph, then a justified paragraph padded by 100 holding x |

## Left out

- `main` and `readInputFile` (src/App.java:35-79) are not modelled. They do file and console I/O and print exceptions; the model takes the input lines as a value.
- The iText objects (src/App.java:90-100, 115-117) are not modelled: `PdfDocument`, `PdfWriter`, `Document`, the font loading and `document.close()` (src/App.java:221). Fonts are the `Font` enumeration and paragraphs are records.
- Each `Run` holds its effective font and size. A `Text` without `setFont` or `setFontSize` inherits the paragraph's Helvetica at 12. The model stores that value instead of "unset".
- The null `document` after a `FileNotFoundException` on the output file (src/App.java:98-100) is not modelled. It is a resource failure of the renderer.
- Output the renderer may already have written when a line throws is not modelled. The iText document is then never closed; the model returns only the exception.
- Rendering is not modelled: justification, padding in points, pagination and glyphs belong to the renderer.
- Interpreter.PdfCompiler.FlushParagraph: `setPaddingLeft` takes a `float`, so `int` values beyond 2^24 in magnitude would be rounded. The model keeps the exact (wrapped) `int`.
- JavaLang.ParseInt: only ASCII digits are accepted. `Character.digit` also accepts other Unicode decimal digits (for example Arabic-Indic or full-width digits). Those are rejected here, so such an `.indent` argument is reported as invalid.
