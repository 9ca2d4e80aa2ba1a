/**
 * What the interpreter guarantees, stated against definitions that do not
 * mention its state: which lines become runs, how many paragraphs come out,
 * which padding each one has, which lines abort the run, and the effect of
 * each command on the flags and the open paragraph.
 */
module Properties {
  import opened Wrappers
  import opened JavaLang
  import opened JavaLangLemmas
  import opened Layout
  import opened Interpreter

  // ---------------------------------------------------------------------------
  // Reading a line without running it

  predicate IsTextLine(line: string) {
    !IsCommandLine(line)
  }

  /** The token the `switch` dispatches on (`""` for a line of spaces, which has none). */
  function Command(line: string): string {
    var lineArgs := Split(line);
    if lineArgs == [] then "" else lineArgs[0]
  }

  predicate IsFlushCommand(c: string) {
    c == ".paragraph" || c == ".fill" || c == ".nofill" || c == ".indent"
  }

  predicate IsStyleCommand(c: string) {
    c == ".bold" || c == ".italics" || c == ".large" || c == ".regular"
  }

  predicate IsFlushLine(line: string) {
    IsFlushCommand(Command(line))
  }

  /** The exception a line raises, whatever the state it is read in. */
  function LineError(line: string): Option<ErrorKind> {
    var lineArgs := Split(line);
    if lineArgs == [] then Some(NoCommandToken)
    else if lineArgs[0] != ".indent" then None
    else if |lineArgs| < 2 then Some(MissingIndentArgument)
    else if ParseInt(lineArgs[1]).None? then Some(InvalidIndentArgument)
    else None
  }

  /** Line `i` is the first that raises, and it raises `e`. */
  predicate FirstMalformed(lines: seq<string>, i: int, e: ErrorKind) {
    && 0 <= i < |lines|
    && LineError(lines[i]) == Some(e)
    && forall j :: 0 <= j < i ==> LineError(lines[j]).None?
  }

  /** The left padding of the paragraph a flush line opens. */
  function OpenedPadding(line: string): int {
    var lineArgs := Split(line);
    if Command(line) == ".fill" then FillPadding
    else if Command(line) == ".indent" && |lineArgs| >= 2 && ParseInt(lineArgs[1]).Some? then
      Wrap32(IndentUnit * ParseInt(lineArgs[1]).value)
    else 0
  }

  // ---------------------------------------------------------------------------
  // Views of a whole input and a whole document

  function TextLines(lines: seq<string>): seq<string> {
    if lines == [] then []
    else TextLines(lines[..|lines| - 1]) + (if IsTextLine(lines[|lines| - 1]) then [lines[|lines| - 1]] else [])
  }

  function FlushLines(lines: seq<string>): seq<string> {
    if lines == [] then []
    else FlushLines(lines[..|lines| - 1]) + (if IsFlushLine(lines[|lines| - 1]) then [lines[|lines| - 1]] else [])
  }

  function OpenedPaddings(lines: seq<string>): seq<int> {
    if lines == [] then []
    else OpenedPaddings(lines[..|lines| - 1]) + (if IsFlushLine(lines[|lines| - 1]) then [OpenedPadding(lines[|lines| - 1])] else [])
  }

  /** All runs of a document in reading order. */
  function AllRuns(ps: seq<Paragraph>): seq<Run> {
    if ps == [] then [] else AllRuns(ps[..|ps| - 1]) + ps[|ps| - 1].runs
  }

  function Contents(rs: seq<Run>): seq<string> {
    if rs == [] then [] else Contents(rs[..|rs| - 1]) + [rs[|rs| - 1].content]
  }

  function Paddings(ps: seq<Paragraph>): seq<int> {
    if ps == [] then [] else Paddings(ps[..|ps| - 1]) + [ps[|ps| - 1].paddingLeft]
  }

  lemma {:induction false} ContentsAppend(a: seq<Run>, b: seq<Run>)
    ensures Contents(a + b) == Contents(a) + Contents(b)
    decreases |b|
  {
    if b != [] {
      var b' := b[..|b| - 1];
      assert (a + b)[..|a + b| - 1] == a + b';
      assert (a + b)[|a + b| - 1] == b[|b| - 1];
      ContentsAppend(a, b');
      calc {
        Contents(a + b);
        Contents(a + b') + [b[|b| - 1].content];
        Contents(a) + Contents(b') + [b[|b| - 1].content];
        Contents(a) + (Contents(b') + [b[|b| - 1].content]);
        Contents(a) + Contents(b);
      }
    } else {
      assert a + b == a;
    }
  }

  // ---------------------------------------------------------------------------
  // One line

  /** A text line never dispatches a command: its first token does not start with `.`. */
  lemma TextLineHasNoCommand(line: string)
    requires IsTextLine(line)
    ensures Command(line) == "" || Command(line)[0] != '.'
  {
    if Split(line) != [] {
      SplitHead(line);
      if Command(line) != "" {
        assert Command(line)[0] == line[0];
      }
    }
  }

  /** Whether a line aborts the run depends on the line alone, and so does the exception. */
  lemma LineErrorIsStateFree(s: State, line: string)
    ensures NextState(s, line).Err? <==> LineError(line).Some?
    ensures NextState(s, line).Err? ==> NextState(s, line).error == LineError(line).value
  {
  }

  /** A command written alone on its line is its own single token. */
  lemma SplitOfCommandNames()
    ensures Split(".paragraph") == [".paragraph"] && Split(".fill") == [".fill"]
    ensures Split(".nofill") == [".nofill"] && Split(".indent") == [".indent"]
    ensures Split(".bold") == [".bold"] && Split(".italics") == [".italics"]
    ensures Split(".large") == [".large"] && Split(".regular") == [".regular"]
    ensures Split(".normal") == [".normal"] && Split(".italic") == [".italic"]
  {
    assert NoSpace(".paragraph") && NoSpace(".fill") && NoSpace(".nofill") && NoSpace(".indent");
    assert NoSpace(".bold") && NoSpace(".italics") && NoSpace(".large") && NoSpace(".regular");
    assert NoSpace(".normal") && NoSpace(".italic");
  }

  /** On a command line with a token, the step is the dispatch on its tokens. */
  lemma CommandLineStep(s: State, line: string)
    requires IsCommandLine(line) && Split(line) != []
    ensures NextState(s, line) == Dispatch(s, Split(line))
  {
  }

  /** Every command name starts with `.`, so a line whose token is one is a command line. */
  lemma KnownCommandIsCommandLine(line: string)
    requires IsFlushLine(line) || IsStyleCommand(Command(line))
    ensures IsCommandLine(line) && Split(line) != []
  {
    if IsTextLine(line) {
      TextLineHasNoCommand(line);
    }
  }

  /**
   * A text line that is not only spaces adds exactly one run, with its
   * content verbatim: Oblique when `.italics` was set, Bold when only
   * `.bold` was, Regular otherwise, size 22 after `.large` and 12 otherwise.
   * All four flags are then off, and a set `justify` marks the paragraph.
   */
  lemma TextLineStep(s: State, line: string)
    requires IsTextLine(line) && !(|line| > 0 && AllSpaces(line))
    ensures NextState(s, line).Ok?
    ensures var t := NextState(s, line).value;
      && t.document == s.document
      && |t.current.runs| == |s.current.runs| + 1
      && t.current.runs[..|s.current.runs|] == s.current.runs
      && t.current.runs[|s.current.runs|].content == line
      && (t.current.runs[|s.current.runs|].font == Oblique <==> s.italics)
      && (t.current.runs[|s.current.runs|].font == Bold <==> s.bold && !s.italics)
      && (t.current.runs[|s.current.runs|].size == if s.large then 22 else 12)
      && t.current.paddingLeft == s.current.paddingLeft
      && t.current.justified == (s.current.justified || s.justify)
      && !t.bold && !t.italics && !t.large && !t.justify
      && t.indentations == s.indentations
  {
    SplitEmptyIff(line);
    TextLineHasNoCommand(line);
  }

  /** `.bold` followed by two text lines: one bold run, then one in the regular font. */
  lemma StyleDoesNotCarryOver(s: State, x: string, y: string)
    requires IsTextLine(x) && !(|x| > 0 && AllSpaces(x))
    requires IsTextLine(y) && !(|y| > 0 && AllSpaces(y))
    requires s.current.runs == [] && !s.italics && !s.large
    ensures NextState(s, ".bold").Ok?
    ensures var t := NextState(s, ".bold").value;
      NextState(t, x).Ok? &&
      var u := NextState(t, x).value;
      NextState(u, y).Ok? &&
      NextState(u, y).value.current.runs ==
        [Run(x, Bold, DefaultFontSize), Run(y, Regular, DefaultFontSize)]
  {
    SplitOfCommandNames();
    CommandLineStep(s, ".bold");
    var t := NextState(s, ".bold").value;
    TextLineStep(t, x);
    var u := NextState(t, x).value;
    TextLineStep(u, y);
  }

  /** The style commands set or clear flags and never flush; `.regular` also clears `justify`. */
  lemma StyleCommandStep(s: State, line: string)
    requires IsStyleCommand(Command(line))
    ensures NextState(s, line).Ok?
    ensures var t := NextState(s, line).value;
      && t.document == s.document && t.current == s.current && t.indentations == s.indentations
      && (Command(line) == ".bold" ==> t == s.(bold := true))
      && (Command(line) == ".italics" ==> t == s.(italics := true))
      && (Command(line) == ".large" ==> t == s.(large := true))
      && (Command(line) == ".regular" ==> !t.bold && !t.italics && !t.large && !t.justify)
  {
    if IsTextLine(line) {
      TextLineHasNoCommand(line);
    }
  }

  /**
   * A well-formed flush command seals the open paragraph and opens an empty
   * one with the padding the line selects; `bold`, `italics` and `large`
   * carry over to the new paragraph; `.fill` sets `justify`, `.nofill`
   * clears it, `.paragraph` and `.indent` keep it.
   */
  lemma FlushCommandStep(s: State, line: string)
    requires IsFlushLine(line) && LineError(line).None?
    ensures NextState(s, line).Ok?
    ensures var t := NextState(s, line).value;
      && t.document == s.document + [s.current]
      && t.current == Paragraph([], OpenedPadding(line), false)
      && t.bold == s.bold && t.italics == s.italics && t.large == s.large
      && t.justify == (Command(line) == ".fill" || (Command(line) != ".nofill" && s.justify))
      && t.indentations == (if Command(line) == ".indent" then ParseInt(Split(line)[1]).value else s.indentations)
  {
    KnownCommandIsCommandLine(line);
    CommandLineStep(s, line);
    var c := Command(line);
    if c == ".paragraph" {
      assert NextState(s, line) == Ok(Flush(s, 0));
    } else if c == ".fill" {
      assert NextState(s, line) == Ok(Flush(s, FillPadding).(justify := true));
    } else if c == ".nofill" {
      assert NextState(s, line) == Ok(Flush(s, 0).(justify := false));
    } else {
      var n := ParseInt(Split(line)[1]).value;
      assert NextState(s, line) == Ok(Flush(s.(indentations := n), Wrap32(IndentUnit * n)));
    }
  }

  /** The padding a flush opens: none for `.paragraph` and `.nofill`, 100 for `.fill`, ten times the (wrapped) argument for `.indent`. */
  lemma OpenedPaddingByCommand(line: string)
    requires IsFlushLine(line) && LineError(line).None?
    ensures Command(line) == ".paragraph" || Command(line) == ".nofill" ==> OpenedPadding(line) == 0
    ensures Command(line) == ".fill" ==> OpenedPadding(line) == 100
    ensures Command(line) == ".indent" ==>
      |Split(line)| >= 2 && ParseInt(Split(line)[1]).Some? &&
      var n := ParseInt(Split(line)[1]).value;
      (OpenedPadding(line) - 10 * n) % 0x1_0000_0000 == 0 &&
      (-214748364 <= n <= 214748364 ==> OpenedPadding(line) == 10 * n)
  {
    if Command(line) == ".indent" {
      var n := ParseInt(Split(line)[1]).value;
      if -214748364 <= n <= 214748364 {
        TenTimesInRange(n);
      }
    }
  }

  /** A command line whose first token is none of the eight commands changes nothing at all. */
  lemma UnknownCommandStep(s: State, line: string)
    requires IsCommandLine(line) && Split(line) != []
    requires !IsFlushCommand(Command(line)) && !IsStyleCommand(Command(line))
    ensures NextState(s, line) == Ok(s)
  {
  }

  /** The documented `.normal` and `.italic` are not commands of the code: they change nothing. */
  lemma DocumentedButUnhandled(s: State)
    ensures NextState(s, ".normal") == Ok(s)
    ensures NextState(s, ".italic") == Ok(s)
  {
    SplitOfCommandNames();
    CommandLineStep(s, ".normal");
    CommandLineStep(s, ".italic");
  }

  /** Only the first token is dispatched: `.bold extra` acts as `.bold`, whatever follows the space. */
  lemma TrailingTokensIgnored(s: State, rest: string)
    ensures NextState(s, ".bold " + rest) == NextState(s, ".bold") == Ok(s.(bold := true))
  {
    SplitOfCommandNames();
    SplitFirstWord(".bold", rest);
    assert ".bold" + " " + rest == ".bold " + rest;
    assert (".bold " + rest)[..1] == ".";
    CommandLineStep(s, ".bold " + rest);
    CommandLineStep(s, ".bold");
  }

  /**
   * `.indent` without an argument, or with one `Integer.parseInt` rejects,
   * aborts the run; with an `int` argument `n` it records `n`, seals the
   * paragraph and opens one padded by `10 * n` in 32-bit arithmetic.
   */
  lemma IndentStep(s: State, line: string)
    requires Command(line) == ".indent"
    ensures |Split(line)| < 2 ==> NextState(s, line) == Err(MissingIndentArgument)
    ensures |Split(line)| >= 2 && ParseInt(Split(line)[1]).None? ==>
      NextState(s, line) == Err(InvalidIndentArgument)
    ensures |Split(line)| >= 2 && ParseInt(Split(line)[1]).Some? ==>
      var n := ParseInt(Split(line)[1]).value;
      NextState(s, line) == Ok(s.(indentations := n,
                                  document := s.document + [s.current],
                                  current := NewParagraph(Wrap32(10 * n))))
  {
    assert IsCommandLine(line) by {
      if IsTextLine(line) { TextLineHasNoCommand(line); }
    }
  }

  /** After `.fill`, the next text line marks the new paragraph justified and clears the flag. */
  lemma FillJustifiesNextText(s: State, x: string)
    requires IsTextLine(x) && !(|x| > 0 && AllSpaces(x))
    ensures NextState(s, ".fill").Ok?
    ensures var t := NextState(s, ".fill").value;
      t.justify && t.current == NewParagraph(FillPadding) &&
      NextState(t, x).Ok? &&
      NextState(t, x).value.current.justified && !NextState(t, x).value.justify
  {
    SplitOfCommandNames();
    CommandLineStep(s, ".fill");
    TextLineStep(NextState(s, ".fill").value, x);
  }

  /** `.nofill` and `.regular` clear `justify` without marking any paragraph. */
  lemma NofillAndRegularClearJustify(s: State)
    ensures NextState(s, ".nofill") == Ok(s.(document := s.document + [s.current],
                                             current := NewParagraph(0), justify := false))
    ensures NextState(s, ".regular").Ok? && !NextState(s, ".regular").value.justify
    ensures NextState(s, ".regular").value.current == s.current
  {
    SplitOfCommandNames();
    CommandLineStep(s, ".nofill");
    CommandLineStep(s, ".regular");
  }

  /**
   * One successful step either seals the open paragraph (a flush line) or
   * keeps it, with one more run for a text line; sealed paragraphs are never
   * touched again, and an open paragraph once justified stays so.
   */
  lemma StepShape(s: State, line: string)
    requires NextState(s, line).Ok?
    ensures var t := NextState(s, line).value;
      && (IsFlushLine(line) ==>
            IsCommandLine(line) &&
            t.document == s.document + [s.current] &&
            t.current == NewParagraph(OpenedPadding(line)))
      && (!IsFlushLine(line) ==>
            t.document == s.document &&
            t.current.paddingLeft == s.current.paddingLeft &&
            (s.current.justified ==> t.current.justified) &&
            t.current.runs == s.current.runs + (if IsTextLine(line) then [TextRun(s, line)] else []))
  {
    if IsTextLine(line) {
      SplitEmptyIff(line);
      TextLineHasNoCommand(line);
    }
  }

  // ---------------------------------------------------------------------------
  // A whole input

  /** The loop throws exactly when some line is malformed. */
  lemma {:induction false} StateAfterOkIff(lines: seq<string>)
    ensures StateAfter(lines).Ok? <==> forall i :: 0 <= i < |lines| ==> LineError(lines[i]).None?
  {
    if lines != [] {
      var init := lines[..|lines| - 1];
      StateAfterOkIff(init);
      assert forall i :: 0 <= i < |init| ==> init[i] == lines[i];
      if StateAfter(init).Ok? {
        LineErrorIsStateFree(StateAfter(init).value, lines[|lines| - 1]);
      } else {
        var i :| 0 <= i < |init| && LineError(init[i]).Some?;
        assert lines[i] == init[i];
      }
    }
  }

  /** The exception is the one the first malformed line raises. */
  lemma {:induction false} StateAfterError(lines: seq<string>)
    requires StateAfter(lines).Err?
    ensures exists i :: FirstMalformed(lines, i, StateAfter(lines).error)
  {
    var init := lines[..|lines| - 1];
    assert forall i :: 0 <= i < |init| ==> init[i] == lines[i];
    if StateAfter(init).Err? {
      StateAfterError(init);
      var i :| FirstMalformed(init, i, StateAfter(init).error);
      assert FirstMalformed(lines, i, StateAfter(lines).error);
    } else {
      StateAfterOkIff(init);
      LineErrorIsStateFree(StateAfter(init).value, lines[|lines| - 1]);
      assert FirstMalformed(lines, |lines| - 1, StateAfter(lines).error);
    }
  }

  /** The document is produced exactly when no line is malformed, and the error is that of the first malformed line. */
  lemma CompileSucceedsIff(lines: seq<string>)
    ensures Compile(lines).Ok? <==> forall i :: 0 <= i < |lines| ==> LineError(lines[i]).None?
    ensures Compile(lines).Err? ==>
      exists i :: FirstMalformed(lines, i, Compile(lines).error)
  {
    StateAfterOkIff(lines);
    if StateAfter(lines).Err? {
      StateAfterError(lines);
    }
  }

  lemma {:induction false} AllRunsSnoc(ps: seq<Paragraph>, p: Paragraph)
    ensures AllRuns(ps + [p]) == AllRuns(ps) + p.runs
  {
    assert (ps + [p])[..|ps|] == ps;
  }

  lemma RunsAfterFlush(s: State, t: State)
    requires t.document == s.document + [s.current] && t.current.runs == []
    ensures Contents(AllRuns(t.document + [t.current])) == Contents(AllRuns(s.document + [s.current]))
  {
    AllRunsSnoc(t.document, t.current);
    assert AllRuns(t.document) + [] == AllRuns(t.document);
  }

  lemma RunsAfterAdd(s: State, t: State, extra: seq<Run>)
    requires t.document == s.document && t.current.runs == s.current.runs + extra
    ensures Contents(AllRuns(t.document + [t.current])) == Contents(AllRuns(s.document + [s.current])) + Contents(extra)
  {
    AllRunsSnoc(t.document, t.current);
    AllRunsSnoc(s.document, s.current);
    assert AllRuns(t.document + [t.current]) == (AllRuns(s.document) + s.current.runs) + extra;
    ContentsAppend(AllRuns(s.document) + s.current.runs, extra);
  }

  /** One step adds the line to the contents of the runs when it is text, and nothing otherwise. */
  lemma RunsStep(s: State, line: string)
    requires NextState(s, line).Ok?
    ensures var t := NextState(s, line).value;
      Contents(AllRuns(t.document + [t.current])) ==
        Contents(AllRuns(s.document + [s.current])) + (if IsTextLine(line) then [line] else [])
  {
    var t := NextState(s, line).value;
    StepShape(s, line);
    if IsFlushLine(line) {
      RunsAfterFlush(s, t);
    } else if IsTextLine(line) {
      RunsAfterAdd(s, t, [TextRun(s, line)]);
      assert Contents([TextRun(s, line)]) == [line];
    } else {
      RunsAfterAdd(s, t, []);
    }
  }

  /** The runs in the state after some lines are those lines' text lines, verbatim and in order. */
  lemma {:induction false} StateAfterRuns(lines: seq<string>)
    requires StateAfter(lines).Ok?
    ensures var s := StateAfter(lines).value;
      Contents(AllRuns(s.document + [s.current])) == TextLines(lines)
  {
    if lines == [] {
      assert Initial.document + [Initial.current] == [Initial.current];
      assert AllRuns([Initial.current]) == AllRuns([]) + [];
    } else {
      var init := lines[..|lines| - 1];
      StateAfterRuns(init);
      RunsStep(StateAfter(init).value, lines[|lines| - 1]);
    }
  }

  /** Every text line becomes exactly one run, verbatim and in input order; no command line does. */
  lemma RunsAreTextLines(lines: seq<string>)
    requires Compile(lines).Ok?
    ensures Contents(AllRuns(Compile(lines).value)) == TextLines(lines)
  {
    StateAfterRuns(lines);
  }

  /** One paragraph is sealed per flush line. */
  lemma {:induction false} StateAfterSealed(lines: seq<string>)
    requires StateAfter(lines).Ok?
    ensures |StateAfter(lines).value.document| == |FlushLines(lines)|
  {
    if lines != [] {
      StateAfterSealed(lines[..|lines| - 1]);
      StepShape(StateAfter(lines[..|lines| - 1]).value, lines[|lines| - 1]);
    }
  }

  /** The document has one paragraph more than the input has flush lines, empty paragraphs included. */
  lemma ParagraphCount(lines: seq<string>)
    requires Compile(lines).Ok?
    ensures |Compile(lines).value| == 1 + |FlushLines(lines)|
  {
    StateAfterSealed(lines);
  }

  /** The paddings of the paragraphs so far: none for the first, then the one each flush line opened. */
  lemma {:induction false} StateAfterPaddings(lines: seq<string>)
    requires StateAfter(lines).Ok?
    ensures var s := StateAfter(lines).value;
      Paddings(s.document + [s.current]) == [0] + OpenedPaddings(lines)
  {
    if lines != [] {
      var init := lines[..|lines| - 1];
      var line := lines[|lines| - 1];
      StateAfterPaddings(init);
      var s := StateAfter(init).value;
      var t := StateAfter(lines).value;
      StepShape(s, line);
      assert (t.document + [t.current])[..|t.document|] == t.document;
      assert (s.document + [s.current])[..|s.document|] == s.document;
    }
  }

  /**
   * Left padding of the document's paragraphs: the first has none, and the
   * next ones have, in order, the padding their own flush line selects (so
   * `.fill` gives 100 whatever `.indent` came before, and no indentation is
   * reused by a later paragraph).
   */
  lemma ParagraphPaddings(lines: seq<string>)
    requires Compile(lines).Ok?
    ensures Paddings(Compile(lines).value) == [0] + OpenedPaddings(lines)
  {
    StateAfterPaddings(lines);
  }

  /** Sealed paragraphs are never changed or removed by later lines. */
  lemma {:induction false} DocumentAppendOnly(lines: seq<string>, more: seq<string>)
    requires StateAfter(lines + more).Ok?
    ensures StateAfter(lines).Ok?
    ensures var s := StateAfter(lines).value; var t := StateAfter(lines + more).value;
      |s.document| <= |t.document| && t.document[..|s.document|] == s.document
    decreases |more|
  {
    if more == [] {
      assert lines + more == lines;
    } else {
      var init := more[..|more| - 1];
      assert (lines + more)[..|lines + more| - 1] == lines + init;
      DocumentAppendOnly(lines, init);
      StepShape(StateAfter(lines + init).value, (lines + more)[|lines + more| - 1]);
    }
  }
}
