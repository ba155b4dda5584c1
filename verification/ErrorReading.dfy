/** Reading a rendered error back: each field by the label of its line, with a reader written from the format alone. */
module ErrorReading {
  import opened Results
  import opened CanonicalJson
  import opened ErrorText

  /** The rest of a line that starts with the label. */
  function AfterLabel(line: Text, tag: Text): Option<Text> {
    if tag <= line then Some(line[|tag|..]) else None
  }

  /** What follows the label on the first line that has it. */
  function Labelled(lines: seq<Text>, tag: Text): Option<Text>
    decreases |lines|
  {
    if lines == [] then None
    else if AfterLabel(lines[0], tag).Some? then AfterLabel(lines[0], tag) else Labelled(lines[1..], tag)
  }

  function ReadEscaped(text: Text, tag: Text): Option<Text> {
    var raw := Labelled(Split(text), tag);
    if raw.Some? then Unescape(raw.value) else None
  }

  lemma ApartLines(a: Text, x: Text, b: Text)
    requires Apart(a, b)
    ensures AfterLabel(a + x, b).None?
  {
    var k :| 0 <= k < |a| && k < |b| && a[k] != b[k];
    assert (a + x)[k] == a[k];
  }

  lemma ApartTurns(a: Text, b: Text)
    requires Apart(a, b)
    ensures Apart(b, a)
  {
    var k :| 0 <= k < |a| && k < |b| && a[k] != b[k];
  }

  lemma LabelOfItself(tag: Text, value: Text)
    ensures AfterLabel(tag + value, tag) == Some(value)
  {
    assert (tag + value)[|tag|..] == value;
  }

  lemma {:induction false} LabelAbsent(fields: seq<Field>, tag: Text)
    requires forall i | 0 <= i < |fields| :: Apart(tag, fields[i].tag)
    ensures Labelled(Present(fields), tag).None?
    decreases |fields|
  {
    if fields != [] {
      hide Apart, AfterLabel;
      PresentSplit(fields);
      LabelAbsent(fields[1..], tag);
      if fields[0].value.Some? {
        ApartTurns(tag, fields[0].tag);
        ApartLines(fields[0].tag, fields[0].value.value, tag);
        assert Present(fields)[1..] == Present(fields[1..]);
      }
    }
  }

  /** Among lines with labels apart, each present field is found under its own label, and an absent one nowhere. */
  lemma {:induction false} LabelFinds(fields: seq<Field>, k: nat)
    requires k < |fields| && LabelsApart(fields)
    ensures Labelled(Present(fields), fields[k].tag) == fields[k].value
    decreases |fields|
  {
    hide Apart, AfterLabel;
    PresentSplit(fields);
    if fields[0].value.Some? {
      assert Present(fields)[1..] == Present(fields[1..]);
    }
    if k == 0 {
      if fields[0].value.Some? {
        LabelOfItself(fields[0].tag, fields[0].value.value);
      } else {
        LabelAbsent(fields[1..], fields[0].tag);
      }
    } else {
      assert fields[1..][k - 1] == fields[k];
      LabelFinds(fields[1..], k - 1);
      if fields[0].value.Some? {
        ApartLines(fields[0].tag, fields[0].value.value, fields[k].tag);
      }
    }
  }

  /** The header names no field. */
  lemma HeaderHasNoLabel(e: ToolError, tag: Text)
    requires tag != [] && tag[0] == SPACE
    ensures AfterLabel(Header(e), tag).None?
  {
    assert Header(e)[0] == 91;
  }

  /** Each field's line is found by its label in the rendered text. */
  lemma RowsRead(e: ToolError)
    requires Acceptable(e)
    ensures Render(e).Ok?
    ensures forall k | 0 <= k < |Fields(e)| :: Labelled(Split(Render(e).value), Fields(e)[k].tag) == Fields(e)[k].value
  {
    RenderedLines(e);
    AllLabelsApart(e);
    var fields := Fields(e);
    TagsIndented(e);
    hide Fields, Header, LabelsApart, Acceptable, Split, AfterLabel, Present;
    assert Lines(e)[1..] == Present(fields) && Lines(e)[0] == Header(e);
    forall k | 0 <= k < |fields| ensures Labelled(Lines(e), fields[k].tag) == fields[k].value {
      LabelFinds(fields, k);
      HeaderHasNoLabel(e, fields[k].tag);
    }
  }

  lemma TagsIndented(e: ToolError)
    ensures forall k | 0 <= k < |Fields(e)| :: Fields(e)[k].tag != [] && Fields(e)[k].tag[0] == SPACE
  {
    hide Escaped, SegmentOf, RetryText;
  }

  lemma ReadValue(value: Option<Text>)
    ensures Escaped(value).Some? <==> value.Some?
    ensures value.Some? ==> Unescape(Escaped(value).value) == value
  {
    if value.Some? { EscapeRoundTrip(value.value); }
  }

  /** What went wrong is read back exactly, present or absent: the field and where the error comes from. */
  lemma PlaceReadsBack(e: ToolError)
    requires Acceptable(e)
    ensures Render(e).Ok?
    ensures ReadEscaped(Render(e).value, Ascii("  Field: ")) == e.fieldPath
    ensures ReadEscaped(Render(e).value, Ascii("  Source: ")) == e.source
  {
    hide Ascii, Escape, Unescape, Split, Render, Labelled, Acceptable, Fields, Escaped;
    RowsRead(e);
    ReadValue(e.fieldPath);
    ReadValue(e.source);
    PlaceRows(e);
  }

  lemma PlaceRows(e: ToolError)
    ensures |Fields(e)| == 9
    ensures Fields(e)[0] == Field(Ascii("  Field: "), Escaped(e.fieldPath)) && Fields(e)[3] == Field(Ascii("  Source: "), Escaped(e.source))
  {
    hide Ascii, RetryText, Escaped, SegmentOf;
  }

  /** So is what was expected and what was there. */
  lemma MismatchReadsBack(e: ToolError)
    requires Acceptable(e)
    ensures Render(e).Ok?
    ensures ReadEscaped(Render(e).value, Ascii("  Expected: ")) == e.expected
    ensures ReadEscaped(Render(e).value, Ascii("  Actual: ")) == e.actual
  {
    hide Ascii, Escape, Unescape, Split, Render, Labelled, Acceptable, Fields, Escaped;
    RowsRead(e);
    ReadValue(e.expected);
    ReadValue(e.actual);
    MismatchRows(e);
  }

  lemma MismatchRows(e: ToolError)
    ensures |Fields(e)| == 9
    ensures Fields(e)[1] == Field(Ascii("  Expected: "), Escaped(e.expected)) && Fields(e)[2] == Field(Ascii("  Actual: "), Escaped(e.actual))
  {
    hide Ascii, RetryText, Escaped, SegmentOf;
  }

  /** So is what to do about it. */
  lemma RemedyReadsBack(e: ToolError)
    requires Acceptable(e)
    ensures Render(e).Ok?
    ensures ReadEscaped(Render(e).value, Ascii("  Checklist: ")) == e.checklist
    ensures ReadEscaped(Render(e).value, Ascii("  Resume: ")) == e.resume
  {
    hide Ascii, Escape, Unescape, Split, Render, Labelled, Acceptable, Fields, Escaped;
    RowsRead(e);
    ReadValue(e.checklist);
    ReadValue(e.resume);
    RemedyRows(e);
  }

  lemma RemedyRows(e: ToolError)
    ensures |Fields(e)| == 9
    ensures Fields(e)[5] == Field(Ascii("  Checklist: "), Escaped(e.checklist)) && Fields(e)[7] == Field(Ascii("  Resume: "), Escaped(e.resume))
  {
    hide Ascii, RetryText, Escaped, SegmentOf;
  }

  /** And where to follow it up. */
  lemma TrackerReadsBack(e: ToolError)
    requires Acceptable(e)
    ensures Render(e).Ok?
    ensures ReadEscaped(Render(e).value, Ascii("  Tracker: ")) == e.tracker
  {
    RowsRead(e);
    ReadValue(e.tracker);
    hide Ascii, Escape, Unescape, Split, Render, Labelled, Acceptable, RetryText, Escaped, SegmentOf;
    assert Fields(e)[6] == Field(Ascii("  Tracker: "), Escaped(e.tracker));
    hide Fields;
  }

  /** The words of the retry line. */
  predicate AdviceWords(retry: Retry, words: Text) {
    match retry
    case RetryCall => words == Ascii("retry")
    case DoNotRetry => words == Ascii("do-not-retry")
    case NeedsHuman => words == Ascii("needs-human")
    case RestartExecution => words == Ascii("restart-execution")
  }

  /** The retry line is always there, and says in words what the caller may do. */
  lemma AdviceReadsBack(e: ToolError)
    requires Acceptable(e)
    ensures Render(e).Ok?
    ensures Labelled(Split(Render(e).value), Ascii("  Retry: ")).Some?
    ensures AdviceWords(e.retry, Labelled(Split(Render(e).value), Ascii("  Retry: ")).value)
  {
    RowsRead(e);
    assert AdviceWords(e.retry, RetryText(e.retry));
    hide Ascii, Escape, Split, Render, Labelled, Acceptable, RetryText, Escaped, SegmentOf;
    assert Fields(e)[8] == Field(Ascii("  Retry: "), Some(RetryText(e.retry)));
    hide Fields, AdviceWords;
  }

  /** The first line opens with the bracketed code, then the escaped message. */
  lemma HeaderReadsBack(e: ToolError)
    requires Acceptable(e)
    ensures Render(e).Ok?
    ensures [91] + e.code + [CLOSE_BRACKET, SPACE] <= Split(Render(e).value)[0]
    ensures Unescape(Split(Render(e).value)[0][|e.code| + 3..]) == Some(e.message)
  {
    RenderedLines(e);
    HeaderShape(e);
    EscapeRoundTrip(e.message);
    hide Fields, Present, Escape, Unescape, Acceptable, Split, Header, Render;
    var front := [91] + e.code + [CLOSE_BRACKET, SPACE];
    assert (front + Escape(e.message))[|front|..] == Escape(e.message);
    assert Lines(e)[0] == Header(e);
  }

  lemma HeaderShape(e: ToolError)
    requires Acceptable(e)
    ensures Header(e) == [91] + e.code + [CLOSE_BRACKET, SPACE] + Escape(e.message)
  {
    CodeIsUnescaped(e.code);
    hide Escape;
    assert Ascii("[") == [91] && Ascii("] ") == [CLOSE_BRACKET, SPACE];
  }

  // ---- which errors are rendered at all ------------------------------------------------------

  predicate Between(u: CodeUnit, first: char, last: char) {
    first as int <= u <= last as int
  }

  predicate Is(u: CodeUnit, c: char) { u == c as int }

  /** A capital letter, then up to 63 capitals, digits, underscores, dots, colons or slashes. */
  predicate CodeShape(code: Text) {
    && 0 < |code| < 65 && Between(code[0], 'A', 'Z')
    && forall i | 0 <= i < |code| ::
         Between(code[i], 'A', 'Z') || Between(code[i], '0', '9') || Is(code[i], '_') || Is(code[i], '.') || Is(code[i], ':') || Is(code[i], '/')
  }

  /** Letters, digits, underscores, dots, brackets, colons and dashes. */
  predicate PathShape(path: Text) {
    && 0 < |path|
    && forall i | 0 <= i < |path| ::
         || Between(path[i], 'A', 'Z') || Between(path[i], 'a', 'z') || Between(path[i], '0', '9') || Is(path[i], '_') || Is(path[i], '.')
         || Is(path[i], '[') || Is(path[i], ']') || Is(path[i], ':') || Is(path[i], '-')
  }

  /** An error is rendered exactly when its code and path have their shape and no text it gives is empty. */
  lemma RendersIff(e: ToolError)
    ensures Render(e).Ok? <==>
      && CodeShape(e.code) && e.message != [] && (e.fieldPath.Some? ==> PathShape(e.fieldPath.value))
      && e.expected != Some([]) && e.actual != Some([]) && e.source != Some([])
      && e.checklist != Some([]) && e.tracker != Some([]) && e.resume != Some([])
      && (e.call.Some? ==> e.call.value.callId != [] && e.call.value.toolName != Some([]) && e.call.value.executionId != Some([]))
  {
    assert StableCode(e.code) <==> CodeShape(e.code);
    if e.fieldPath.Some? {
      var path := e.fieldPath.value;
      assert (path != [] && forall i | 0 <= i < |path| :: PathUnit(path[i])) <==> PathShape(path);
    }
    hide StableCode, CodeShape, PathUnit, PathShape, Lines;
  }
}
