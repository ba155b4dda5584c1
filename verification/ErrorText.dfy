/** The rendered form of an actionable tool error: escaping, lines, and what the text determines. */
module ErrorText {
  import opened Results
  import opened CanonicalJson

  const NEWLINE: CodeUnit := 10
  const BACKSLASH: CodeUnit := 92
  const SPACE: CodeUnit := 32
  const CLOSE_BRACKET: CodeUnit := 93

  /** An ASCII literal as code units. */
  function Ascii(s: string): (t: Text)
    requires forall i | 0 <= i < |s| :: s[i] as int < 128
    ensures |t| == |s| && forall i | 0 <= i < |s| :: t[i] == s[i] as int
  {
    seq(|s|, i requires 0 <= i < |s| => s[i] as int)
  }

  // ---- escaping ------------------------------------------------------------------------------

  function Hex(n: int): CodeUnit
    requires 0 <= n < 16
  {
    if n < 10 then 48 + n else 87 + n
  }

  function EscapeUnit(u: CodeUnit): Text {
    if u == BACKSLASH then [BACKSLASH, BACKSLASH]
    else if u == 10 then [BACKSLASH, 110]
    else if u == 13 then [BACKSLASH, 114]
    else if u == 9 then [BACKSLASH, 116]
    else if u < 32 then [BACKSLASH, 120, Hex(u / 16), Hex(u % 16)]
    else [u]
  }

  function Escape(s: Text): Text
    decreases |s|
  {
    if s == [] then [] else EscapeUnit(s[0]) + Escape(s[1..])
  }

  method EscapeErrorValue(value: Text) returns (out: Text)
    ensures out == Escape(value)
  {
    out := [];
    assert value[0..] == value;
    for i := 0 to |value|
      invariant out + Escape(value[i..]) == Escape(value)
    {
      assert value[i..][0] == value[i] && value[i..][1..] == value[i + 1..];
      assert out + (EscapeUnit(value[i]) + Escape(value[i + 1..])) == (out + EscapeUnit(value[i])) + Escape(value[i + 1..]);
      out := out + EscapeUnit(value[i]);
    }
    assert out + [] == out;
  }

  /** A decoder written from the format alone. */
  function HexValue(u: CodeUnit): Option<int> {
    if 48 <= u <= 57 then Some(u - 48) else if 97 <= u <= 102 then Some(u - 87) else None
  }

  function Unescape(t: Text): Option<Text>
    decreases |t|
  {
    if t == [] then Some([])
    else if t[0] != BACKSLASH then Prepend(t[0], Unescape(t[1..]))
    else if |t| < 2 then None
    else if t[1] == BACKSLASH then Prepend(BACKSLASH, Unescape(t[2..]))
    else if t[1] == 110 then Prepend(10, Unescape(t[2..]))
    else if t[1] == 114 then Prepend(13, Unescape(t[2..]))
    else if t[1] == 116 then Prepend(9, Unescape(t[2..]))
    else if t[1] == 120 && |t| >= 4 && HexValue(t[2]).Some? && HexValue(t[3]).Some?
    then Prepend(HexValue(t[2]).value * 16 + HexValue(t[3]).value, Unescape(t[4..]))
    else None
  }

  function Prepend(u: CodeUnit, rest: Option<Text>): Option<Text> {
    if rest.Some? then Some([u] + rest.value) else None
  }

  lemma UnescapeUnit(u: CodeUnit, rest: Text)
    ensures Unescape(EscapeUnit(u) + rest) == Prepend(u, Unescape(rest))
  {
    var t := EscapeUnit(u) + rest;
    assert t[|EscapeUnit(u)|..] == rest;
    if u < 32 && u != 10 && u != 13 && u != 9 {
      assert HexValue(Hex(u / 16)) == Some(u / 16) && HexValue(Hex(u % 16)) == Some(u % 16);
      assert t[2] == Hex(u / 16) && t[3] == Hex(u % 16);
    }
  }

  /** The decoder recovers every string, and an escaped value has no control character left. */
  lemma {:induction false} EscapeRoundTrip(s: Text)
    ensures Unescape(Escape(s)) == Some(s)
    ensures forall i | 0 <= i < |Escape(s)| :: Escape(s)[i] >= 32
    decreases |s|
  {
    if s != [] {
      EscapeRoundTrip(s[1..]);
      UnescapeUnit(s[0], Escape(s[1..]));
      assert s == [s[0]] + s[1..];
    }
  }

  lemma EscapeInjective(s: Text, t: Text)
    requires Escape(s) == Escape(t)
    ensures s == t
  {
    EscapeRoundTrip(s);
    EscapeRoundTrip(t);
  }

  // ---- the error ----------------------------------------------------------------------------------

  datatype CallRef = CallRef(callId: Text, toolName: Option<Text>, executionId: Option<Text>)

  datatype Retry = RetryCall | DoNotRetry | NeedsHuman | RestartExecution

  datatype ToolError = ToolError(
    code: Text,
    message: Text,
    fieldPath: Option<Text>,
    expected: Option<Text>,
    actual: Option<Text>,
    source: Option<Text>,
    call: Option<CallRef>,
    checklist: Option<Text>,
    tracker: Option<Text>,
    resume: Option<Text>,
    retry: Retry)

  predicate Upper(u: CodeUnit) { 65 <= u <= 90 }

  /** A capital, then at most 63 capitals, digits, underscores, dots, colons or slashes. */
  predicate StableCode(code: Text) {
    && 1 <= |code| <= 64 && Upper(code[0])
    && forall i | 0 <= i < |code| :: Upper(code[i]) || IsDigit(code[i]) || code[i] == 95 || code[i] == 46 || code[i] == 58 || code[i] == 47
  }

  predicate PathUnit(u: CodeUnit) {
    Upper(u) || 97 <= u <= 122 || IsDigit(u) || u == 95 || u == 46 || u == 91 || u == 93 || u == 58 || u == 45
  }

  predicate NonEmpty(s: Option<Text>) { s.Some? ==> s.value != [] }

  predicate AcceptableCall(call: CallRef) {
    call.callId != [] && NonEmpty(call.toolName) && NonEmpty(call.executionId)
  }

  /** `assertActionableToolError` on a plain object with these fields. */
  predicate Acceptable(e: ToolError) {
    && StableCode(e.code) && e.message != []
    && (e.fieldPath.Some? ==> e.fieldPath.value != [] && forall i | 0 <= i < |e.fieldPath.value| :: PathUnit(e.fieldPath.value[i]))
    && NonEmpty(e.expected) && NonEmpty(e.actual) && NonEmpty(e.source)
    && (e.call.Some? ==> AcceptableCall(e.call.value))
    && NonEmpty(e.checklist) && NonEmpty(e.tracker) && NonEmpty(e.resume)
  }

  // ---- rendering -------------------------------------------------------------------------------------

  function RetryText(retry: Retry): Text {
    match retry
    case RetryCall => Ascii("retry")
    case DoNotRetry => Ascii("do-not-retry")
    case NeedsHuman => Ascii("needs-human")
    case RestartExecution => Ascii("restart-execution")
  }

  function CallSegment(call: CallRef): Text {
    Escape(call.callId)
    + (if call.toolName.Some? then Ascii(" tool=") + Escape(call.toolName.value) else [])
    + (if call.executionId.Some? then Ascii(" exec=") + Escape(call.executionId.value) else [])
  }

  function Escaped(s: Option<Text>): Option<Text> {
    if s.Some? then Some(Escape(s.value)) else None
  }

  function SegmentOf(call: Option<CallRef>): Option<Text> {
    if call.Some? then Some(CallSegment(call.value)) else None
  }

  /** A labelled line, present when its value is. */
  datatype Field = Field(tag: Text, value: Option<Text>)

  function Fields(e: ToolError): seq<Field> {
    [Field(Ascii("  Field: "), Escaped(e.fieldPath)),
     Field(Ascii("  Expected: "), Escaped(e.expected)),
     Field(Ascii("  Actual: "), Escaped(e.actual)),
     Field(Ascii("  Source: "), Escaped(e.source)),
     Field(Ascii("  Call: "), SegmentOf(e.call)),
     Field(Ascii("  Checklist: "), Escaped(e.checklist)),
     Field(Ascii("  Tracker: "), Escaped(e.tracker)),
     Field(Ascii("  Resume: "), Escaped(e.resume)),
     Field(Ascii("  Retry: "), Some(RetryText(e.retry)))]
  }

  function Header(e: ToolError): Text {
    Ascii("[") + Escape(e.code) + Ascii("] ") + Escape(e.message)
  }

  function Present(fields: seq<Field>): seq<Text>
    decreases |fields|
  {
    if fields == [] then []
    else (if fields[0].value.Some? then [fields[0].tag + fields[0].value.value] else []) + Present(fields[1..])
  }

  /** The header, one line per present field in the fixed order, the retry line. */
  function Lines(e: ToolError): seq<Text> { [Header(e)] + Present(Fields(e)) }

  function Join(lines: seq<Text>): Text
    decreases |lines|
  {
    if lines == [] then [] else if |lines| == 1 then lines[0] else lines[0] + ([NEWLINE] + Join(lines[1..]))
  }

  function Render(e: ToolError): Result<Text> {
    if Acceptable(e) then Ok(Join(Lines(e))) else Err("ActionableToolErrorSchemaError")
  }

  method RenderActionableToolError(e: ToolError) returns (r: Result<Text>)
    ensures r == Render(e)
  {
    if !Acceptable(e) {
      return Err("ActionableToolErrorSchemaError");
    }
    var lines := [Header(e)];
    var fields := Fields(e);
    assert fields[0..] == fields;
    for i := 0 to |fields|
      invariant lines + Present(fields[i..]) == Lines(e)
    {
      assert fields[i..][0] == fields[i] && fields[i..][1..] == fields[i + 1..];
      if fields[i].value.Some? {
        var line := fields[i].tag + fields[i].value.value;
        assert lines + ([line] + Present(fields[i + 1..])) == (lines + [line]) + Present(fields[i + 1..]);
        lines := lines + [line];
      } else {
        assert [] + Present(fields[i + 1..]) == Present(fields[i + 1..]);
      }
    }
    assert lines + [] == lines;
    r := Ok(Join(lines));
  }

  // ---- splitting the text again ---------------------------------------------------------------------------

  predicate OneLine(s: Text) { forall i | 0 <= i < |s| :: s[i] != NEWLINE }

  /** Splitting at newlines. */
  function Split(t: Text): (lines: seq<Text>)
    ensures lines != []
    decreases |t|
  {
    if t == [] then [[]]
    else
      var rest := Split(t[1..]);
      if t[0] == NEWLINE then [[]] + rest else [[t[0]] + rest[0]] + rest[1..]
  }

  lemma {:induction false} SplitLine(line: Text, rest: Text)
    requires OneLine(line)
    ensures Split(line) == [line]
    ensures Split(line + ([NEWLINE] + rest)) == [line] + Split(rest)
    decreases |line|
  {
    var t := line + ([NEWLINE] + rest);
    if line == [] {
      assert t == [NEWLINE] + rest;
      assert t[1..] == rest;
    } else {
      SplitLine(line[1..], rest);
      assert t[1..] == line[1..] + ([NEWLINE] + rest);
      assert line == [line[0]] + line[1..];
    }
  }

  lemma {:induction false} SplitJoin(lines: seq<Text>)
    requires lines != [] && forall i | 0 <= i < |lines| :: OneLine(lines[i])
    ensures Split(Join(lines)) == lines
    decreases |lines|
  {
    if |lines| == 1 {
      SplitLine(lines[0], []);
    } else {
      SplitJoin(lines[1..]);
      SplitLine(lines[0], Join(lines[1..]));
      assert lines == [lines[0]] + lines[1..];
    }
  }

  predicate Plain(s: Text) { forall i | 0 <= i < |s| :: s[i] >= 32 }

  lemma EscapePlain(s: Text)
    ensures Plain(Escape(s))
  {
    EscapeRoundTrip(s);
  }

  lemma SegmentPlain(call: CallRef)
    ensures Plain(CallSegment(call))
  {
    hide Escape;
    assert Plain(Ascii(" tool=")) && Plain(Ascii(" exec="));
    EscapePlain(call.callId);
    if call.toolName.Some? { EscapePlain(call.toolName.value); }
    if call.executionId.Some? { EscapePlain(call.executionId.value); }
    hide Ascii;
  }

  predicate FieldPlain(f: Field) { Plain(f.tag) && (f.value.Some? ==> Plain(f.value.value)) }

  lemma EscapedPlain(s: Option<Text>)
    ensures Escaped(s).Some? ==> Plain(Escaped(s).value)
  {
    if s.Some? { EscapePlain(s.value); }
  }

  lemma FieldsPlain(e: ToolError)
    ensures forall i | 0 <= i < |Fields(e)| :: FieldPlain(Fields(e)[i])
  {
    hide Escaped, CallSegment, RetryText;
    EscapedPlain(e.fieldPath);
    EscapedPlain(e.expected);
    EscapedPlain(e.actual);
    EscapedPlain(e.source);
    EscapedPlain(e.checklist);
    EscapedPlain(e.tracker);
    EscapedPlain(e.resume);
    RetryPlain(e.retry);
    if e.call.Some? { SegmentPlain(e.call.value); }
    LabelsPlain();
    MoreLabelsPlain();
    hide Plain, Ascii;
  }

  lemma RetryPlain(retry: Retry)
    ensures Plain(RetryText(retry))
  {
  }

  lemma LabelsPlain()
    ensures Plain(Ascii("  Field: ")) && Plain(Ascii("  Expected: ")) && Plain(Ascii("  Actual: "))
    ensures Plain(Ascii("  Source: ")) && Plain(Ascii("  Call: "))
  {
  }

  lemma MoreLabelsPlain()
    ensures Plain(Ascii("  Checklist: "))
    ensures Plain(Ascii("  Tracker: ")) && Plain(Ascii("  Resume: ")) && Plain(Ascii("  Retry: "))
  {
  }

  lemma {:induction false} PresentPlain(fields: seq<Field>)
    requires forall i | 0 <= i < |fields| :: FieldPlain(fields[i])
    ensures forall i | 0 <= i < |Present(fields)| :: Plain(Present(fields)[i])
    decreases |fields|
  {
    if fields != [] {
      assert FieldPlain(fields[0]);
      PresentPlain(fields[1..]);
    }
  }

  /** No value can forge a line: splitting the text gives back exactly the lines that were joined. */
  lemma RenderedLines(e: ToolError)
    requires Acceptable(e)
    ensures Split(Render(e).value) == Lines(e)
    ensures forall i | 0 <= i < |Lines(e)| :: Plain(Lines(e)[i])
  {
    EscapePlain(e.code);
    EscapePlain(e.message);
    FieldsPlain(e);
    PresentPlain(Fields(e));
    hide Fields, Present, Escape, Acceptable;
    assert Plain(Header(e));
    SplitJoin(Lines(e));
  }

  // ---- what the text determines ----------------------------------------------------------------------------

  /** Neither label starts the other's line. */
  predicate Apart(p: Text, q: Text) {
    exists i | 0 <= i < |p| && i < |q| :: p[i] != q[i]
  }

  predicate LabelsApart(fields: seq<Field>) {
    forall i, j | 0 <= i < j < |fields| :: Apart(fields[i].tag, fields[j].tag)
  }

  predicate SameLabels(a: seq<Field>, b: seq<Field>) {
    |a| == |b| && forall i | 0 <= i < |a| :: a[i].tag == b[i].tag
  }

  /** The first present line starts with the label of some field. */
  lemma {:induction false} FirstPresent(fields: seq<Field>) returns (i: nat)
    requires Present(fields) != []
    ensures i < |fields| && fields[i].value.Some? && Present(fields)[0] == fields[i].tag + fields[i].value.value
    decreases |fields|
  {
    if fields[0].value.Some? {
      i := 0;
    } else {
      assert Present(fields) == Present(fields[1..]);
      var j := FirstPresent(fields[1..]);
      i := j + 1;
    }
  }

  lemma PresentSplit(fields: seq<Field>)
    requires fields != []
    ensures fields[0].value.None? ==> Present(fields) == Present(fields[1..])
    ensures fields[0].value.Some? ==>
      Present(fields) == [fields[0].tag + fields[0].value.value] + Present(fields[1..])
  {
  }

  lemma LinesDiffer(p: Text, x: Text, q: Text, y: Text)
    requires Apart(p, q)
    ensures p + x != q + y
  {
    var k :| 0 <= k < |p| && k < |q| && p[k] != q[k];
    assert (p + x)[k] == p[k] && (q + y)[k] == q[k];
  }

  lemma SameLine(p: Text, x: Text, y: Text)
    requires p + x == p + y
    ensures x == y
  {
    assert x == (p + x)[|p|..] && y == (p + y)[|p|..];
  }

  lemma {:induction false} PresentDecides(a: seq<Field>, b: seq<Field>)
    requires SameLabels(a, b) && LabelsApart(a) && Present(a) == Present(b)
    ensures a == b
    decreases |a|
  {
    if a != [] {
      HeadPresence(a, b);
      PresentSplit(a);
      PresentSplit(b);
      hide Present;
      if a[0].value.Some? {
        assert Present(a)[0] == Present(b)[0];
        SameLine(a[0].tag, a[0].value.value, b[0].value.value);
        assert Present(a)[1..] == Present(a[1..]) && Present(b)[1..] == Present(b[1..]);
      }
      assert Present(a[1..]) == Present(b[1..]);
      PresentDecides(a[1..], b[1..]);
      assert a == [a[0]] + a[1..] && b == [b[0]] + b[1..];
    }
  }

  lemma HeadPresence(a: seq<Field>, b: seq<Field>)
    requires SameLabels(a, b) && LabelsApart(a) && a != [] && Present(a) == Present(b)
    ensures a[0].value.Some? ==> b[0].value.Some?
    ensures b[0].value.Some? ==> a[0].value.Some?
  {
    PresentSplit(a);
    PresentSplit(b);
    if a[0].value.Some? {
      var i := FirstPresent(b);
      if i > 0 {
        assert Apart(a[0].tag, a[i].tag);
        LinesDiffer(a[0].tag, a[0].value.value, b[i].tag, b[i].value.value);
      }
    } else if b[0].value.Some? {
      var i := FirstPresent(a);
      assert Apart(a[0].tag, a[i].tag);
      LinesDiffer(b[0].tag, b[0].value.value, a[i].tag, a[i].value.value);
    }
  }

  lemma AllLabelsApart(e: ToolError)
    ensures LabelsApart(Fields(e))
  {
    var f := Fields(e);
    forall i, j | 0 <= i < j < |f| ensures Apart(f[i].tag, f[j].tag) {
      if i == 4 && j == 5 {
        assert f[i].tag[3] != f[j].tag[3];
      } else if i == 7 && j == 8 {
        assert f[i].tag[4] != f[j].tag[4];
      } else {
        assert f[i].tag[2] != f[j].tag[2];
      }
    }
  }

  lemma {:induction false} CodeIsUnescaped(code: Text)
    requires forall i | 0 <= i < |code| :: code[i] >= 32 && code[i] != BACKSLASH
    ensures Escape(code) == code
    decreases |code|
  {
    if code != [] {
      CodeIsUnescaped(code[1..]);
    }
  }

  predicate Lacks(s: Text, sep: CodeUnit) { forall i | 0 <= i < |s| :: s[i] != sep }

  /** A separator that neither head contains splits a text in one way. */
  lemma {:induction false} SeparatorSplits(sep: CodeUnit, a: Text, b: Text, x: Text, y: Text)
    requires Lacks(a, sep) && Lacks(b, sep)
    requires a + ([sep] + x) == b + ([sep] + y)
    ensures a == b && x == y
    decreases |a|
  {
    var s, t := a + ([sep] + x), b + ([sep] + y);
    SeparatorStart(sep, a, x);
    SeparatorStart(sep, b, y);
    if a == [] {
      assert x == s[1..] && y == t[1..];
    } else {
      assert s[0] == a[0] && t[0] == b[0];
      assert s[1..] == a[1..] + ([sep] + x) && t[1..] == b[1..] + ([sep] + y);
      SeparatorSplits(sep, a[1..], b[1..], x, y);
      assert a == [a[0]] + a[1..] && b == [b[0]] + b[1..];
    }
  }

  lemma SeparatorStart(sep: CodeUnit, a: Text, x: Text)
    requires Lacks(a, sep)
    ensures var s := a + ([sep] + x); s != [] && (s[0] == sep <==> a == [])
  {
  }

  lemma HeaderDecides(e: ToolError, f: ToolError)
    requires StableCode(e.code) && StableCode(f.code) && Header(e) == Header(f)
    ensures e.code == f.code && e.message == f.message
  {
    CodeIsUnescaped(e.code);
    CodeIsUnescaped(f.code);
    HeaderShape(e);
    HeaderShape(f);
    hide Escape, Header;
    assert Header(e)[1..] == Header(f)[1..];
    SeparatorSplits(CLOSE_BRACKET, e.code, f.code, [SPACE] + Escape(e.message), [SPACE] + Escape(f.message));
    assert ([SPACE] + Escape(e.message))[1..] == Escape(e.message) && ([SPACE] + Escape(f.message))[1..] == Escape(f.message);
    EscapeInjective(e.message, f.message);
  }

  lemma HeaderShape(e: ToolError)
    requires Escape(e.code) == e.code
    ensures Header(e) != [] && Header(e)[1..] == e.code + ([CLOSE_BRACKET] + ([SPACE] + Escape(e.message)))
  {
    hide Escape;
    assert Ascii("] ") == [CLOSE_BRACKET] + [SPACE];
  }

  lemma EscapedInjective(s: Option<Text>, t: Option<Text>)
    requires Escaped(s) == Escaped(t)
    ensures s == t
  {
    if s.Some? { EscapeInjective(s.value, t.value); }
  }

  lemma RetryTextInjective(a: Retry, b: Retry)
    requires RetryText(a) == RetryText(b)
    ensures a == b
  {
    assert RetryText(a)[2] == RetryText(b)[2];
    assert |RetryText(a)| == |RetryText(b)|;
  }

  // ---- the call line ------------------------------------------------------------------------------------------

  /** The call line before escaping: id, tool and execution with their unescaped labels, absent parts left out. */
  function Flat(call: CallRef): Text {
    call.callId
    + (if call.toolName.Some? then Ascii(" tool=") + call.toolName.value else [])
    + (if call.executionId.Some? then Ascii(" exec=") + call.executionId.value else [])
  }

  function FlatOf(call: Option<CallRef>): Option<Text> {
    if call.Some? then Some(Flat(call.value)) else None
  }

  lemma {:induction false} EscapeConcat(s: Text, t: Text)
    ensures Escape(s + t) == Escape(s) + Escape(t)
    decreases |s|
  {
    if s == [] {
      assert s + t == t;
    } else {
      EscapeConcat(s[1..], t);
      assert (s + t)[1..] == s[1..] + t;
      assert (EscapeUnit(s[0]) + Escape(s[1..])) + Escape(t) == EscapeUnit(s[0]) + (Escape(s[1..]) + Escape(t));
    }
  }

  /** The labels need no escaping, so the segment is the escaped flat line. */
  lemma SegmentIsFlat(call: CallRef)
    ensures CallSegment(call) == Escape(Flat(call))
  {
    CodeIsUnescaped(Ascii(" tool="));
    CodeIsUnescaped(Ascii(" exec="));
    var tool := if call.toolName.Some? then Ascii(" tool=") + call.toolName.value else [];
    var exec := if call.executionId.Some? then Ascii(" exec=") + call.executionId.value else [];
    if call.toolName.Some? { EscapeConcat(Ascii(" tool="), call.toolName.value); }
    if call.executionId.Some? { EscapeConcat(Ascii(" exec="), call.executionId.value); }
    EscapeConcat(call.callId, tool);
    EscapeConcat(call.callId + tool, exec);
    assert Escape([]) == [];
    hide Escape, Ascii;
  }

  /** Two calls read alike exactly when their flat lines agree. */
  lemma SegmentDecides(c: CallRef, d: CallRef)
    ensures CallSegment(c) == CallSegment(d) <==> Flat(c) == Flat(d)
  {
    SegmentIsFlat(c);
    SegmentIsFlat(d);
    if CallSegment(c) == CallSegment(d) { EscapeInjective(Flat(c), Flat(d)); }
    hide Escape, Flat, CallSegment;
  }

  /** Two acceptable errors read the same exactly when they agree on every field and on the flat line of their call. */
  predicate ReadsAlike(e: ToolError, f: ToolError) {
    && FlatOf(e.call) == FlatOf(f.call)
    && e.(call := None) == f.(call := None)
  }

  lemma FlatSegments(c: Option<CallRef>, d: Option<CallRef>)
    ensures SegmentOf(c) == SegmentOf(d) <==> FlatOf(c) == FlatOf(d)
  {
    if c.Some? && d.Some? { SegmentDecides(c.value, d.value); }
    hide CallSegment, Flat;
  }

  lemma RenderDecides(e: ToolError, f: ToolError)
    requires Acceptable(e) && Acceptable(f)
    ensures Render(e) == Render(f) <==> ReadsAlike(e, f)
  {
    if Render(e) == Render(f) {
      RenderedLines(e);
      RenderedLines(f);
      LinesDecide(e, f);
    }
    if ReadsAlike(e, f) {
      AlikeLines(e, f);
    }
    hide Lines, Join, Acceptable, ReadsAlike;
  }

  lemma LinesDecide(e: ToolError, f: ToolError)
    requires Acceptable(e) && Acceptable(f) && Lines(e) == Lines(f)
    ensures ReadsAlike(e, f)
  {
    hide Present, Header, Fields;
    assert Header(e) == Lines(e)[0] == Lines(f)[0] == Header(f);
    assert Present(Fields(e)) == Lines(e)[1..] == Lines(f)[1..] == Present(Fields(f));
    HeaderDecides(e, f);
    AllLabelsApart(e);
    FieldsAlign(e, f);
    PresentDecides(Fields(e), Fields(f));
    FieldsDecide(e, f);
    FlatSegments(e.call, f.call);
    hide SegmentOf, FlatOf;
  }

  lemma FieldsAlign(e: ToolError, f: ToolError)
    ensures SameLabels(Fields(e), Fields(f))
  {
    hide Escaped, SegmentOf, RetryText, Ascii;
  }

  lemma AlikeLines(e: ToolError, f: ToolError)
    requires ReadsAlike(e, f)
    ensures Lines(e) == Lines(f)
  {
    FlatSegments(e.call, f.call);
    hide Escaped, SegmentOf, FlatOf, RetryText, Ascii, Escape, Present;
    assert Fields(e) == Fields(f);
  }

  lemma FieldsDecide(e: ToolError, f: ToolError)
    requires Fields(e) == Fields(f)
    ensures SegmentOf(e.call) == SegmentOf(f.call)
    ensures e.fieldPath == f.fieldPath && e.expected == f.expected && e.actual == f.actual && e.source == f.source
    ensures e.checklist == f.checklist && e.tracker == f.tracker && e.resume == f.resume && e.retry == f.retry
  {
    var a, b := Fields(e), Fields(f);
    assert forall i | 0 <= i < 9 :: a[i].value == b[i].value;
    assert a[0].value == b[0].value && a[1].value == b[1].value && a[2].value == b[2].value && a[3].value == b[3].value;
    assert a[4].value == b[4].value && a[5].value == b[5].value && a[6].value == b[6].value && a[7].value == b[7].value && a[8].value == b[8].value;
    hide Escaped, RetryText, CallSegment;
    EscapedInjective(e.fieldPath, f.fieldPath);
    EscapedInjective(e.expected, f.expected);
    EscapedInjective(e.actual, f.actual);
    EscapedInjective(e.source, f.source);
    EscapedInjective(e.checklist, f.checklist);
    EscapedInjective(e.tracker, f.tracker);
    EscapedInjective(e.resume, f.resume);
    RetryTextInjective(e.retry, f.retry);
  }

  // ---- which call lines are unambiguous ---------------------------------------------------------------------

  /** The mark stands inside the text, with something before and after it. */
  predicate HasInner(s: Text, mark: Text) {
    exists i | 0 < i < |s| :: SplitsAt(s, mark, i)
  }

  predicate SplitsAt(s: Text, mark: Text, i: int) {
    0 < i && i + |mark| < |s| && s[i..i + |mark|] == mark
  }

  /** No label, and no id part that reads like one. */
  predicate Unmarked(call: CallRef) {
    && call.toolName.None? && call.executionId.None?
    && !HasInner(call.callId, Ascii(" tool=")) && !HasInner(call.callId, Ascii(" exec="))
  }

  lemma PartsSplit(a: Text, mark: Text, b: Text)
    requires a != [] && b != []
    ensures HasInner(a + (mark + b), mark)
  {
    assert SplitsAt(a + (mark + b), mark, |a|);
  }

  lemma SplitParts(s: Text, mark: Text, i: int)
    requires SplitsAt(s, mark, i)
    ensures s[..i] != [] && s[i + |mark|..] != [] && s[..i] + (mark + s[i + |mark|..]) == s
  {
  }

  /** A labelled flat line has an inner mark. */
  lemma LabelledHasInner(call: CallRef)
    requires AcceptableCall(call) && (call.toolName.Some? || call.executionId.Some?)
    ensures HasInner(Flat(call), Ascii(" tool=")) || HasInner(Flat(call), Ascii(" exec="))
  {
    var exec := if call.executionId.Some? then Ascii(" exec=") + call.executionId.value else [];
    if call.toolName.Some? {
      PartsSplit(call.callId, Ascii(" tool="), call.toolName.value + exec);
      assert Flat(call) == call.callId + (Ascii(" tool=") + (call.toolName.value + exec));
    } else {
      PartsSplit(call.callId, Ascii(" exec="), call.executionId.value);
      assert Flat(call) == call.callId + (Ascii(" exec=") + call.executionId.value);
    }
    hide Ascii;
  }

  lemma PlainFlat(id: Text)
    ensures Flat(CallRef(id, None, None)) == id
  {
  }

  /**
   * An accepted call is the only one reading as it does exactly when it names
   * neither tool nor execution and its id has no inner label: a labelled call
   * reads like the bare call whose id is its whole flat line, and an id with an
   * inner label reads like the call split there.
   */
  lemma CallIsUnambiguousIff(c: CallRef)
    requires AcceptableCall(c)
    ensures (forall d: CallRef :: AcceptableCall(d) && CallSegment(d) == CallSegment(c) ==> d == c) <==> Unmarked(c)
  {
    hide CallSegment, HasInner;
    if Unmarked(c) {
      PlainFlat(c.callId);
      forall d: CallRef | AcceptableCall(d) && CallSegment(d) == CallSegment(c) ensures d == c {
        SegmentDecides(d, c);
        if d.toolName.Some? || d.executionId.Some? { LabelledHasInner(d); }
        PlainFlat(d.callId);
      }
    } else {
      var d := Twin(c);
      SegmentDecides(d, c);
      assert AcceptableCall(d) && CallSegment(d) == CallSegment(c) && d != c;
    }
  }

  /** Another accepted call with the same flat line. */
  lemma Twin(c: CallRef) returns (d: CallRef)
    requires AcceptableCall(c) && !Unmarked(c)
    ensures AcceptableCall(d) && Flat(d) == Flat(c) && d != c
  {
    if c.toolName.Some? || c.executionId.Some? {
      d := CallRef(Flat(c), None, None);
      PlainFlat(Flat(c));
    } else if HasInner(c.callId, Ascii(" tool=")) {
      var i :| SplitsAt(c.callId, Ascii(" tool="), i);
      SplitParts(c.callId, Ascii(" tool="), i);
      d := CallRef(c.callId[..i], Some(c.callId[i + 6..]), None);
      assert Flat(d) == c.callId[..i] + (Ascii(" tool=") + c.callId[i + 6..]);
      PlainFlat(c.callId);
    } else {
      var i :| SplitsAt(c.callId, Ascii(" exec="), i);
      SplitParts(c.callId, Ascii(" exec="), i);
      d := CallRef(c.callId[..i], None, Some(c.callId[i + 6..]));
      assert Flat(d) == c.callId[..i] + (Ascii(" exec=") + c.callId[i + 6..]);
      PlainFlat(c.callId);
    }
  }

  /** Every call with a tool name reads the same as a call without one, whose id ends in that name. */
  lemma CallSegmentIsAmbiguous(id: Text, tool: Text)
    ensures CallSegment(CallRef(id + (Ascii(" tool=") + tool), None, None)) == CallSegment(CallRef(id, Some(tool), None))
  {
    var whole := id + (Ascii(" tool=") + tool);
    SegmentDecides(CallRef(whole, None, None), CallRef(id, Some(tool), None));
    PlainFlat(whole);
    assert Flat(CallRef(id, Some(tool), None)) == whole;
    hide CallSegment, Ascii;
  }

  lemma {:induction false} EscapeKeepsSpaces(s: Text)
    ensures Lacks(Escape(s), SPACE) <==> Lacks(s, SPACE)
    decreases |s|
  {
    if s != [] {
      EscapeKeepsSpaces(s[1..]);
      EscapeUnitSpace(s[0]);
      LacksConcat(EscapeUnit(s[0]), Escape(s[1..]), SPACE);
      LacksConcat([s[0]], s[1..], SPACE);
      assert s == [s[0]] + s[1..];
    }
  }

  lemma EscapeUnitSpace(u: CodeUnit)
    ensures Lacks(EscapeUnit(u), SPACE) <==> u != SPACE
    ensures Lacks([u], SPACE) <==> u != SPACE
  {
    assert u == SPACE ==> EscapeUnit(u)[0] == SPACE && [u][0] == SPACE;
  }

  lemma LacksConcat(a: Text, b: Text, sep: CodeUnit)
    ensures Lacks(a + b, sep) <==> Lacks(a, sep) && Lacks(b, sep)
  {
    if Lacks(a + b, sep) {
      forall i | 0 <= i < |a| ensures a[i] != sep { assert (a + b)[i] == a[i]; }
      forall i | 0 <= i < |b| ensures b[i] != sep { assert (a + b)[|a| + i] == b[i]; }
    }
  }

  /** What follows the first space of a segment. */
  function Tail(call: CallRef): Option<Text> {
    if call.toolName.Some? then
      Some(Ascii("tool=") + (Escape(call.toolName.value)
           + (if call.executionId.Some? then [SPACE] + (Ascii("exec=") + Escape(call.executionId.value)) else [])))
    else if call.executionId.Some? then Some(Ascii("exec=") + Escape(call.executionId.value))
    else None
  }

  lemma SegmentShape(call: CallRef)
    ensures CallSegment(call) == Escape(call.callId) + (if Tail(call).Some? then [SPACE] + Tail(call).value else [])
  {
    assert Ascii(" tool=") == [SPACE] + Ascii("tool=") && Ascii(" exec=") == [SPACE] + Ascii("exec=");
    hide Escape, Ascii;
    var id := Escape(call.callId);
    var t := if call.toolName.Some? then Escape(call.toolName.value) else [];
    var x := if call.executionId.Some? then Escape(call.executionId.value) else [];
    Regroup(id, Ascii("tool="), t, Ascii("exec="), x);
    Regroup(id, Ascii("tool="), t, [], []);
    Regroup(id, Ascii("exec="), x, [], []);
    assert id + [] == id && t + [] == t && (id + []) + ([SPACE] + Ascii("exec=")) == id + ([SPACE] + Ascii("exec="));
  }

  lemma Regroup(id: Text, p: Text, t: Text, q: Text, x: Text)
    ensures id + ([SPACE] + p) + t == id + ([SPACE] + (p + t))
    ensures id + ([SPACE] + p) + t + ([SPACE] + q) + x == id + ([SPACE] + (p + (t + ([SPACE] + (q + x)))))
    ensures id + (([SPACE] + p) + t) + (([SPACE] + q) + x) == id + ([SPACE] + (p + (t + ([SPACE] + (q + x)))))
    ensures id + (([SPACE] + p) + t) == id + ([SPACE] + (p + t))
  {
  }

  predicate Unspaced(call: CallRef) {
    Lacks(call.callId, SPACE) && (call.toolName.Some? ==> Lacks(call.toolName.value, SPACE))
  }

  lemma SpaceDecides(a: Text, b: Text, x: Option<Text>, y: Option<Text>)
    requires Lacks(a, SPACE) && Lacks(b, SPACE)
    requires a + (if x.Some? then [SPACE] + x.value else []) == b + (if y.Some? then [SPACE] + y.value else [])
    ensures a == b && x == y
  {
    assert a + [] == a && b + [] == b;
    if x.Some? && y.Some? {
      SeparatorSplits(SPACE, a, b, x.value, y.value);
    } else if x.Some? {
      HasSpace(x.value);
      LacksConcat(a, [SPACE] + x.value, SPACE);
    } else if y.Some? {
      HasSpace(y.value);
      LacksConcat(b, [SPACE] + y.value, SPACE);
    }
  }

  lemma HasSpace(x: Text)
    ensures !Lacks([SPACE] + x, SPACE)
  {
    assert ([SPACE] + x)[0] == SPACE;
  }

  /** Without spaces in the id and the tool name the call line determines the call. */
  lemma UnspacedCallIsRecoverable(c: CallRef, d: CallRef)
    requires Unspaced(c) && Unspaced(d)
    ensures CallSegment(c) == CallSegment(d) <==> c == d
  {
    if CallSegment(c) == CallSegment(d) {
      SegmentShape(c);
      SegmentShape(d);
      EscapeKeepsSpaces(c.callId);
      EscapeKeepsSpaces(d.callId);
      hide Tail, Escape, CallSegment;
      SpaceDecides(Escape(c.callId), Escape(d.callId), Tail(c), Tail(d));
      EscapeInjective(c.callId, d.callId);
      TailDecides(c, d);
    }
  }

  function ExecutionPart(call: CallRef): Option<Text> {
    if call.executionId.Some? then Some(Ascii("exec=") + Escape(call.executionId.value)) else None
  }

  lemma TailDecides(c: CallRef, d: CallRef)
    requires Unspaced(c) && Unspaced(d) && Tail(c) == Tail(d)
    ensures c.toolName == d.toolName && c.executionId == d.executionId
  {
    hide Escape, Ascii;
    TailStart(c);
    TailStart(d);
    if c.toolName.Some? && d.toolName.Some? {
      var t, u := Escape(c.toolName.value), Escape(d.toolName.value);
      var x, y := ExecutionPart(c), ExecutionPart(d);
      SameLine(Ascii("tool="), t + (if x.Some? then [SPACE] + x.value else []), u + (if y.Some? then [SPACE] + y.value else []));
      EscapeKeepsSpaces(c.toolName.value);
      EscapeKeepsSpaces(d.toolName.value);
      SpaceDecides(t, u, x, y);
      EscapeInjective(c.toolName.value, d.toolName.value);
      ExecutionDecides(c, d);
    } else if c.toolName.None? && d.toolName.None? {
      ExecutionDecides(c, d);
    }
  }

  /** The first letter of the tail tells a tool from an execution. */
  lemma TailStart(call: CallRef)
    ensures Tail(call).Some? ==> Tail(call).value != [] && Tail(call).value[0] == (if call.toolName.Some? then 116 else 101)
    ensures Tail(call).None? <==> call.toolName.None? && call.executionId.None?
  {
    hide Escape;
  }

  lemma ExecutionDecides(c: CallRef, d: CallRef)
    requires ExecutionPart(c) == ExecutionPart(d)
    ensures c.executionId == d.executionId
  {
    hide Escape, Ascii;
    if c.executionId.Some? {
      SameLine(Ascii("exec="), Escape(c.executionId.value), Escape(d.executionId.value));
      EscapeInjective(c.executionId.value, d.executionId.value);
    }
  }
}
