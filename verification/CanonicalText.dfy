/** The text of a JSON value, as JSON.stringify prints it without whitespace, and why it loses nothing. */
module CanonicalText {
  import opened Results
  import opened CanonicalJson

  const QUOTE: CodeUnit := 34
  const BACKSLASH: CodeUnit := 92
  const COMMA: CodeUnit := 44
  const COLON: CodeUnit := 58
  const OPEN_ARRAY: CodeUnit := 91
  const CLOSE_ARRAY: CodeUnit := 93
  const OPEN_OBJECT: CodeUnit := 123
  const CLOSE_OBJECT: CodeUnit := 125

  // ---- joining texts -----------------------------------------------------------------------

  lemma Assoc(a: Text, b: Text, c: Text)
    ensures (a + b) + c == a + (b + c)
  {
  }

  lemma HeadTail(c: CodeUnit, p: Text, d: CodeUnit, q: Text)
    requires [c] + p == [d] + q
    ensures c == d && p == q
  {
    assert ([c] + p)[0] == c && ([d] + q)[0] == d;
    assert p == ([c] + p)[1..] && q == ([d] + q)[1..];
  }

  // ---- strings ---------------------------------------------------------------------------

  predicate High(u: CodeUnit) { 0xD800 <= u <= 0xDBFF }
  predicate Low(u: CodeUnit) { 0xDC00 <= u <= 0xDFFF }

  function HexDigit(n: int): CodeUnit
    requires 0 <= n < 16
  {
    if n < 10 then 48 + n else 87 + n
  }

  function Hex4(u: CodeUnit): Text {
    [HexDigit(u / 16 / 16 / 16), HexDigit(u / 16 / 16 % 16), HexDigit(u / 16 % 16), HexDigit(u % 16)]
  }

  lemma Hex4Injective(a: CodeUnit, b: CodeUnit)
    requires Hex4(a) == Hex4(b)
    ensures a == b
  {
    assert forall i | 0 <= i < 4 :: Hex4(a)[i] == Hex4(b)[i];
    assert Hex4(a)[0] == Hex4(b)[0] && Hex4(a)[1] == Hex4(b)[1] && Hex4(a)[2] == Hex4(b)[2] && Hex4(a)[3] == Hex4(b)[3];
    HexDigitInjective(a / 16 / 16 / 16, b / 16 / 16 / 16);
    HexDigitInjective(a / 16 / 16 % 16, b / 16 / 16 % 16);
    HexDigitInjective(a / 16 % 16, b / 16 % 16);
    HexDigitInjective(a % 16, b % 16);
    assert a == (a / 16) * 16 + a % 16 && b == (b / 16) * 16 + b % 16;
    assert a / 16 == (a / 16 / 16) * 16 + a / 16 % 16 && b / 16 == (b / 16 / 16) * 16 + b / 16 % 16;
  }

  lemma HexDigitInjective(a: int, b: int)
    requires 0 <= a < 16 && 0 <= b < 16 && HexDigit(a) == HexDigit(b)
    ensures a == b
  {
  }

  /** The two-character escapes. */
  function Short(u: CodeUnit): Option<CodeUnit> {
    if u == 8 then Some(98)
    else if u == 9 then Some(116)
    else if u == 10 then Some(110)
    else if u == 12 then Some(102)
    else if u == 13 then Some(114)
    else if u == QUOTE || u == BACKSLASH then Some(u)
    else None
  }

  /** A surrogate pair prints as it is; a lone surrogate is escaped. */
  predicate Pair(s: Text) { |s| >= 2 && High(s[0]) && Low(s[1]) }

  function Width(s: Text): (w: nat)
    requires s != []
    ensures 1 <= w <= |s|
  {
    if Pair(s) then 2 else 1
  }

  /** What the next code unit, or pair, of a string prints as. */
  function Token(s: Text): Text
    requires s != []
  {
    if Pair(s) then [s[0], s[1]]
    else if Short(s[0]).Some? then [BACKSLASH, Short(s[0]).value]
    else if s[0] < 0x20 || High(s[0]) || Low(s[0]) then [BACKSLASH, 117] + Hex4(s[0])
    else [s[0]]
  }

  function QuoteBody(s: Text): Text
    decreases |s|
  {
    if s == [] then [] else Token(s) + QuoteBody(s[Width(s)..])
  }

  function Quote(s: Text): Text { [QUOTE] + QuoteBody(s) + [QUOTE] }

  /** A token tells exactly which units it stands for, whatever follows it. */
  lemma TokenDecodes(s: Text, t: Text, a: Text, b: Text)
    requires s != [] && t != [] && Token(s) + a == Token(t) + b
    ensures Width(s) == Width(t) && s[..Width(s)] == t[..Width(t)] && a == b
  {
    var x, y := Token(s) + a, Token(t) + b;
    assert x[0] == y[0] && x[0] == Token(s)[0] && y[0] == Token(t)[0];
    if Token(s)[0] == BACKSLASH {
      assert x[1] == y[1] && x[1] == Token(s)[1] && y[1] == Token(t)[1];
      if Short(s[0]).None? {
        assert x[2..6] == Hex4(s[0]) && y[2..6] == Hex4(t[0]);
        Hex4Injective(s[0], t[0]);
      }
      assert Token(s) == Token(t);
    } else if Pair(s) {
      assert x[1] == y[1];
      assert Token(s) == Token(t);
    }
    assert |Token(s)| == |Token(t)|;
    assert a == x[|Token(s)|..] && b == y[|Token(t)|..];
  }

  lemma TokenStart(s: Text)
    requires s != []
    ensures Token(s) != [] && Token(s)[0] != QUOTE
  {
  }

  lemma BodyStart(s: Text, a: Text)
    ensures var x := QuoteBody(s) + ([QUOTE] + a); x != [] && (x[0] == QUOTE <==> s == [])
    ensures s == [] ==> QuoteBody(s) + ([QUOTE] + a) == [QUOTE] + a
  {
    if s != [] { TokenStart(s); }
  }

  lemma BodySplit(s: Text, r: Text)
    requires s != []
    ensures QuoteBody(s) + r == Token(s) + (QuoteBody(s[Width(s)..]) + r)
  {
    Assoc(Token(s), QuoteBody(s[Width(s)..]), r);
  }

  lemma {:induction false} QuoteBodyDecodes(s: Text, t: Text, a: Text, b: Text)
    requires QuoteBody(s) + ([QUOTE] + a) == QuoteBody(t) + ([QUOTE] + b)
    ensures s == t && a == b
    decreases |s|
  {
    BodyStart(s, a);
    BodyStart(t, b);
    if s == [] {
      HeadTail(QUOTE, a, QUOTE, b);
    } else {
      BodySplit(s, [QUOTE] + a);
      BodySplit(t, [QUOTE] + b);
      hide QuoteBody, Token, Width;
      var s', t' := s[Width(s)..], t[Width(t)..];
      TokenDecodes(s, t, QuoteBody(s') + ([QUOTE] + a), QuoteBody(t') + ([QUOTE] + b));
      QuoteBodyDecodes(s', t', a, b);
      assert s == s[..Width(s)] + s' && t == t[..Width(t)] + t';
    }
  }

  lemma QuoteDecodes(s: Text, t: Text, a: Text, b: Text)
    requires Quote(s) + a == Quote(t) + b
    ensures s == t && a == b
  {
    hide QuoteBody;
    QuoteSplit(s, a);
    QuoteSplit(t, b);
    HeadTail(QUOTE, QuoteBody(s) + ([QUOTE] + a), QUOTE, QuoteBody(t) + ([QUOTE] + b));
    QuoteBodyDecodes(s, t, a, b);
  }

  lemma QuoteSplit(s: Text, a: Text)
    ensures Quote(s) + a == [QUOTE] + (QuoteBody(s) + ([QUOTE] + a))
  {
    hide QuoteBody;
    Assoc([QUOTE] + QuoteBody(s), [QUOTE], a);
    Assoc([QUOTE], QuoteBody(s), [QUOTE] + a);
  }

  // ---- values ------------------------------------------------------------------------------

  predicate NumberUnit(u: CodeUnit) { IsDigit(u) || u == 43 || u == 45 || u == 46 || u == 101 }

  /** The text of a finite number: digits, signs, point and exponent, starting with a digit or a minus sign. */
  predicate NumberText(d: Text) {
    d != [] && (IsDigit(d[0]) || d[0] == 45) && forall i | 0 <= i < |d| :: NumberUnit(d[i])
  }

  predicate Printable(v: Json)
    decreases v
  {
    match v
    case Number(digits) => NumberText(digits)
    case Array(items) => forall i | 0 <= i < |items| :: Printable(items[i])
    case Object(ms) => forall i | 0 <= i < |ms| :: Printable(ms[i].value)
    case _ => true
  }

  function Print(v: Json): Text
    decreases v
  {
    match v
    case Null => [110, 117, 108, 108]
    case Bool(true) => [116, 114, 117, 101]
    case Bool(false) => [102, 97, 108, 115, 101]
    case Number(digits) => digits
    case String(text) => Quote(text)
    case Array(items) => [OPEN_ARRAY] + PrintItems(items)
    case Object(ms) => [OPEN_OBJECT] + PrintMembers(ms)
  }

  /** An array after its opening bracket. */
  function PrintItems(items: seq<Json>): Text
    decreases items, 1
  {
    if items == [] then [CLOSE_ARRAY] else Print(items[0]) + RestItems(items)
  }

  /** An array after its first item. */
  function RestItems(items: seq<Json>): Text
    requires items != []
    decreases items, 0
  {
    if |items| == 1 then [CLOSE_ARRAY] else [COMMA] + PrintItems(items[1..])
  }

  function PrintMembers(ms: seq<Member>): Text
    decreases ms, 1
  {
    if ms == [] then [CLOSE_OBJECT] else Quote(ms[0].key) + ([COLON] + (Print(ms[0].value) + RestMembers(ms)))
  }

  function RestMembers(ms: seq<Member>): Text
    requires ms != []
    decreases ms, 0
  {
    if |ms| == 1 then [CLOSE_OBJECT] else [COMMA] + PrintMembers(ms[1..])
  }

  /** What can follow a value inside a larger text. */
  predicate Delimited(r: Text) {
    r == [] || r[0] == COMMA || r[0] == CLOSE_ARRAY || r[0] == CLOSE_OBJECT
  }

  /** The first code unit tells the kind of a value. */
  function KindUnit(v: Json): int {
    match v
    case Null => 110
    case Bool(true) => 116
    case Bool(false) => 102
    case Number(_) => 48
    case String(_) => 34
    case Array(_) => 91
    case Object(_) => 123
  }

  lemma PrintStart(v: Json)
    requires Printable(v)
    ensures Print(v) != []
    ensures KindUnit(v) == (if IsDigit(Print(v)[0]) || Print(v)[0] == 45 then 48 else Print(v)[0])
    ensures Print(v)[0] != CLOSE_ARRAY && Print(v)[0] != CLOSE_OBJECT && Print(v)[0] != COMMA
  {
  }

  lemma NumberStart(d: Text, a: Text)
    requires (forall i | 0 <= i < |d| :: NumberUnit(d[i])) && Delimited(a)
    ensures d != [] <==> d + a != [] && NumberUnit((d + a)[0])
    ensures d == [] ==> d + a == a
    ensures d != [] ==> d + a == [d[0]] + (d[1..] + a)
  {
  }

  lemma {:induction false} NumberDecodes(d: Text, e: Text, a: Text, b: Text)
    requires (forall i | 0 <= i < |d| :: NumberUnit(d[i])) && (forall i | 0 <= i < |e| :: NumberUnit(e[i]))
    requires Delimited(a) && Delimited(b) && d + a == e + b
    ensures d == e && a == b
    decreases |d|
  {
    NumberStart(d, a);
    NumberStart(e, b);
    if d != [] {
      HeadTail(d[0], d[1..] + a, e[0], e[1..] + b);
      NumberDecodes(d[1..], e[1..], a, b);
      assert d == [d[0]] + d[1..] && e == [e[0]] + e[1..];
    }
  }

  /** Printing is prefix-free: a text followed by a delimiter belongs to one value only. */
  lemma {:induction false} PrintDecodes(v: Json, w: Json, a: Text, b: Text)
    requires Printable(v) && Printable(w) && Delimited(a) && Delimited(b)
    requires Print(v) + a == Print(w) + b
    ensures v == w && a == b
    decreases v, 3
  {
    SameKind(v, w, a, b);
    hide PrintItems, PrintMembers, Quote, KindUnit;
    match v
    case Number(d) => NumberDecodes(d, w.digits, a, b);
    case String(s) => QuoteDecodes(s, w.text, a, b);
    case Array(items) =>
      Assoc([OPEN_ARRAY], PrintItems(items), a);
      Assoc([OPEN_ARRAY], PrintItems(w.items), b);
      HeadTail(OPEN_ARRAY, PrintItems(items) + a, OPEN_ARRAY, PrintItems(w.items) + b);
      ItemsDecode(items, w.items, a, b);
    case Object(ms) =>
      Assoc([OPEN_OBJECT], PrintMembers(ms), a);
      Assoc([OPEN_OBJECT], PrintMembers(w.members), b);
      HeadTail(OPEN_OBJECT, PrintMembers(ms) + a, OPEN_OBJECT, PrintMembers(w.members) + b);
      MembersDecode(ms, w.members, a, b);
    case _ =>
      assert v == w;
      assert a == (Print(v) + a)[|Print(v)|..] && b == (Print(w) + b)[|Print(w)|..];
  }

  lemma SameKind(v: Json, w: Json, a: Text, b: Text)
    requires Printable(v) && Printable(w) && Print(v) + a == Print(w) + b
    ensures KindUnit(v) == KindUnit(w)
    ensures v.Null? == w.Null? && v.Bool? == w.Bool? && v.Number? == w.Number? && v.String? == w.String?
    ensures v.Array? == w.Array? && v.Object? == w.Object? && (v.Bool? ==> v == w)
  {
    PrintStart(v);
    PrintStart(w);
    assert (Print(v) + a)[0] == Print(v)[0] && (Print(w) + b)[0] == Print(w)[0];
    hide Print, Printable;
  }

  predicate AllPrintable(u: seq<Json>) { forall i | 0 <= i < |u| :: Printable(u[i]) }

  predicate MembersPrintable(u: seq<Member>) { forall i | 0 <= i < |u| :: Printable(u[i].value) }

  lemma ItemsStart(u: seq<Json>, a: Text)
    requires AllPrintable(u)
    ensures PrintItems(u) + a != [] && ((PrintItems(u) + a)[0] == CLOSE_ARRAY <==> u == [])
    ensures u != [] ==> PrintItems(u) + a == Print(u[0]) + (RestItems(u) + a) && Delimited(RestItems(u) + a)
  {
    if u != [] {
      PrintStart(u[0]);
      Assoc(Print(u[0]), RestItems(u), a);
    }
  }

  lemma {:induction false} ItemsDecode(u: seq<Json>, w: seq<Json>, a: Text, b: Text)
    requires AllPrintable(u) && AllPrintable(w)
    requires PrintItems(u) + a == PrintItems(w) + b
    ensures u == w && a == b
    decreases u, 2
  {
    ItemsStart(u, a);
    ItemsStart(w, b);
    hide Print;
    if u == [] {
      HeadTail(CLOSE_ARRAY, a, CLOSE_ARRAY, b);
    } else {
      PrintDecodes(u[0], w[0], RestItems(u) + a, RestItems(w) + b);
      RestItemsDecode(u, w, a, b);
      assert u == [u[0]] + u[1..] && w == [w[0]] + w[1..];
    }
  }

  lemma RestItemsDecode(u: seq<Json>, w: seq<Json>, a: Text, b: Text)
    requires u != [] && w != [] && AllPrintable(u) && AllPrintable(w)
    requires RestItems(u) + a == RestItems(w) + b
    ensures u[1..] == w[1..] && a == b
    decreases u, 1
  {
    hide PrintItems;
    Assoc([COMMA], PrintItems(u[1..]), a);
    Assoc([COMMA], PrintItems(w[1..]), b);
    assert (RestItems(u) + a)[0] == (RestItems(w) + b)[0];
    if |u| == 1 {
      HeadTail(CLOSE_ARRAY, a, CLOSE_ARRAY, b);
    } else {
      HeadTail(COMMA, PrintItems(u[1..]) + a, COMMA, PrintItems(w[1..]) + b);
      ItemsDecode(u[1..], w[1..], a, b);
    }
  }

  lemma MembersStart(u: seq<Member>, a: Text)
    ensures PrintMembers(u) + a != [] && ((PrintMembers(u) + a)[0] == CLOSE_OBJECT <==> u == [])
    ensures u != [] ==>
      PrintMembers(u) + a == Quote(u[0].key) + ([COLON] + (Print(u[0].value) + (RestMembers(u) + a)))
      && Delimited(RestMembers(u) + a)
  {
    if u != [] {
      var v := Print(u[0].value);
      assert PrintMembers(u)[0] == QUOTE;
      Assoc(Quote(u[0].key), [COLON] + (v + RestMembers(u)), a);
      Assoc([COLON], v + RestMembers(u), a);
      Assoc(v, RestMembers(u), a);
      hide Quote, Print;
    }
  }

  lemma {:induction false} MembersDecode(u: seq<Member>, w: seq<Member>, a: Text, b: Text)
    requires MembersPrintable(u) && MembersPrintable(w)
    requires PrintMembers(u) + a == PrintMembers(w) + b
    ensures u == w && a == b
    decreases u, 2
  {
    MembersStart(u, a);
    MembersStart(w, b);
    hide Print, Quote;
    if u == [] {
      HeadTail(CLOSE_OBJECT, a, CLOSE_OBJECT, b);
    } else {
      var p, q := Print(u[0].value) + (RestMembers(u) + a), Print(w[0].value) + (RestMembers(w) + b);
      QuoteDecodes(u[0].key, w[0].key, [COLON] + p, [COLON] + q);
      HeadTail(COLON, p, COLON, q);
      PrintDecodes(u[0].value, w[0].value, RestMembers(u) + a, RestMembers(w) + b);
      RestMembersDecode(u, w, a, b);
      assert u == [u[0]] + u[1..] && w == [w[0]] + w[1..];
    }
  }

  lemma RestMembersDecode(u: seq<Member>, w: seq<Member>, a: Text, b: Text)
    requires u != [] && w != [] && MembersPrintable(u) && MembersPrintable(w)
    requires RestMembers(u) + a == RestMembers(w) + b
    ensures u[1..] == w[1..] && a == b
    decreases u, 1
  {
    hide PrintMembers;
    Assoc([COMMA], PrintMembers(u[1..]), a);
    Assoc([COMMA], PrintMembers(w[1..]), b);
    assert (RestMembers(u) + a)[0] == (RestMembers(w) + b)[0];
    if |u| == 1 {
      HeadTail(CLOSE_OBJECT, a, CLOSE_OBJECT, b);
    } else {
      HeadTail(COMMA, PrintMembers(u[1..]) + a, COMMA, PrintMembers(w[1..]) + b);
      MembersDecode(u[1..], w[1..], a, b);
    }
  }

  // ---- canonical text ---------------------------------------------------------------------------

  function CanonicalText(v: Json): Text { Print(SortValue(v)) }

  lemma {:induction false} SortValuePrintable(v: Json)
    requires WellFormed(v) && Printable(v)
    ensures Printable(SortValue(v))
    decreases v
  {
    match v
    case Array(items) =>
      forall i | 0 <= i < |items| ensures Printable(SortItems(items)[i]) {
        SortItemsAt(items, i);
        SortValuePrintable(items[i]);
      }
    case Object(ms) =>
      forall k | 0 <= k < |ms| ensures Printable(SortValue(ms[k].value)) {
        SortValuePrintable(ms[k].value);
      }
      var n := SortValue(v).members;
      forall i | 0 <= i < |n| ensures Printable(n[i].value) {
        var k := SortedFrom(ms, i);
      }
    case _ =>
  }

  /** Two values have the same canonical text exactly when they agree up to member order and `__proto__` members. */
  lemma CanonicalTextDecides(v: Json, w: Json)
    requires WellFormed(v) && WellFormed(w) && Printable(v) && Printable(w)
    ensures CanonicalText(v) == CanonicalText(w) <==> Equivalent(v, w, true)
  {
    NormalFormDecides(v, w);
    SortValuePrintable(v);
    SortValuePrintable(w);
    if CanonicalText(v) == CanonicalText(w) {
      assert Print(SortValue(v)) + [] == Print(SortValue(w)) + [];
      PrintDecodes(SortValue(v), SortValue(w), [], []);
    }
  }
}
