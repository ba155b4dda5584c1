/** Reading a quoted string back, with a reader written from section 7 of RFC 8259, and what the quoted form may contain. */
module CanonicalReading {
  import opened Results
  import opened CanonicalJson
  import opened CanonicalText
  import ErrorText

  const LETTER_U: CodeUnit := 117

  /** The unit a two-character escape stands for. */
  function Escapes(letter: CodeUnit): Option<CodeUnit> {
    match letter
    case 34 => Some(34)
    case 92 => Some(92)
    case 98 => Some(8)
    case 102 => Some(12)
    case 110 => Some(10)
    case 114 => Some(13)
    case 116 => Some(9)
    case _ => None
  }

  /** Four hexadecimal digits. */
  function ReadHex(t: Text): Option<CodeUnit>
    requires |t| == 4
  {
    var a, b, c, d := ErrorText.HexValue(t[0]), ErrorText.HexValue(t[1]), ErrorText.HexValue(t[2]), ErrorText.HexValue(t[3]);
    if a.Some? && b.Some? && c.Some? && d.Some? then Some(((a.value * 16 + b.value) * 16 + c.value) * 16 + d.value) else None
  }

  /** The units between the quotes, escapes resolved. */
  function ReadBody(t: Text): Option<Text>
    decreases |t|
  {
    if t == [] then Some([])
    else if t[0] != BACKSLASH then ErrorText.Prepend(t[0], ReadBody(t[1..]))
    else if |t| >= 2 && Escapes(t[1]).Some? then ErrorText.Prepend(Escapes(t[1]).value, ReadBody(t[2..]))
    else if |t| >= 6 && t[1] == LETTER_U && ReadHex(t[2..6]).Some? then ErrorText.Prepend(ReadHex(t[2..6]).value, ReadBody(t[6..]))
    else None
  }

  lemma HexReads(n: int)
    requires 0 <= n < 16
    ensures ErrorText.HexValue(HexDigit(n)) == Some(n)
  {
  }

  lemma Hex4Reads(u: CodeUnit)
    ensures |Hex4(u)| == 4 && ReadHex(Hex4(u)) == Some(u)
  {
    HexReads(u / 16 / 16 / 16);
    HexReads(u / 16 / 16 % 16);
    HexReads(u / 16 % 16);
    HexReads(u % 16);
    assert u == (u / 16) * 16 + u % 16 && u / 16 == (u / 16 / 16) * 16 + u / 16 % 16;
    assert u / 16 / 16 == (u / 16 / 16 / 16) * 16 + u / 16 / 16 % 16;
    hide HexDigit, ErrorText.HexValue;
  }

  lemma ReadPlain(u: CodeUnit, rest: Text)
    requires u != BACKSLASH
    ensures ReadBody([u] + rest) == ErrorText.Prepend(u, ReadBody(rest))
  {
    assert ([u] + rest)[1..] == rest;
  }

  lemma ReadShort(letter: CodeUnit, rest: Text)
    requires Escapes(letter).Some?
    ensures ReadBody([BACKSLASH, letter] + rest) == ErrorText.Prepend(Escapes(letter).value, ReadBody(rest))
  {
    assert ([BACKSLASH, letter] + rest)[2..] == rest;
  }

  lemma ReadLong(u: CodeUnit, rest: Text)
    ensures ReadBody([BACKSLASH, LETTER_U] + Hex4(u) + rest) == ErrorText.Prepend(u, ReadBody(rest))
  {
    Hex4Reads(u);
    hide Hex4, ReadHex;
    var t := [BACKSLASH, LETTER_U] + Hex4(u) + rest;
    assert t[2..6] == Hex4(u) && t[6..] == rest && t[0] == BACKSLASH && t[1] == LETTER_U;
  }

  lemma ReadToken(s: Text, rest: Text)
    requires s != []
    ensures
      var tail := ReadBody(rest);
      ReadBody(Token(s) + rest) == if tail.Some? then Some(s[..Width(s)] + tail.value) else None
  {
    assert s[..1] == [s[0]];
    if Pair(s) {
      assert Token(s) + rest == [s[0]] + ([s[1]] + rest);
      ReadPlain(s[1], rest);
      ReadPlain(s[0], [s[1]] + rest);
      assert s[..2] == [s[0], s[1]];
      if ReadBody(rest).Some? {
        assert [s[0]] + ([s[1]] + ReadBody(rest).value) == s[..2] + ReadBody(rest).value;
      }
    } else if Short(s[0]).Some? {
      ReadShort(Short(s[0]).value, rest);
    } else if s[0] < 32 || High(s[0]) || Low(s[0]) {
      ReadLong(s[0], rest);
    } else {
      ReadPlain(s[0], rest);
    }
    hide ReadBody, Hex4;
  }

  /** A JSON reader recovers every string from its quoted form, lone surrogates included. */
  lemma {:induction false} QuoteReadsBack(s: Text)
    ensures ReadBody(QuoteBody(s)) == Some(s)
    decreases |s|
  {
    if s != [] {
      QuoteReadsBack(s[Width(s)..]);
      ReadToken(s, QuoteBody(s[Width(s)..]));
      assert s == s[..Width(s)] + s[Width(s)..];
    }
  }

  predicate IsHigh(u: CodeUnit) { u / 1024 == 54 }
  predicate IsLow(u: CodeUnit) { u / 1024 == 55 }

  /** The next unit is one half of no surrogate pair. */
  predicate Lone(s: Text)
    requires s != []
  {
    (IsHigh(s[0]) && !(|s| > 1 && IsLow(s[1]))) || IsLow(s[0])
  }

  /**
   * How the next unit prints: two characters for the quote, the backslash and the
   * five named controls, a \u escape for the other controls and for a lone
   * surrogate, itself otherwise; a surrogate pair stays together.
   */
  lemma TokenShape(s: Text)
    requires s != []
    ensures
      var u := s[0];
      && (|Token(s)| == 2 && Token(s)[0] == BACKSLASH <==> u in {8, 9, 10, 12, 13, 34, 92})
      && (|Token(s)| == 6 <==> (u < 32 && u !in {8, 9, 10, 12, 13}) || Lone(s))
      && (|Token(s)| == 6 ==> Token(s)[..2] == [BACKSLASH, LETTER_U])
      && (Token(s) == s[..1] <==> u >= 32 && u !in {34, 92} && !IsHigh(u) && !IsLow(u))
      && (|s| > 1 && IsHigh(u) && IsLow(s[1]) ==> Token(s) == s[..2])
  {
    assert High(s[0]) <==> IsHigh(s[0]);
    assert Low(s[0]) <==> IsLow(s[0]);
    assert |s| > 1 ==> (Low(s[1]) <==> IsLow(s[1]));
    assert s[..1] == [s[0]] && (|s| > 1 ==> s[..2] == [s[0], s[1]]);
    hide HexDigit;
  }
}
