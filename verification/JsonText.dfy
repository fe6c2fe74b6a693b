/**
 JSON texts as JavaScript strings: quoting as `JSON.stringify` does it, and a
 reader for the whitespace-free texts of RFC 8259 (sections 3 to 7).
 */
module JsonText {
  import opened Wrappers
  import opened Collections

  /** A UTF-16 code unit. */
  type CodeUnit = c: int | 0 <= c < 0x1_0000
  type Text = seq<CodeUnit>

  datatype Json =
    | JNull
    | JBool(b: bool)
    | JNumber(token: Text)
    | JString(s: Text)
    | JArray(items: seq<Json>)
    | JObject(members: seq<Member>)

  datatype Member = Member(key: Text, value: Json)

  const QUOTE: CodeUnit := 34
  const BACKSLASH: CodeUnit := 92
  const COMMA: CodeUnit := 44
  const COLON: CodeUnit := 58
  const OPEN_BRACKET: CodeUnit := 91
  const CLOSE_BRACKET: CodeUnit := 93
  const OPEN_BRACE: CodeUnit := 123
  const CLOSE_BRACE: CodeUnit := 125
  const NULL_TEXT: Text := [110, 117, 108, 108]
  const TRUE_TEXT: Text := [116, 114, 117, 101]
  const FALSE_TEXT: Text := [102, 97, 108, 115, 101]

  // ----- Strings -----

  predicate HighSurrogate(c: CodeUnit) { 0xD800 <= c < 0xDC00 }

  predicate LowSurrogate(c: CodeUnit) { 0xDC00 <= c < 0xE000 }

  function HexDigit(n: int): CodeUnit
    requires 0 <= n < 16
  {
    if n < 10 then 48 + n else 87 + n
  }

  function HexValue(c: CodeUnit): Option<nat> {
    if 48 <= c <= 57 then Some(c - 48)
    else if 97 <= c <= 102 then Some(c - 87)
    else if 65 <= c <= 70 then Some(c - 55)
    else None
  }

  function UnicodeEscape(c: CodeUnit): Text {
    [BACKSLASH, 117, HexDigit(c / 4096), HexDigit(c / 256 % 16), HexDigit(c / 16 % 16), HexDigit(c % 16)]
  }

  function EscapeUnit(c: CodeUnit): Text {
    if c == QUOTE || c == BACKSLASH then [BACKSLASH, c]
    else if c == 8 then [BACKSLASH, 98]
    else if c == 12 then [BACKSLASH, 102]
    else if c == 10 then [BACKSLASH, 110]
    else if c == 13 then [BACKSLASH, 114]
    else if c == 9 then [BACKSLASH, 116]
    else if c < 32 || HighSurrogate(c) || LowSurrogate(c) then UnicodeEscape(c)
    else [c]
  }

  /** Surrogate pairs are kept, lone surrogates are escaped. */
  function Escape(s: Text): Text {
    if s == [] then []
    else if |s| >= 2 && HighSurrogate(s[0]) && LowSurrogate(s[1]) then [s[0], s[1]] + Escape(s[2..])
    else EscapeUnit(s[0]) + Escape(s[1..])
  }

  /** As in ECMA-262, QuoteJSONString: a two-character escape where there is one,
      lower-case hexadecimal for other controls and lone surrogates, and anything
      else as it is. */
  lemma {:induction false} EscapeForms(c: CodeUnit)
    ensures var e := Escape([c]);
            && (|e| == 2 <==> c in {8, 9, 10, 12, 13, QUOTE, BACKSLASH})
            && (|e| == 6 <==> c !in {8, 9, 10, 12, 13} && (c < 32 || HighSurrogate(c) || LowSurrogate(c)))
            && (|e| == 6 ==> e[1] == 117 && forall i | 2 <= i < 6 :: 48 <= e[i] <= 57 || 97 <= e[i] <= 102)
            && (|e| == 1 <==> e == [c]) && |e| in {1, 2, 6}
  {
    assert [c][1..] == [] && EscapeUnit(c) + [] == EscapeUnit(c);
  }

  function Quoted(s: Text): Text {
    [QUOTE] + Escape(s) + [QUOTE]
  }

  function SimpleEscape(c: CodeUnit): Option<CodeUnit> {
    if c == QUOTE || c == BACKSLASH || c == 47 then Some(c)
    else if c == 98 then Some(8)
    else if c == 102 then Some(12)
    else if c == 110 then Some(10)
    else if c == 114 then Some(13)
    else if c == 116 then Some(9)
    else None
  }

  function ReadHex(t: Text): Option<CodeUnit>
    requires |t| >= 4
  {
    var a, b, c, d := HexValue(t[0]), HexValue(t[1]), HexValue(t[2]), HexValue(t[3]);
    if a.None? || b.None? || c.None? || d.None? then None
    else Some(HexSum(a.value, b.value, c.value, d.value))
  }

  function HexSum(a: nat, b: nat, c: nat, d: nat): CodeUnit {
    if a < 16 && b < 16 && c < 16 && d < 16 then a * 4096 + b * 256 + c * 16 + d else 0
  }

  /** One character of a string: its value and what follows it. */
  function ReadUnit(t: Text): (r: Option<(CodeUnit, Text)>)
    ensures r.Some? ==> |r.value.1| < |t|
  {
    if t == [] || t[0] == QUOTE || t[0] < 32 then None
    else if t[0] != BACKSLASH then Some((t[0], t[1..]))
    else if |t| >= 6 && t[1] == 117 then
      var unit := ReadHex(t[2..]);
      if unit.Some? then Some((unit.value, t[6..])) else None
    else if |t| >= 2 && SimpleEscape(t[1]).Some? then Some((SimpleEscape(t[1]).value, t[2..]))
    else None
  }

  /** The rest of a string, up to and including its closing quote. */
  function ReadString(t: Text): (r: Option<(Text, Text)>)
    ensures r.Some? ==> |r.value.1| < |t|
    decreases |t|
  {
    if t != [] && t[0] == QUOTE then Some(([], t[1..]))
    else
      var unit := ReadUnit(t);
      if unit.None? then None
      else
        var rest := ReadString(unit.value.1);
        if rest.None? then None else Some(([unit.value.0] + rest.value.0, rest.value.1))
  }

  // ----- Values -----

  predicate NumberStart(c: CodeUnit) { c == 45 || 48 <= c <= 57 }

  predicate NumberChar(c: CodeUnit) { NumberStart(c) || c == 43 || c == 46 || c == 69 || c == 101 }

  predicate NumberToken(t: Text) {
    t != [] && NumberStart(t[0]) && forall c | c in t :: NumberChar(c)
  }

  function TakeNumber(t: Text): (r: (Text, Text))
    ensures |r.1| <= |t|
    ensures t != [] && NumberChar(t[0]) ==> |r.1| < |t|
  {
    if t == [] || !NumberChar(t[0]) then ([], t)
    else
      var rest := TakeNumber(t[1..]);
      ([t[0]] + rest.0, rest.1)
  }

  function Skip(t: Text, word: Text): Option<Text> {
    if word <= t then Some(t[|word|..]) else None
  }

  function ReadLiteral(t: Text, word: Text, value: Json): (r: Option<(Json, Text)>)
    requires word != []
    ensures r.Some? ==> |r.value.1| < |t|
  {
    var rest := Skip(t, word);
    if rest.Some? then Some((value, rest.value)) else None
  }

  function ReadValue(t: Text): (r: Option<(Json, Text)>)
    ensures r.Some? ==> |r.value.1| < |t|
    decreases |t|, 0
  {
    if t == [] then None
    else if t[0] == QUOTE then
      var s := ReadString(t[1..]);
      if s.None? then None else Some((JString(s.value.0), s.value.1))
    else if t[0] == OPEN_BRACKET then
      if |t| >= 2 && t[1] == CLOSE_BRACKET then Some((JArray([]), t[2..]))
      else
        var items := ReadItems(t[1..]);
        if items.None? then None else Some((JArray(items.value.0), items.value.1))
    else if t[0] == OPEN_BRACE then
      if |t| >= 2 && t[1] == CLOSE_BRACE then Some((JObject([]), t[2..]))
      else
        var members := ReadMembers(t[1..]);
        if members.None? then None else Some((JObject(members.value.0), members.value.1))
    else if NumberStart(t[0]) then
      var number := TakeNumber(t);
      Some((JNumber(number.0), number.1))
    else if t[0] == NULL_TEXT[0] then ReadLiteral(t, NULL_TEXT, JNull)
    else if t[0] == TRUE_TEXT[0] then ReadLiteral(t, TRUE_TEXT, JBool(true))
    else ReadLiteral(t, FALSE_TEXT, JBool(false))
  }

  /** One or more items, up to and including the closing bracket. */
  function ReadItems(t: Text): (r: Option<(seq<Json>, Text)>)
    ensures r.Some? ==> |r.value.1| < |t|
    decreases |t|, 1
  {
    var first := ReadValue(t);
    if first.None? || first.value.1 == [] then None
    else if first.value.1[0] == CLOSE_BRACKET then Some(([first.value.0], first.value.1[1..]))
    else if first.value.1[0] != COMMA then None
    else
      var rest := ReadItems(first.value.1[1..]);
      if rest.None? then None else Some(([first.value.0] + rest.value.0, rest.value.1))
  }

  function ReadMember(t: Text): (r: Option<(Member, Text)>)
    ensures r.Some? ==> |r.value.1| < |t|
    decreases |t|, 1
  {
    if t == [] || t[0] != QUOTE then None
    else
      var key := ReadString(t[1..]);
      if key.None? || key.value.1 == [] || key.value.1[0] != COLON then None
      else
        var value := ReadValue(key.value.1[1..]);
        if value.None? then None else Some((Member(key.value.0, value.value.0), value.value.1))
  }

  /** One or more members, up to and including the closing brace. */
  function ReadMembers(t: Text): (r: Option<(seq<Member>, Text)>)
    ensures r.Some? ==> |r.value.1| < |t|
    decreases |t|, 2
  {
    var first := ReadMember(t);
    if first.None? || first.value.1 == [] then None
    else if first.value.1[0] == CLOSE_BRACE then Some(([first.value.0], first.value.1[1..]))
    else if first.value.1[0] != COMMA then None
    else
      var rest := ReadMembers(first.value.1[1..]);
      if rest.None? then None else Some(([first.value.0] + rest.value.0, rest.value.1))
  }

  // ----- Reading undoes quoting -----

  lemma {:induction false} HexInverse(n: int)
    requires 0 <= n < 16
    ensures HexValue(HexDigit(n)) == Some(n)
  {
  }

  lemma {:induction false} HexParts(c: CodeUnit)
    ensures var a, b, d, e := c / 4096, c / 256 % 16, c / 16 % 16, c % 16;
            0 <= a < 16 && HexSum(a, b, d, e) == c
  {
    assert c / 256 == c / 4096 * 16 + c / 256 % 16;
    assert c / 16 == c / 256 * 16 + c / 16 % 16;
  }

  lemma {:induction false} ReadEscapedUnit(c: CodeUnit, rest: Text)
    ensures ReadUnit(EscapeUnit(c) + rest) == Some((c, rest))
  {
    var t := EscapeUnit(c) + rest;
    if EscapeUnit(c) == UnicodeEscape(c) {
      assert t[2..][..4] == UnicodeEscape(c)[2..6];
      HexParts(c);
      HexInverse(c / 4096); HexInverse(c / 256 % 16); HexInverse(c / 16 % 16); HexInverse(c % 16);
      assert t[2..][0] == HexDigit(c / 4096) && t[2..][1] == HexDigit(c / 256 % 16);
      assert t[2..][2] == HexDigit(c / 16 % 16) && t[2..][3] == HexDigit(c % 16);
      assert t[6..] == rest;
    } else if |EscapeUnit(c)| == 2 {
      assert t[2..] == rest;
    } else {
      assert t[1..] == rest;
    }
  }

  lemma {:induction false} ReadStep(t: Text, c: CodeUnit, tail: Text, s: Text, rest: Text)
    requires t != [] && t[0] != QUOTE && ReadUnit(t) == Some((c, tail))
    requires ReadString(tail) == Some((s, rest))
    ensures ReadString(t) == Some(([c] + s, rest))
  {
  }

  lemma {:induction false} PlainUnitReads(c: CodeUnit, tail: Text)
    requires c >= 0x80
    ensures ReadUnit([c] + tail) == Some((c, tail))
  {
  }

  lemma {:induction false} PairReads(high: CodeUnit, low: CodeUnit, tail: Text, s: Text, rest: Text)
    requires high >= 0x80 && low >= 0x80 && ReadString(tail) == Some((s, rest))
    ensures ReadString([high, low] + tail) == Some(([high, low] + s, rest))
  {
    PlainUnitReads(low, tail);
    ReadStep([low] + tail, low, tail, s, rest);
    PlainUnitReads(high, [low] + tail);
    ReadStep([high] + ([low] + tail), high, [low] + tail, [low] + s, rest);
    assert [high] + ([low] + tail) == [high, low] + tail;
    assert [high] + ([low] + s) == [high, low] + s;
  }

  lemma {:induction false} ReadEscaped(s: Text, rest: Text)
    ensures ReadString(Escape(s) + ([QUOTE] + rest)) == Some((s, rest))
  {
    var end := [QUOTE] + rest;
    if s == [] {
      assert [] + end == end && end[1..] == rest;
    } else if |s| >= 2 && HighSurrogate(s[0]) && LowSurrogate(s[1]) {
      ReadEscaped(s[2..], rest);
      PairReads(s[0], s[1], Escape(s[2..]) + end, s[2..], rest);
      Assoc([s[0], s[1]], Escape(s[2..]), end);
      assert s == [s[0], s[1]] + s[2..];
    } else {
      var tail := Escape(s[1..]) + end;
      ReadEscaped(s[1..], rest);
      ReadEscapedUnit(s[0], tail);
      assert (EscapeUnit(s[0]) + tail)[0] == EscapeUnit(s[0])[0];
      ReadStep(EscapeUnit(s[0]) + tail, s[0], tail, s[1..], rest);
      Assoc(EscapeUnit(s[0]), Escape(s[1..]), end);
      assert s == [s[0]] + s[1..];
    }
  }

  /** A quoted string reads back as itself, whatever follows it. */
  lemma {:induction false} QuotedReads(s: Text, rest: Text)
    ensures (Quoted(s) + rest)[0] == QUOTE
    ensures ReadString((Quoted(s) + rest)[1..]) == Some((s, rest))
  {
    ReadEscaped(s, rest);
    Assoc([QUOTE] + Escape(s), [QUOTE], rest);
    Assoc([QUOTE], Escape(s), [QUOTE] + rest);
    assert ([QUOTE] + (Escape(s) + ([QUOTE] + rest)))[1..] == Escape(s) + ([QUOTE] + rest);
  }

  lemma {:induction false} NumberReads(t: Text, rest: Text)
    requires (forall c | c in t :: NumberChar(c)) && (rest == [] || !NumberChar(rest[0]))
    ensures TakeNumber(t + rest) == (t, rest)
  {
    if t == [] {
      assert t + rest == rest;
    } else {
      NumberReads(t[1..], rest);
      assert (t + rest)[1..] == t[1..] + rest;
      assert t == [t[0]] + t[1..];
    }
  }
}
