/** String literals: what the lexer accepts, what decoding makes of it, and a printing that both invert. */
module StringLiterals {
  import opened Ast
  import opened Tokens
  import opened Lexing
  import TokenShapes

  // ----- decoding -----

  /** The text between the quotes, or all of it where the quotes are missing. */
  function Inner(raw: string): string {
    if |raw| >= 2 && raw[0] == '"' && raw[|raw| - 1] == '"' then raw[1..|raw| - 1] else raw
  }

  function SimpleValue(c: char): char {
    match c
    case 'n' => '\n'
    case 't' => '\t'
    case 'r' => '\r'
    case '0' => '\0'
    case _ => c
  }

  function HexValue(a: char, b: char): char
    requires IsHex(a) && IsHex(b)
  {
    (DigitValue(a).value * 16 + DigitValue(b).value) as char
  }

  /** A two-character number in base 16; a sign counts as a first character. */
  function ParseByte(a: char, b: char): Option<char> {
    if !IsHex(b) then None
    else if IsHex(a) then Some(HexValue(a, b))
    else if a == '+' then Some(DigitValue(b).value as char)
    else None
  }

  function DecodeFrom(inner: string, i: nat): string
    decreases |inner| - i
  {
    if i >= |inner| then ""
    else if inner[i] != '\\' then [inner[i]] + DecodeFrom(inner, i + 1)
    else if i + 1 >= |inner| then ""
    else if inner[i + 1] == 'x' && i + 3 < |inner| then
      (match ParseByte(inner[i + 2], inner[i + 3]) case Some(v) => [v] case None => []) + DecodeFrom(inner, i + 4)
    else [SimpleValue(inner[i + 1])] + DecodeFrom(inner, i + 2)
  }

  function Decode(raw: string): string {
    DecodeFrom(Inner(raw), 0)
  }

  lemma {:induction false} Joined(a: string, c: string, b: string)
    ensures a + (c + b) == a + c + b
  {}

  method DecodeString(raw: string) returns (out: string)
    ensures out == Decode(raw)
  {
    hide ParseByte, SimpleValue, DecodeFrom;
    var bytes := if |raw| >= 2 && raw[0] == '"' && raw[|raw| - 1] == '"' then raw[1..|raw| - 1] else raw;
    out := "";
    var i: nat := 0;
    while i < |bytes|
      invariant DecodeFrom(bytes, 0) == out + DecodeFrom(bytes, i)
      decreases |bytes| - i
    {
      DecodeStep(bytes, i, out);
      if bytes[i] != '\\' {
        out := out + [bytes[i]];
        i := i + 1;
        continue;
      }
      i := i + 1;
      if i >= |bytes| {
        break;
      }
      if bytes[i] == 'x' && i + 2 < |bytes| {
        match ParseByte(bytes[i + 1], bytes[i + 2]) {
          case Some(v) => out := out + [v];
          case None =>
        }
        i := i + 2;
      } else {
        out := out + [SimpleValue(bytes[i])];
      }
      i := i + 1;
    }
    DecodeEnd(bytes, i, out);
  }

  lemma {:induction false} DecodeStep(inner: string, i: nat, out: string)
    requires i < |inner|
    ensures out + DecodeFrom(inner, i) ==
      if inner[i] != '\\' then out + [inner[i]] + DecodeFrom(inner, i + 1)
      else if i + 1 >= |inner| then out
      else if inner[i + 1] == 'x' && i + 3 < |inner| then
        match ParseByte(inner[i + 2], inner[i + 3])
        case Some(v) => out + [v] + DecodeFrom(inner, i + 4)
        case None => out + DecodeFrom(inner, i + 4)
      else out + [SimpleValue(inner[i + 1])] + DecodeFrom(inner, i + 2)
  {
    hide ParseByte, SimpleValue;
    if inner[i] != '\\' {
      Joined(out, [inner[i]], DecodeFrom(inner, i + 1));
    } else if i + 1 < |inner| {
      if inner[i + 1] == 'x' && i + 3 < |inner| {
        match ParseByte(inner[i + 2], inner[i + 3])
        case Some(v) => Joined(out, [v], DecodeFrom(inner, i + 4));
        case None => assert [] + DecodeFrom(inner, i + 4) == DecodeFrom(inner, i + 4);
      } else {
        Joined(out, [SimpleValue(inner[i + 1])], DecodeFrom(inner, i + 2));
      }
    }
  }

  lemma {:induction false} DecodeEnd(inner: string, i: nat, out: string)
    ensures i >= |inner| ==> DecodeFrom(inner, i) == "" && out + "" == out
  {}

  // ----- the characters and escapes of a literal -----

  datatype Unit = Plain(c: char) | Simple(c: char) | Hex(a: char, b: char)

  predicate ValidUnit(u: Unit) {
    match u
    case Plain(c) => c != '"' && c != '\\' && c != '\n' && c != '\r'
    case Simple(c) => IsSimpleEscape(c)
    case Hex(a, b) => IsHex(a) && IsHex(b)
  }

  ghost predicate ValidUnits(units: seq<Unit>) {
    forall k :: 0 <= k < |units| ==> ValidUnit(units[k])
  }

  function UnitText(u: Unit): string {
    match u
    case Plain(c) => [c]
    case Simple(c) => ['\\', c]
    case Hex(a, b) => ['\\', 'x', a, b]
  }

  function UnitValue(u: Unit): char
    requires ValidUnit(u)
  {
    match u
    case Plain(c) => c
    case Simple(c) => SimpleValue(c)
    case Hex(a, b) => HexValue(a, b)
  }

  /** What each escape stands for, in bytes. */
  function EscapedByte(c: char): nat {
    match c
    case 'n' => 10
    case 't' => 9
    case 'r' => 13
    case '0' => 0
    case '\\' => 92
    case '"' => 34
    case '\'' => 39
    case _ => 256
  }

  /** A plain character stands for itself, an escape for its byte, and two hexadecimal digits of either case for
      sixteen times the first and the second. */
  lemma {:induction false} UnitBytes(u: Unit)
    ensures ValidUnit(u) <==> match u
      case Plain(c) => c !in "\"\\\n\r"
      case Simple(c) => EscapedByte(c) < 256
      case Hex(a, b) => TokenShapes.DigitOf(a, 16) && TokenShapes.DigitOf(b, 16)
    ensures ValidUnit(u) ==> match u
      case Plain(c) => UnitValue(u) == c
      case Simple(c) => UnitValue(u) as int == EscapedByte(c)
      case Hex(a, b) =>
        forall h: nat, l: nat :: TokenShapes.Worth(a, h) && TokenShapes.Worth(b, l) ==> UnitValue(u) as int == 16 * h + l
  {
    match u
    case Plain(c) =>
      var all := "\"\\\n\r";
      assert all[0] == '"' && all[1] == '\\' && all[2] == '\n' && all[3] == '\r';
    case Simple(_) =>
    case Hex(a, b) =>
      TokenShapes.HexIff(a);
      TokenShapes.HexIff(b);
      forall h: nat, l: nat | TokenShapes.Worth(a, h) && TokenShapes.Worth(b, l)
        ensures ValidUnit(u) ==> UnitValue(u) as int == 16 * h + l
      {
        TokenShapes.WorthIs(a, h);
        TokenShapes.WorthIs(b, l);
      }
  }

  function Texts(units: seq<Unit>): string {
    if units == [] then "" else UnitText(units[0]) + Texts(units[1..])
  }

  function Values(units: seq<Unit>): string
    requires ValidUnits(units)
  {
    if units == [] then "" else [UnitValue(units[0])] + Values(units[1..])
  }

  lemma {:induction false} OneValueEach(units: seq<Unit>)
    requires ValidUnits(units)
    ensures |Values(units)| == |units|
    decreases units
  {
    if units != [] {
      OneValueEach(units[1..]);
    }
  }

  function Quoted(units: seq<Unit>): string {
    "\"" + Texts(units) + "\""
  }

  ghost predicate TextAt(b: string, i: nat, t: string) {
    i + |t| <= |b| && forall k :: 0 <= k < |t| ==> b[i + k] == t[k]
  }

  lemma {:induction false} TextIsSlice(b: string, i: nat, t: string)
    ensures TextAt(b, i, t) <==> i + |t| <= |b| && b[i..i + |t|] == t
  {
    if i + |t| <= |b| && b[i..i + |t|] == t {
      forall k | 0 <= k < |t|
        ensures b[i + k] == t[k]
      {
        assert b[i + k] == b[i..i + |t|][k];
      }
    }
  }

  lemma {:induction false} TextSplit(b: string, i: nat, t: string, u: string)
    ensures TextAt(b, i, t + u) <==> TextAt(b, i, t) && TextAt(b, i + |t|, u)
  {
    var all := t + u;
    if TextAt(b, i, all) {
      forall k | 0 <= k < |u|
        ensures b[i + |t| + k] == u[k]
      {
        assert b[i + (|t| + k)] == all[|t| + k];
      }
      forall k | 0 <= k < |t|
        ensures b[i + k] == t[k]
      {
        assert b[i + k] == all[k];
      }
    }
    if TextAt(b, i, t) && TextAt(b, i + |t|, u) {
      forall k | 0 <= k < |all|
        ensures b[i + k] == all[k]
      {
        if k >= |t| {
          assert b[i + |t| + (k - |t|)] == u[k - |t|];
        }
      }
    }
  }

  /** From place i on, the text is that of some units, a quote, and the rest. */
  ghost predicate LitAt(b: string, i: nat, units: seq<Unit>) {
    var t := Texts(units);
    TextAt(b, i, t) && i + |t| < |b| && b[i + |t|] == '"'
  }

  lemma {:induction false} LitStep(b: string, i: nat, units: seq<Unit>)
    requires units != [] && LitAt(b, i, units)
    ensures var u := UnitText(units[0]);
      TextAt(b, i, u) && LitAt(b, i + |u|, units[1..]) && |Texts(units)| == |u| + |Texts(units[1..])|
  {
    TextSplit(b, i, UnitText(units[0]), Texts(units[1..]));
  }

  lemma {:induction false} NotingNone(r: StringEnd)
    ensures Noting([], r) == r
  {}

  lemma {:induction false} UnitScans(b: string, i: nat, u: Unit)
    requires ValidUnit(u) && i + |UnitText(u)| < |b| && TextAt(b, i, UnitText(u))
    ensures ScanString(b, i) == ScanString(b, i + |UnitText(u)|)
  {
    NotingNone(ScanString(b, i + |UnitText(u)|));
    assert b[i + 0] == UnitText(u)[0];
    match u
    case Plain(_) =>
    case Simple(c) =>
      assert b[i + 1] == UnitText(u)[1];
      assert EscapeAt(b, i) == LeadsTo(i + 2, []);
    case Hex(x, y) =>
      assert b[i + 1] == UnitText(u)[1] && b[i + 2] == UnitText(u)[2] && b[i + 3] == UnitText(u)[3];
      assert EscapeAt(b, i) == LeadsTo(i + 4, []);
  }

  lemma {:induction false} LitInside(b: string, i: nat, units: seq<Unit>)
    requires LitAt(b, i, units)
    ensures i < |b|
  {}

  lemma {:induction false} QuoteScans(b: string, i: nat)
    requires LitAt(b, i, [])
    ensures ScanString(b, i) == Closed(i + |Texts([])| + 1, [])
  {}

  /** Valid units lex without a mistake, up to their closing quote. */
  lemma {:induction false} UnitsScan(b: string, i: nat, units: seq<Unit>)
    requires ValidUnits(units) && LitAt(b, i, units)
    ensures ScanString(b, i) == Closed(i + |Texts(units)| + 1, [])
    decreases units
  {
    hide ScanString, LitAt, UnitText, Texts;
    if units == [] {
      QuoteScans(b, i);
    } else {
      LitStep(b, i, units);
      LitInside(b, i + |UnitText(units[0])|, units[1..]);
      assert ValidUnit(units[0]);
      UnitScans(b, i, units[0]);
      UnitsScan(b, i + |UnitText(units[0])|, units[1..]);
    }
  }

  /** The unit at a place inside a literal that has no mistakes. */
  function UnitAt(b: string, i: nat): Unit
    requires i < |b|
  {
    if b[i] != '\\' then Plain(b[i])
    else if i + 1 >= |b| then Simple(b[i])
    else if b[i + 1] == 'x' && i + 3 < |b| then Hex(b[i + 2], b[i + 3])
    else Simple(b[i + 1])
  }

  lemma {:induction false} EscapeFits(b: string, i: nat)
    requires i < |b| && b[i] == '\\' && EscapeAt(b, i).LeadsTo? && EscapeAt(b, i).mistakes == []
    ensures var u := UnitAt(b, i);
      ValidUnit(u) && EscapeAt(b, i).next == i + |UnitText(u)| && TextAt(b, i, UnitText(u))
  {
    if b[i + 1] == 'x' {
      assert After(b, i + 2) == i + 3 && After(b, i + 3) == i + 4;
    }
  }

  lemma {:induction false} NotingEmpty(mistakes: seq<nat>, r: StringEnd)
    requires Noting(mistakes, r).Closed? && Noting(mistakes, r).mistakes == []
    ensures mistakes == [] && Noting(mistakes, r) == r
  {
    if r.Closed? {
      assert |mistakes + r.mistakes| == |mistakes| + |r.mistakes|;
    }
  }

  lemma {:induction false} UnitAtFits(b: string, i: nat)
    requires i < |b| && ScanString(b, i).Closed? && ScanString(b, i).mistakes == [] && b[i] != '"'
    ensures var u := UnitAt(b, i); var next := i + |UnitText(u)|;
      ValidUnit(u) && TextAt(b, i, UnitText(u)) && ScanString(b, next) == ScanString(b, i)
  {
    hide EscapeAt;
    if b[i] == '\\' {
      NotingEmpty(EscapeAt(b, i).mistakes, ScanString(b, EscapeAt(b, i).next));
      EscapeFits(b, i);
    }
  }

  /** What lexes without a mistake is valid units. */
  lemma {:induction false} ScanIsUnits(b: string, i: nat) returns (units: seq<Unit>)
    requires i <= |b| && ScanString(b, i).Closed? && ScanString(b, i).mistakes == []
    ensures ValidUnits(units) && LitAt(b, i, units) && ScanString(b, i).end == i + |Texts(units)| + 1
    decreases |b| - i
  {
    if b[i] == '"' {
      units := [];
    } else {
      var u := UnitAt(b, i);
      UnitAtFits(b, i);
      hide ScanString, LitAt, ValidUnit, UnitAt, Texts, ValidUnits;
      var rest := ScanIsUnits(b, i + |UnitText(u)|);
      units := UnitThen(b, i, u, rest);
    }
  }

  lemma {:induction false} UnitThen(b: string, i: nat, u: Unit, rest: seq<Unit>) returns (units: seq<Unit>)
    requires ValidUnit(u) && ValidUnits(rest)
    requires TextAt(b, i, UnitText(u)) && LitAt(b, i + |UnitText(u)|, rest)
    ensures units == [u] + rest && ValidUnits(units) && LitAt(b, i, units) && |Texts(units)| == |UnitText(u)| + |Texts(rest)|
  {
    units := [u] + rest;
    assert units[1..] == rest;
    TextSplit(b, i, UnitText(u), Texts(rest));
  }

  /** Decoding valid units yields one byte for each. */
  lemma {:induction false} UnitsDecode(b: string, i: nat, units: seq<Unit>)
    requires ValidUnits(units) && TextAt(b, i, Texts(units)) && |b| == i + |Texts(units)|
    ensures DecodeFrom(b, i) == Values(units)
    decreases units
  {
    if units != [] {
      hide DecodeFrom, UnitText, UnitValue, ValidUnit, TextAt;
      var u := UnitText(units[0]);
      assert ValidUnit(units[0]);
      TextSplit(b, i, u, Texts(units[1..]));
      UnitDecodes(b, i, units[0]);
      UnitsDecode(b, i + |u|, units[1..]);
    }
  }

  lemma {:induction false} UnitDecodes(b: string, i: nat, u: Unit)
    requires ValidUnit(u) && TextAt(b, i, UnitText(u))
    ensures DecodeFrom(b, i) == [UnitValue(u)] + DecodeFrom(b, i + |UnitText(u)|)
  {
    assert b[i + 0] == UnitText(u)[0];
    match u
    case Plain(_) =>
    case Simple(_) => assert b[i + 1] == UnitText(u)[1];
    case Hex(_, _) =>
      assert b[i + 1] == UnitText(u)[1] && b[i + 2] == UnitText(u)[2] && b[i + 3] == UnitText(u)[3];
  }

  lemma {:induction false} QuotedDecodes(units: seq<Unit>)
    requires ValidUnits(units)
    ensures Decode(Quoted(units)) == Values(units)
  {
    assert Inner(Quoted(units)) == Texts(units);
    UnitsDecode(Texts(units), 0, units);
  }

  lemma {:induction false} LitQuoted(b: string, i: nat, units: seq<Unit>)
    requires i < |b| && b[i] == '"' && LitAt(b, i + 1, units)
    ensures i + |Texts(units)| + 2 <= |b| && b[i..i + |Texts(units)| + 2] == Quoted(units)
  {
    var t := Texts(units);
    TextSplit(b, i, "\"", t);
    TextSplit(b, i, "\"" + t, "\"");
    TextIsSlice(b, i, Quoted(units));
  }

  /** A literal accepted without diagnostics is a quoted run of plain characters and good escapes,
      and decoding it yields one byte for each of them: no escape is dropped. */
  lemma {:induction false} AcceptedDecodes(b: string, i: nat) returns (units: seq<Unit>)
    requires i < |b| && b[i] == '"' && PieceAt(b, i).Piece? && PieceAt(b, i).kind == TokenKind.StrLit && PieceAt(b, i).mistakes == []
    ensures ValidUnits(units) && b[i..PieceAt(b, i).end] == Quoted(units)
    ensures Decode(b[i..PieceAt(b, i).end]) == Values(units) && |Values(units)| == |units|
  {
    StringPieceAt(b, i);
    hide ScanString, PieceAt, LitAt, Decode, Values;
    var r := ScanString(b, i + 1);
    assert |Mistakes("E1001", r.mistakes)| == |r.mistakes|;
    units := ScanIsUnits(b, i + 1);
    LitQuoted(b, i, units);
    QuotedDecodes(units);
    OneValueEach(units);
  }

  // ----- printing -----

  function HexDigit(n: nat): char
    requires n < 16
  {
    if n < 10 then ('0' as int + n) as char else ('a' as int + n - 10) as char
  }

  /** Printable characters stand for themselves; the rest is escaped. */
  function UnitOf(c: char): Unit
    requires c as int < 256
  {
    if c == '\n' then Simple('n')
    else if c == '\t' then Simple('t')
    else if c == '\r' then Simple('r')
    else if c == '\\' then Simple('\\')
    else if c == '"' then Simple('"')
    else if c == '\0' then Simple('0')
    else if 32 <= c as int < 127 then Plain(c)
    else Hex(HexDigit(c as int / 16), HexDigit(c as int % 16))
  }

  /** Characters that stand for bytes. */
  predicate Bytes(s: string) {
    forall k :: 0 <= k < |s| ==> s[k] as int < 256
  }

  function UnitsOf(s: string): (units: seq<Unit>)
    requires Bytes(s)
    ensures |units| == |s|
  {
    seq(|s|, k requires 0 <= k < |s| => UnitOf(s[k]))
  }

  lemma {:induction false} UnitOfValue(c: char)
    requires c as int < 256
    ensures ValidUnit(UnitOf(c)) && UnitValue(UnitOf(c)) == c
  {
    HexDigits(c as int / 16);
    HexDigits(c as int % 16);
  }

  lemma {:induction false} HexDigits(n: nat)
    requires n < 16
    ensures DigitValue(HexDigit(n)) == Some(n)
  {}

  lemma {:induction false} UnitsOfValue(s: string)
    requires Bytes(s)
    ensures ValidUnits(UnitsOf(s)) && Values(UnitsOf(s)) == s
    decreases s
  {
    forall k | 0 <= k < |s|
      ensures ValidUnit(UnitsOf(s)[k])
    {
      UnitOfValue(s[k]);
    }
    if s != [] {
      UnitOfValue(s[0]);
      UnitsOfValue(s[1..]);
      assert UnitsOf(s)[1..] == UnitsOf(s[1..]);
    }
  }

  /** A byte string as a string literal. */
  function PrintString(s: string): string
    requires Bytes(s)
  {
    Quoted(UnitsOf(s))
  }

  /** Wherever it stands, a printed literal is one token without diagnostics. */
  lemma {:induction false} PrintedAt(b: string, i: nat, s: string)
    requires Bytes(s) && TextAt(b, i, PrintString(s))
    ensures i < |b| && b[i] == '"' && PieceAt(b, i) == Piece(TokenKind.StrLit, i + |PrintString(s)|, [])
  {
    hide ScanString, UnitOf, PieceAt, UnitsOf, TextAt, Texts;
    var units := UnitsOf(s);
    UnitsOfValue(s);
    QuotedAt(b, i, units);
    UnitsScan(b, i + 1, units);
    StringPieceAt(b, i);
    assert Mistakes("E1001", []) == [];
  }

  lemma {:induction false} QuotedAt(b: string, i: nat, units: seq<Unit>)
    requires TextAt(b, i, Quoted(units))
    ensures i < |b| && b[i] == '"' && LitAt(b, i + 1, units) && |Quoted(units)| == |Texts(units)| + 2
  {
    var t := Texts(units);
    TextSplit(b, i, "\"" + t, "\"");
    TextSplit(b, i, "\"", t);
    assert b[i + 0] == "\""[0] && b[i + |"\"" + t| + 0] == "\""[0];
  }

  lemma {:induction false} StringPieceAt(b: string, i: nat)
    requires i < |b| && b[i] == '"'
    ensures PieceAt(b, i) == StringPiece(b, i)
  {}

  /** The round trip: every byte string, printed, lexes to a single string literal that decodes to it. */
  lemma {:induction false} StringRoundTrip(s: string)
    requires Bytes(s)
    ensures var p := PrintString(s);
      && Lex(p) == Lexed([Token(TokenKind.StrLit, p, SpanOf(p, 0, |p|)), EofToken(p)], [])
      && Decode(p) == s
  {
    hide ScanString, UnitOf, PieceAt, UnitsOf, Texts, DecodeFrom, UnitsOf;
    var p := PrintString(s);
    assert p[0..|p|] == p;
    TextIsSlice(p, 0, p);
    PrintedAt(p, 0, s);
    UnitsOfValue(s);
    QuotedDecodes(UnitsOf(s));
    assert LexFrom(p, |p|) == Lexed([EofToken(p)], []);
    assert DiagnosticsOf(p, 0, []) == [];
  }

  // ----- cuts between characters -----

  /** A byte that goes on with a character of several bytes. */
  predicate Continues(c: char) {
    0x80 <= c as int < 0xC0
  }

  predicate Between(inner: string, k: nat) {
    k < |inner| ==> !Continues(inner[k])
  }

  /** Decoding cuts the two digits of an escape out of the text, and every cut is between characters. */
  predicate CutsWell(inner: string, i: nat)
    decreases |inner| - i
  {
    if i + 1 >= |inner| then true
    else if inner[i] != '\\' then CutsWell(inner, i + 1)
    else if inner[i + 1] == 'x' && i + 3 < |inner| then Between(inner, i + 2) && Between(inner, i + 4) && CutsWell(inner, i + 4)
    else CutsWell(inner, i + 2)
  }

  /** As in UTF-8, a character of one byte is never gone on with. */
  ghost predicate NoneStray(inner: string) {
    forall k :: 0 < k < |inner| && Continues(inner[k]) ==> inner[k - 1] as int >= 0x80
  }

  lemma {:induction false} UnitsCutWell(inner: string, i: nat, units: seq<Unit>)
    requires ValidUnits(units) && NoneStray(inner) && TextAt(inner, i, Texts(units)) && i + |Texts(units)| == |inner|
    ensures CutsWell(inner, i)
    decreases units
  {
    if units != [] {
      var u := UnitText(units[0]);
      TextSplit(inner, i, u, Texts(units[1..]));
      assert ValidUnit(units[0]);
      UnitsCutWell(inner, i + |u|, units[1..]);
      UnitCutsWell(inner, i, units[0]);
    }
  }

  lemma {:induction false} UnitCutsWell(inner: string, i: nat, u: Unit)
    requires ValidUnit(u) && NoneStray(inner) && TextAt(inner, i, UnitText(u)) && CutsWell(inner, i + |UnitText(u)|)
    ensures CutsWell(inner, i)
  {
    assert inner[i + 0] == UnitText(u)[0];
    match u
    case Plain(_) =>
    case Simple(_) => assert inner[i + 1] == UnitText(u)[1];
    case Hex(a, b) => assert inner[i + 1] == UnitText(u)[1] && inner[i + 2] == UnitText(u)[2] && inner[i + 3] == UnitText(u)[3];
  }

  lemma {:induction false} QuotedCutsWell(units: seq<Unit>)
    requires ValidUnits(units) && NoneStray(Texts(units))
    ensures CutsWell(Inner(Quoted(units)), 0)
  {
    hide CutsWell, Texts;
    var t := Texts(units);
    assert Quoted(units)[1..|Quoted(units)| - 1] == t;
    TextIsSlice(t, 0, t);
    assert t[0..|t|] == t;
    UnitsCutWell(t, 0, units);
  }

  /** Decoding a literal accepted without diagnostics cuts its text only between characters. */
  lemma {:induction false} AcceptedCutsWell(b: string, i: nat)
    requires i < |b| && b[i] == '"' && PieceAt(b, i).Piece? && PieceAt(b, i).kind == TokenKind.StrLit && PieceAt(b, i).mistakes == []
    requires NoneStray(b)
    ensures CutsWell(Inner(b[i..PieceAt(b, i).end]), 0)
  {
    hide PieceAt, CutsWell, Texts, DecodeFrom;
    var end := PieceAt(b, i).end;
    var units := AcceptedDecodes(b, i);
    var t := Texts(units);
    assert Quoted(units)[1..|t| + 1] == t;
    forall k | 0 < k < |t| && Continues(t[k])
      ensures t[k - 1] as int >= 0x80
    {
      assert t[k] == Quoted(units)[k + 1] == b[i..end][k + 1] == b[i + k + 1];
      assert t[k - 1] == Quoted(units)[k] == b[i..end][k] == b[i + k];
    }
    QuotedCutsWell(units);
  }
}
