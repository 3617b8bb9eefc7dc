/** The source validator of the assembly compiler: strict UTF-8 and no byte order mark. */
module Utf8 {
  type Byte = b: int | 0 <= b < 256

  /** A Unicode scalar value: any code point but the surrogates. */
  type Scalar = c: int | 0 <= c <= 0x10FFFF && !(0xD800 <= c <= 0xDFFF)

  datatype Decoded = Decoded(c: Scalar, size: nat) | Malformed

  // ----- encoding, by section 3 of RFC 3629 -----

  function Tail(c: int): Byte {
    0x80 + c % 64
  }

  function Encode(c: Scalar): (s: seq<Byte>)
    ensures 1 <= |s| <= 4
  {
    if c < 0x80 then [c]
    else if c < 0x800 then [0xC0 + c / 64, Tail(c)]
    else if c < 0x10000 then [0xE0 + c / 4096, Tail(c / 64), Tail(c)]
    else [0xF0 + c / 262144, Tail(c / 4096), Tail(c / 64), Tail(c)]
  }

  function EncodeAll(cs: seq<Scalar>): seq<Byte> {
    if cs == [] then [] else Encode(cs[0]) + EncodeAll(cs[1..])
  }

  ghost predicate WellFormed(s: seq<Byte>) {
    exists cs :: EncodeAll(cs) == s
  }

  // ----- decoding -----

  predicate IsTail(b: Byte) {
    0x80 <= b <= 0xBF
  }

  /** The bits a byte contributes, above those of its class. */
  function Bits(b: Byte, kind: Byte): int {
    b as int - kind as int
  }

  function Keep(c: int, least: nat, size: nat): Decoded {
    if least <= c <= 0x10FFFF && !(0xD800 <= c <= 0xDFFF) then Decoded(c, size) else Malformed
  }

  /** The first character: its bits put together, unless a shorter form exists or it is no scalar value. */
  function DecodeFirst(s: seq<Byte>): Decoded {
    if |s| >= 1 && s[0] < 0x80 then Decoded(s[0], 1)
    else if |s| >= 2 && 0xC0 <= s[0] < 0xE0 && IsTail(s[1]) then
      Keep(Bits(s[0], 0xC0) * 64 + Bits(s[1], 0x80), 0x80, 2)
    else if |s| >= 3 && 0xE0 <= s[0] < 0xF0 && IsTail(s[1]) && IsTail(s[2]) then
      Keep(Bits(s[0], 0xE0) * 4096 + Bits(s[1], 0x80) * 64 + Bits(s[2], 0x80), 0x800, 3)
    else if |s| >= 4 && 0xF0 <= s[0] < 0xF8 && IsTail(s[1]) && IsTail(s[2]) && IsTail(s[3]) then
      Keep(Bits(s[0], 0xF0) * 262144 + Bits(s[1], 0x80) * 4096 + Bits(s[2], 0x80) * 64 + Bits(s[3], 0x80), 0x10000, 4)
    else Malformed
  }

  lemma {:induction false} FirstFits(s: seq<Byte>)
    requires DecodeFirst(s).Decoded?
    ensures 1 <= DecodeFirst(s).size <= |s|
  {}

  datatype Text = Text(cs: seq<Scalar>) | Invalid

  function Decode(s: seq<Byte>): Text {
    if s == [] then Text([])
    else
      match DecodeFirst(s)
      case Malformed => Invalid
      case Decoded(c, size) =>
        FirstFits(s);
        match Decode(s[size..])
        case Text(cs) => Text([c] + cs)
        case Invalid => Invalid
  }

  lemma {:induction false} Digits(c: int)
    requires 0 <= c
    ensures c == (c / 64) * 64 + c % 64
    ensures c / 64 == (c / 4096) * 64 + c / 64 % 64
    ensures c / 4096 == (c / 262144) * 64 + c / 4096 % 64
  {
    assert c / 64 / 64 == c / 4096;
    assert c / 4096 / 64 == c / 262144;
  }

  lemma {:induction false} DigitsOf(x: nat, y: nat)
    requires y < 64
    ensures (x * 64 + y) / 64 == x && (x * 64 + y) % 64 == y
  {}

  lemma {:induction false} TwoBytes(x: nat, y: nat)
    requires y < 64 && 0x80 <= x * 64 + y < 0x800
    ensures Encode(x * 64 + y) == [0xC0 + x, 0x80 + y]
  {
    DigitsOf(x, y);
  }

  lemma {:induction false} ThreeBytes(x: nat, y: nat, z: nat, c: Scalar)
    requires y < 64 && z < 64 && c == x * 4096 + y * 64 + z && 0x800 <= c < 0x10000
    ensures Encode(c) == [0xE0 + x, 0x80 + y, 0x80 + z]
  {
    DigitsOf(x * 64 + y, z);
    DigitsOf(x, y);
    Digits(c);
  }

  lemma {:induction false} FourBytes(w: nat, x: nat, y: nat, z: nat, c: Scalar)
    requires x < 64 && y < 64 && z < 64 && c == w * 262144 + x * 4096 + y * 64 + z && 0x10000 <= c
    ensures Encode(c) == [0xF0 + w, 0x80 + x, 0x80 + y, 0x80 + z]
  {
    DigitsOf(w * 4096 + x * 64 + y, z);
    DigitsOf(w * 64 + x, y);
    DigitsOf(w, x);
    Digits(c);
  }

  /** What decodes is what its character encodes to. */
  lemma {:induction false} EncodeOfDecoded(s: seq<Byte>)
    requires DecodeFirst(s).Decoded?
    ensures var d := DecodeFirst(s); d.size <= |s| && Encode(d.c) == s[..d.size]
  {
    hide Encode;
    var d := DecodeFirst(s);
    if d.size == 1 {
      OneByte(s);
    } else if d.size == 2 {
      TwoBytes(s[0] - 0xC0, s[1] - 0x80);
    } else if d.size == 3 {
      ThreeBytes(s[0] - 0xE0, s[1] - 0x80, s[2] - 0x80, d.c);
    } else {
      FourBytes(s[0] - 0xF0, s[1] - 0x80, s[2] - 0x80, s[3] - 0x80, d.c);
    }
  }

  lemma {:induction false} OneByte(s: seq<Byte>)
    requires s != [] && s[0] < 0x80
    ensures Encode(s[0]) == s[..1]
  {}

  /** An encoding decodes to its character, whatever follows. */
  lemma {:induction false} DecodeOfEncoded(c: Scalar, rest: seq<Byte>)
    ensures DecodeFirst(Encode(c) + rest) == Decoded(c, |Encode(c)|)
  {
    Digits(c);
    var e := Encode(c);
    var s := e + rest;
    assert forall i :: 0 <= i < |e| ==> s[i] == e[i];
  }

  lemma {:induction false} EncodeInvertsDecode(s: seq<Byte>)
    requires Decode(s).Text?
    ensures EncodeAll(Decode(s).cs) == s
    decreases |s|
  {
    hide Encode, DecodeFirst;
    if s != [] {
      var d := DecodeFirst(s);
      EncodeOfDecoded(s);
      EncodeInvertsDecode(s[d.size..]);
      assert Decode(s).cs[1..] == Decode(s[d.size..]).cs;
      assert s == s[..d.size] + s[d.size..];
    }
  }

  lemma {:induction false} DecodeInvertsEncode(cs: seq<Scalar>)
    ensures Decode(EncodeAll(cs)) == Text(cs)
    decreases cs
  {
    if cs != [] {
      var rest := EncodeAll(cs[1..]);
      DecodeOfEncoded(cs[0], rest);
      DecodeInvertsEncode(cs[1..]);
      assert (Encode(cs[0]) + rest)[|Encode(cs[0])|..] == rest;
      assert cs == [cs[0]] + cs[1..];
    }
  }

  /** A byte string decodes exactly when it is the encoding of some text, and that text is unique. */
  lemma {:induction false} DecodesIffWellFormed(s: seq<Byte>)
    ensures Decode(s).Text? <==> WellFormed(s)
    ensures forall cs :: EncodeAll(cs) == s ==> Decode(s) == Text(cs)
  {
    if Decode(s).Text? {
      EncodeInvertsDecode(s);
    }
    forall cs | EncodeAll(cs) == s
      ensures Decode(s) == Text(cs)
    {
      DecodeInvertsEncode(cs);
    }
  }

  // ----- the validator -----

  /** A read of the buffer, within its filled part. */
  function At(buf: array<Byte>, len: nat, i: nat): Byte
    requires i < len <= buf.Length
    reads buf
  {
    buf[i]
  }

  /** Scans the buffer once, reading only its first len bytes, and accepts exactly the encodings of texts. */
  method ValidateUtf8Buffer(buf: array<Byte>, len: nat) returns (ok: bool)
    requires len <= buf.Length
    ensures ok <==> WellFormed(buf[..len])
  {
    hide DecodeFirst, WellFormed;
    ghost var s := buf[..len];
    DecodesIffWellFormed(s);
    var rsi: nat, rcx: nat := 0, len;
    assert s[0..] == s;
    while rcx != 0
      invariant rsi + rcx == len
      invariant Decode(s).Text? <==> Decode(s[rsi..]).Text?
    {
      assert buf[rsi..len] == s[rsi..];
      var size := CharacterSize(buf, len, rsi, rcx);
      DecodeStep(s, rsi, size);
      if size == 0 {
        return false;
      }
      rsi, rcx := rsi + size, rcx - size;
    }
    return true;
  }

  lemma {:induction false} DecodeStep(s: seq<Byte>, i: nat, size: nat)
    requires i < |s| && size == match DecodeFirst(s[i..]) case Decoded(_, n) => n case Malformed => 0
    ensures size <= |s| - i && (size == 0 <==> DecodeFirst(s[i..]).Malformed?)
    ensures Decode(s[i..]).Text? <==> size > 0 && Decode(s[i + size..]).Text?
  {
    if DecodeFirst(s[i..]).Decoded? {
      FirstFits(s[i..]);
      assert s[i..][size..] == s[i + size..];
    }
  }

  /** One pass through the branch tables. */
  method CharacterSize(buf: array<Byte>, len: nat, rsi: nat, rcx: nat) returns (size: nat)
    requires rcx > 0 && rsi + rcx == len <= buf.Length
    ensures size <= rcx
    ensures size == match DecodeFirst(buf[rsi..len]) case Decoded(_, n) => n case Malformed => 0
  {
    ghost var left := buf[rsi..len];
    assert forall i :: 0 <= i < rcx ==> left[i] == buf[rsi + i];
    var al := At(buf, len, rsi);
    if al < 0x80 {
      return 1;
    } else if al < 0xC2 {
      return 0;
    } else if al <= 0xDF {
      if rcx < 2 || !IsTail(At(buf, len, rsi + 1)) {
        return 0;
      }
      return 2;
    } else if al <= 0xEF {
      if rcx < 3 {
        return 0;
      }
      var second := At(buf, len, rsi + 1);
      if al == 0xE0 && (second < 0xA0 || second > 0xBF) {
        return 0;
      } else if al == 0xED && (second < 0x80 || second > 0x9F) {
        return 0;
      } else if al != 0xE0 && al != 0xED && !IsTail(second) {
        return 0;
      } else if !IsTail(At(buf, len, rsi + 2)) {
        return 0;
      }
      return 3;
    } else if al <= 0xF4 {
      if rcx < 4 {
        return 0;
      }
      var second := At(buf, len, rsi + 1);
      if al == 0xF0 && (second < 0x90 || second > 0xBF) {
        return 0;
      } else if al == 0xF4 && (second < 0x80 || second > 0x8F) {
        return 0;
      } else if al != 0xF0 && al != 0xF4 && !IsTail(second) {
        return 0;
      } else if !IsTail(At(buf, len, rsi + 2)) || !IsTail(At(buf, len, rsi + 3)) {
        return 0;
      }
      return 4;
    } else {
      return 0;
    }
  }

  const BOM: Scalar := 0xFEFF

  predicate HasBomBytes(s: seq<Byte>) {
    |s| >= 3 && s[0] == 0xEF && s[1] == 0xBB && s[2] == 0xBF
  }

  lemma {:induction false} BomBytes(s: seq<Byte>)
    requires Decode(s).Text?
    ensures HasBomBytes(s) <==> Decode(s).cs != [] && Decode(s).cs[0] == BOM
  {
    if s != [] {
      EncodeOfDecoded(s);
    }
  }

  lemma {:induction false} SoundIff(s: seq<Byte>)
    ensures WellFormed(s) && !HasBomBytes(s) <==> exists cs :: EncodeAll(cs) == s && !(cs != [] && cs[0] == BOM)
  {
    DecodesIffWellFormed(s);
    if Decode(s).Text? {
      BomBytes(s);
      EncodeInvertsDecode(s);
    }
  }

  datatype SourceCheck = Sound | HasBom | NotUtf8

  /** A source is sound exactly when it encodes a text that does not start with a byte order mark. */
  method ValidateSourceBytes(buf: array<Byte>, len: nat) returns (r: SourceCheck)
    requires len <= buf.Length
    ensures r.Sound? <==> exists cs :: EncodeAll(cs) == buf[..len] && !(cs != [] && cs[0] == BOM)
    ensures r.HasBom? <==> HasBomBytes(buf[..len])
  {
    SoundIff(buf[..len]);
    hide EncodeAll, Encode, WellFormed;
    if len >= 3 && At(buf, len, 0) == 0xEF && At(buf, len, 1) == 0xBB && At(buf, len, 2) == 0xBF {
      return HasBom;
    }
    var ok := ValidateUtf8Buffer(buf, len);
    return if ok then Sound else NotUtf8;
  }
}
