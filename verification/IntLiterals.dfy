/** Integer literals: what the lexer accepts is a numeral, and the parser gives it its value. */
module IntLiterals {
  import opened Ast
  import opened Tokens
  import opened Lexing
  import opened Parsing
  import Printer

  /** Digits of a base, with underscores anywhere. */
  ghost predicate Numeral(s: string, base: nat) {
    forall k :: 0 <= k < |s| ==> s[k] == '_' || IsDigitOf(s[k], base)
  }

  ghost predicate HasDigit(s: string) {
    exists k :: 0 <= k < |s| && s[k] != '_'
  }

  /** The positional value of a numeral, from its last digit. */
  function Amount(s: string, base: nat): nat
    decreases |s|
  {
    if s == "" then 0
    else
      var before, last := s[..|s| - 1], s[|s| - 1];
      if DigitValue(last).Some? then Amount(before, base) * base + DigitValue(last).value else Amount(before, base)
  }

  lemma {:induction false} WithoutAppend(s: string, c: char)
    ensures WithoutUnderscores(s + [c]) == WithoutUnderscores(s) + if c == '_' then "" else [c]
    decreases s
  {
    if s == "" {
      assert [c][1..] == "" && s + [c] == [c];
    } else {
      assert (s + [c])[1..] == s[1..] + [c];
      WithoutAppend(s[1..], c);
    }
  }

  lemma {:induction false} DigitsLeft(s: string, base: nat)
    requires Numeral(s, base)
    ensures forall k :: 0 <= k < |WithoutUnderscores(s)| ==> IsDigitOf(WithoutUnderscores(s)[k], base)
    ensures HasDigit(s) ==> WithoutUnderscores(s) != ""
    decreases s
  {
    if s != "" {
      assert forall k :: 0 <= k < |s[1..]| ==> s[1..][k] == s[k + 1];
      DigitsLeft(s[1..], base);
      if HasDigit(s) && s[0] == '_' {
        var k :| 0 <= k < |s| && s[k] != '_';
        assert s[1..][k - 1] != '_';
      }
    }
  }

  lemma {:induction false} AmountReads(s: string, base: nat)
    requires Numeral(s, base)
    ensures DigitsValue(WithoutUnderscores(s), base, 0) == Some(Amount(s, base))
    decreases |s|
  {
    if s != "" {
      var before, last := s[..|s| - 1], s[|s| - 1];
      assert s == before + [last];
      AmountReads(before, base);
      WithoutAppend(before, last);
      if last != '_' {
        Printer.DigitsAppend(WithoutUnderscores(before), last, base, 0);
      } else {
        assert WithoutUnderscores(before) + "" == WithoutUnderscores(before);
      }
    }
  }

  lemma {:induction false} NumeralReads(s: string, base: nat)
    requires Numeral(s, base) && HasDigit(s)
    ensures FromRadix(WithoutUnderscores(s), base) == if Amount(s, base) < TWO128 then Some(Amount(s, base)) else None
  {
    DigitsLeft(s, base);
    AmountReads(s, base);
    assert IsDigitOf(WithoutUnderscores(s)[0], base);
  }

  /** What is scanned without a mistake is a numeral. */
  lemma {:induction false} CleanScan(b: string, base: nat, i: nat, sawDigit: bool, afterDigit: bool, afterUnderscore: bool)
    requires i <= |b|
    ensures var r := ScanInt(b, base, i, sawDigit, afterDigit, afterUnderscore);
      r.mistakes == [] ==> forall k :: i <= k < r.end ==> b[k] == '_' || IsDigitOf(b[k], base)
    ensures var r := ScanInt(b, base, i, sawDigit, afterDigit, afterUnderscore);
      r.mistakes == [] && r.sawDigit && !sawDigit ==> exists k :: i <= k < r.end && b[k] != '_'
    decreases |b| - i
  {
    if i < |b| {
      if IsDigitOf(b[i], base) {
        CleanScan(b, base, i + 1, true, true, false);
        assert b[i] != '_';
      } else if b[i] == '_' {
        CleanScan(b, base, i + 1, sawDigit, false, true);
      }
    }
  }

  /** The digits of a literal: what follows its base prefix. */
  function DigitsOf(b: string, i: nat, end: nat): string
    requires i < |b| && DigitsStart(b, i) <= end <= |b|
  {
    b[DigitsStart(b, i)..end]
  }

  lemma {:induction false} IntPieceAt(b: string, i: nat)
    requires i < |b| && IsDigit(b[i])
    ensures PieceAt(b, i) == IntPiece(b, i)
  {}

  lemma {:induction false} NumeralAt(b: string, i: nat)
    requires i < |b| && IsDigit(b[i]) && IntPiece(b, i).mistakes == []
    ensures DigitsStart(b, i) <= IntPiece(b, i).end <= |b|
    ensures var s := DigitsOf(b, i, IntPiece(b, i).end); Numeral(s, IntBase(b, i)) && HasDigit(s)
  {
    hide IntBase, ScanInt;
    var base, start := IntBase(b, i), DigitsStart(b, i);
    var r := ScanInt(b, base, start, false, false, false);
    assert |Mistakes("E1003", r.mistakes)| == |r.mistakes|;
    CleanScan(b, base, start, false, false, false);
    var s := b[start..r.end];
    forall k | 0 <= k < |s|
      ensures s[k] == '_' || IsDigitOf(s[k], base)
    {
      assert s[k] == b[start + k];
    }
    var k :| start <= k < r.end && b[k] != '_';
    assert s[k - start] == b[k];
  }

  lemma {:induction false} PrefixDecides(b: string, i: nat, end: nat)
    requires i < |b| && DigitsStart(b, i) <= end <= |b| && i < end
    ensures ParseIntValue(b[i..end]) == FromRadix(WithoutUnderscores(DigitsOf(b, i, end)), IntBase(b, i))
  {
    var raw := b[i..end];
    if |raw| >= 2 {
      assert raw[0] == b[i] && raw[1] == b[i + 1] && raw[2..] == b[i + 2..end];
    }
    hide FromRadix, WithoutUnderscores;
  }

  /** A literal accepted without diagnostics parses to its positional value; the parser has none for it, and takes 0,
      exactly when that value is past 128 bits. */
  lemma {:induction false} AcceptedLiteralValue(b: string, i: nat)
    requires i < |b| && IsDigit(b[i]) && PieceAt(b, i).Piece? && PieceAt(b, i).mistakes == []
    ensures PieceAt(b, i).kind == TokenKind.IntLit && DigitsStart(b, i) <= PieceAt(b, i).end <= |b|
    ensures var end := PieceAt(b, i).end;
      var v := Amount(DigitsOf(b, i, end), IntBase(b, i));
      ParseIntValue(b[i..end]) == if v < TWO128 then Some(v) else None
  {
    hide IntBase, ScanInt, PieceAt, ParseIntValue;
    IntPieceAt(b, i);
    NumeralAt(b, i);
    var end := IntPiece(b, i).end;
    PrefixDecides(b, i, end);
    NumeralReads(DigitsOf(b, i, end), IntBase(b, i));
  }
}
