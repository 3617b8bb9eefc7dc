/** 64-bit words read as two's-complement numbers, and the signed arithmetic of the source language.
    Stage 0 never narrows a value: every source value is one such word. */
module Words {
  import opened Ast

  const TWO32: int := 0x1_0000_0000
  const TWO63: int := 0x8000_0000_0000_0000
  const TWO64: int := 0x1_0000_0000_0000_0000

  type Word = x: int | 0 <= x < 0x1_0000_0000_0000_0000

  function Signed(w: Word): int {
    if w < TWO63 then w else w - TWO64
  }

  function Wrap(x: int): Word {
    x % TWO64
  }

  function Bool(b: bool): Word {
    if b then 1 else 0
  }

  function Abs(x: int): nat {
    if x < 0 then -x else x
  }

  /** Division truncating toward zero. */
  function TruncDiv(x: int, y: int): int
    requires y != 0
  {
    if (x < 0) == (y < 0) then Abs(x) / Abs(y) else -(Abs(x) / Abs(y))
  }

  function TruncRem(x: int, y: int): int
    requires y != 0
  {
    x - y * TruncDiv(x, y)
  }

  /** Bitwise and, or of non-negative numbers. */
  function BitAnd(a: nat, b: nat): (r: nat)
    ensures r <= a
  {
    if a == 0 then 0 else 2 * BitAnd(a / 2, b / 2) + (if a % 2 == 1 && b % 2 == 1 then 1 else 0)
  }

  function Pow2(k: nat): nat {
    if k == 0 then 1 else 2 * Pow2(k - 1)
  }

  function BitOr(k: nat, a: nat, b: nat): (r: nat)
    requires a < Pow2(k) && b < Pow2(k)
    ensures r < Pow2(k)
  {
    if k == 0 then 0
    else 2 * BitOr(k - 1, a / 2, b / 2) + (if a % 2 == 1 || b % 2 == 1 then 1 else 0)
  }

  lemma {:induction false} Pow2Double(k: nat)
    ensures Pow2(2 * k) == Pow2(k) * Pow2(k)
  {
    if k > 0 {
      Pow2Double(k - 1);
      assert Pow2(2 * k) == 2 * (2 * Pow2(2 * k - 2));
      assert (2 * Pow2(k - 1)) * (2 * Pow2(k - 1)) == 4 * (Pow2(k - 1) * Pow2(k - 1));
    }
  }

  lemma {:induction false} Pow2Of64()
    ensures Pow2(64) == TWO64
  {
    assert Pow2(4) == 16;
    Pow2Double(4);
    Pow2Double(8);
    Pow2Double(16);
    Pow2Double(32);
  }

  function WordAnd(a: Word, b: Word): Word {
    BitAnd(a, b)
  }

  function WordOr(a: Word, b: Word): Word {
    Pow2Of64();
    BitOr(64, a, b)
  }

  // ----- the bits of a word -----

  /** Bit i, counted from the lowest. */
  function BitAt(w: nat, i: nat): nat {
    Pow2Positive(i);
    w / Pow2(i) % 2
  }

  lemma {:induction false} Pow2Positive(k: nat)
    ensures Pow2(k) >= 1
  {
    if k > 0 {
      Pow2Positive(k - 1);
    }
  }

  lemma {:induction false} BitStep(w: nat, i: nat)
    ensures BitAt(w, 0) == w % 2 && BitAt(w, i + 1) == BitAt(w / 2, i)
  {
    Pow2Positive(i);
    HalveFirst(w, Pow2(i));
  }

  lemma {:induction false} HalveFirst(w: nat, p: nat)
    requires p >= 1
    ensures w / (2 * p) == w / 2 / p
  {
    var h := w / 2;
    var q, r := h / p, h % p;
    assert h == q * p + r;
    assert w == q * (2 * p) + (2 * r + w % 2) by {
      assert 2 * (q * p) == q * (2 * p);
    }
    DivideBack(w, 2 * p, q, 2 * r + w % 2);
  }

  lemma {:induction false} DivideBack(w: nat, p: nat, q: nat, r: nat)
    requires p >= 1 && w == q * p + r && r < p
    ensures w / p == q && w % p == r
  {
    var d: int := w / p - q;
    assert d * p == w / p * p - q * p;
    AwayFromZero(d, p);
  }

  lemma {:induction false} AwayFromZero(d: int, p: nat)
    ensures (d >= 1 ==> d * p >= p) && (d <= -1 ==> d * p + p <= 0)
  {
    if d >= 1 {
      assert d * p == (d - 1) * p + p;
    } else if d <= -1 {
      assert d * p == (d + 1) * p - p;
    }
  }

  /** Two words with the same bits are one. */
  lemma {:induction false} SameBits(k: nat, a: nat, b: nat)
    requires a < Pow2(k) && b < Pow2(k) && forall i: nat :: i < k ==> BitAt(a, i) == BitAt(b, i)
    ensures a == b
    decreases k
  {
    if k > 0 {
      forall i: nat | i < k - 1
        ensures BitAt(a / 2, i) == BitAt(b / 2, i)
      {
        BitStep(a, i);
        BitStep(b, i);
        assert BitAt(a, i + 1) == BitAt(b, i + 1);
      }
      hide BitAt;
      SameBits(k - 1, a / 2, b / 2);
      BitStep(a, 0);
      BitStep(b, 0);
      assert BitAt(a, 0) == BitAt(b, 0);
    }
  }

  lemma {:induction false} BitAndAt(a: nat, b: nat, i: nat)
    ensures BitAt(BitAnd(a, b), i) == if BitAt(a, i) == 1 && BitAt(b, i) == 1 then 1 else 0
    decreases i
  {
    hide BitAt, BitAnd;
    AndHalves(a, b);
    if i > 0 {
      BitStep(a, i - 1);
      BitStep(b, i - 1);
      BitStep(BitAnd(a, b), i - 1);
      BitAndAt(a / 2, b / 2, i - 1);
    } else {
      BitStep(a, 0);
      BitStep(b, 0);
      BitStep(BitAnd(a, b), 0);
    }
  }

  lemma {:induction false} AndHalves(a: nat, b: nat)
    ensures BitAnd(a, b) / 2 == BitAnd(a / 2, b / 2)
    ensures BitAnd(a, b) % 2 == if a % 2 == 1 && b % 2 == 1 then 1 else 0
  {}

  lemma {:induction false} BitOrAt(k: nat, a: nat, b: nat, i: nat)
    requires a < Pow2(k) && b < Pow2(k) && i < k
    ensures BitAt(BitOr(k, a, b), i) == if BitAt(a, i) == 1 || BitAt(b, i) == 1 then 1 else 0
    decreases k
  {
    hide BitAt, BitOr, Pow2;
    OrHalves(k, a, b);
    if i > 0 {
      BitStep(a, i - 1);
      BitStep(b, i - 1);
      BitStep(BitOr(k, a, b), i - 1);
      BitOrAt(k - 1, a / 2, b / 2, i - 1);
    } else {
      BitStep(a, 0);
      BitStep(b, 0);
      BitStep(BitOr(k, a, b), 0);
    }
  }

  lemma {:induction false} OrHalves(k: nat, a: nat, b: nat)
    requires k > 0 && a < Pow2(k) && b < Pow2(k)
    ensures a / 2 < Pow2(k - 1) && b / 2 < Pow2(k - 1)
    ensures BitOr(k, a, b) / 2 == BitOr(k - 1, a / 2, b / 2)
    ensures BitOr(k, a, b) % 2 == if a % 2 == 1 || b % 2 == 1 then 1 else 0
  {}

  /** Bit by bit, the operators are conjunction and disjunction. */
  lemma {:induction false} AndOrBits(a: Word, b: Word, i: nat)
    requires i < 64
    ensures BitAt(WordAnd(a, b), i) == 1 <==> BitAt(a, i) == 1 && BitAt(b, i) == 1
    ensures BitAt(WordOr(a, b), i) == 1 <==> BitAt(a, i) == 1 || BitAt(b, i) == 1
  {
    hide BitAt;
    Pow2Of64();
    BitAndAt(a, b, i);
    BitOrAt(64, a, b, i);
  }

  /** What a source operator yields: a value, or the hardware's divide error. */
  datatype OpResult = Value(w: Word) | DivideError

  function DivideFails(a: Word, b: Word): bool {
    b == 0 || (Signed(a) == -TWO63 && Signed(b) == -1)
  }

  function EvalBinary(op: BinaryOp, a: Word, b: Word): OpResult {
    match op
    case Add => Value(Wrap(Signed(a) + Signed(b)))
    case Sub => Value(Wrap(Signed(a) - Signed(b)))
    case Mul => Value(Wrap(Signed(a) * Signed(b)))
    case Div => if DivideFails(a, b) then DivideError else Value(Wrap(TruncDiv(Signed(a), Signed(b))))
    case Mod => if DivideFails(a, b) then DivideError else Value(Wrap(TruncRem(Signed(a), Signed(b))))
    case Eq => Value(Bool(a == b))
    case NotEq => Value(Bool(a != b))
    case Lt => Value(Bool(Signed(a) < Signed(b)))
    case LtEq => Value(Bool(Signed(a) <= Signed(b)))
    case Gt => Value(Bool(Signed(a) > Signed(b)))
    case GtEq => Value(Bool(Signed(a) >= Signed(b)))
    case And => Value(WordAnd(a, b))
    case Or => Value(WordOr(a, b))
  }

  function EvalUnary(op: UnaryOp, a: Word): Word {
    match op
    case Neg => Wrap(-Signed(a))
    case Not => Bool(a == 0)
  }

  // ----- facts about the machine's unsigned arithmetic -----

  lemma {:induction false} WrapAdd(a: Word, b: Word)
    ensures Wrap(Signed(a) + Signed(b)) == (a + b) % TWO64
    ensures Wrap(Signed(a) - Signed(b)) == (a - b) % TWO64
    ensures Wrap(-Signed(a)) == (0 - a) % TWO64
  {
    var i := if a < TWO63 then 0 else 1;
    var j := if b < TWO63 then 0 else 1;
    ModShift(a + b, i + j);
    ModShift(a - b, i - j);
    ModShift(0 - a, -i);
  }

  lemma {:induction false} ModShift(x: int, k: int)
    ensures (x - TWO64 * k) % TWO64 == x % TWO64
  {}

  lemma {:induction false} WrapMul(a: Word, b: Word)
    ensures Wrap(Signed(a) * Signed(b)) == (a * b) % TWO64
  {
    var i := if a < TWO63 then 0 else 1;
    var j := if b < TWO63 then 0 else 1;
    var k := a * j + b * i - TWO64 * i * j;
    assert Signed(a) * Signed(b) == a * b - TWO64 * k by {
      if i == 0 && j == 0 {
      } else if i == 0 {
        assert a * (b - TWO64) == a * b - TWO64 * a;
      } else if j == 0 {
        assert (a - TWO64) * b == a * b - TWO64 * b;
      } else {
        assert (a - TWO64) * (b - TWO64) == a * b - TWO64 * a - TWO64 * b + TWO64 * TWO64;
      }
    }
    ModShift(a * b, k);
  }

  /** A truncated quotient leaves the signed range only for the most negative number divided by -1. */
  lemma {:induction false} QuotientFits(x: int, y: int)
    requires -TWO63 <= x < TWO63 && -TWO63 <= y < TWO63 && y != 0
    ensures -TWO63 <= TruncDiv(x, y) < TWO63 <==> !(x == -TWO63 && y == -1)
  {
    SmallQuotient(Abs(x), Abs(y));
  }

  lemma {:induction false} SmallQuotient(p: nat, q: nat)
    requires p <= TWO63 && q > 0
    ensures if q == 1 then p / q == p else p / q <= TWO63 / 2
  {
    if q > 1 {
      HalfOrLess(p, q);
    }
  }

  lemma {:induction false} HalfOrLess(p: nat, q: nat)
    requires q >= 2
    ensures p / q <= p / 2
  {
    var d := p / q;
    assert p == d * q + p % q;
    TimesAtLeastTwo(d, q);
  }

  lemma {:induction false} TimesAtLeastTwo(d: nat, q: nat)
    requires q >= 2
    ensures d * 2 <= d * q
  {
    var extra := q - 2;
    assert d * q == d * 2 + d * extra;
  }

  lemma {:induction false} BoolAndOr(a: Word, b: Word)
    requires a <= 1 && b <= 1
    ensures WordAnd(a, b) == Bool(a == 1 && b == 1)
    ensures WordOr(a, b) == Bool(a == 1 || b == 1)
  {
    Pow2Of64();
    BitOrOfBits(64, a, b);
    assert BitAnd(0, b / 2) == 0;
  }

  lemma {:induction false} BitOrOfBits(k: nat, a: nat, b: nat)
    requires k > 0 && a <= 1 && b <= 1 && Pow2(k) >= 2
    ensures BitOr(k, a, b) == if a == 1 || b == 1 then 1 else 0
  {
    BitOrZero(k - 1);
  }

  lemma {:induction false} BitOrZero(k: nat)
    requires Pow2(k) > 0
    ensures BitOr(k, 0, 0) == 0
  {
    if k > 0 {
      BitOrZero(k - 1);
    }
  }
}
