/** Constant folding in the assembly compiler's emitter: register arithmetic that gives up on overflow. */
module ConstFold {
  import opened Ast
  import opened Words

  datatype FoldOp = Plus | Minus | Times | Over | Rem | Xor | Shl | Shr | Rol | Ror | Pow | Other

  /** An operand: an integer literal with its payload, or anything else. */
  datatype Operand = Literal(payload: Word) | NotLiteral

  datatype Outcome = Folded(w: Word) | Unsafe | NotConstant | DivideFault

  // ----- the numbers behind the words -----

  function Number(unsigned: bool, w: Word): int {
    if unsigned then w else Signed(w)
  }

  predicate InRange(unsigned: bool, x: int) {
    if unsigned then 0 <= x < TWO64 else -TWO63 <= x < TWO63
  }

  lemma {:induction false} NumberOfWrap(unsigned: bool, x: int)
    ensures InRange(unsigned, x) <==> Number(unsigned, Wrap(x)) == x
  {}

  function Power(x: int, n: nat): int {
    if n == 0 then 1 else Power(x, n - 1) * x
  }

  /** The mathematical result of an arithmetic operator; a division by zero has none. */
  function Exact(op: FoldOp, x: int, y: int): Option<int> {
    match op
    case Plus => Some(x + y)
    case Minus => Some(x - y)
    case Times => Some(x * y)
    case Over => if y == 0 then None else Some(TruncDiv(x, y))
    case Rem => if y == 0 then None else Some(TruncRem(x, y))
    case Pow => Some(if y <= 0 then 1 else Power(x, y))
    case _ => None
  }

  predicate IsArithmetic(op: FoldOp) {
    op in {Plus, Minus, Times, Over, Rem, Pow}
  }

  /** The one quotient that does not fit. */
  predicate Faults(op: FoldOp, unsigned: bool, x: int, y: int) {
    op in {Over, Rem} && !unsigned && x == -TWO63 && y == -1
  }

  // ----- powers -----

  lemma {:induction false} PowerMagnitude(x: int, k: nat, n: nat)
    requires k <= n && Abs(x) >= 2
    ensures Abs(Power(x, n)) >= Abs(Power(x, k)) * (if k < n then 2 else 1)
    decreases n
  {
    if k < n {
      PowerMagnitude(x, k, n - 1);
      AbsTimes(Power(x, n - 1), x);
    }
  }

  lemma {:induction false} AbsTimes(p: int, x: int)
    requires Abs(x) >= 2
    ensures Abs(p * x) >= Abs(p) * 2
  {
    var m := Abs(p);
    assert Abs(p * x) == m * Abs(x) by {
      if p >= 0 {
        if x >= 0 {} else { assert p * x == -(p * -x); }
      } else {
        if x >= 0 { assert p * x == -((-p) * x); } else { assert p * x == (-p) * (-x); }
      }
    }
    assert m * Abs(x) == m * 2 + m * (Abs(x) - 2);
  }

  lemma {:induction false} SmallBase(x: int, n: nat)
    requires -1 <= x <= 1
    ensures -1 <= Power(x, n) <= 1 && (x >= 0 ==> Power(x, n) >= 0)
    ensures x == 1 ==> Power(x, n) == 1
    ensures x == 0 && n > 0 ==> Power(x, n) == 0
  {
    if n > 0 {
      SmallBase(x, n - 1);
    }
  }

  /** Once a power leaves the range, every higher power is outside too: giving up early never gives up wrongly. */
  lemma {:induction false} PowerEscapes(unsigned: bool, x: int, k: nat, n: nat)
    requires InRange(unsigned, x) && k <= n
    requires !InRange(unsigned, Power(x, k))
    ensures !InRange(unsigned, Power(x, n))
  {
    if -1 <= x <= 1 {
      SmallBase(x, k);
      assert false;
    } else {
      PowerMagnitude(x, k, n);
      if unsigned {
        PowerPositive(x, k);
        PowerPositive(x, n);
      }
    }
  }

  lemma {:induction false} PowerPositive(x: int, n: nat)
    requires x >= 0
    ensures Power(x, n) >= 0
  {
    if n > 0 {
      PowerPositive(x, n - 1);
    }
  }

  // ----- flags -----

  /** Overflow of `add`: the operands have one sign and the sum has the other. */
  predicate AddOverflows(a: Word, b: Word) {
    (a >= TWO63) == (b >= TWO63) && (Wrap(a + b) >= TWO63) != (a >= TWO63)
  }

  predicate SubOverflows(a: Word, b: Word) {
    (a >= TWO63) != (b >= TWO63) && (Wrap(a - b) >= TWO63) != (a >= TWO63)
  }

  /** Overflow of `mul`: the high half of the product is not zero. */
  predicate HighHalf(a: Word, b: Word) {
    a * b / TWO64 != 0
  }

  /** Overflow of the one-word `imul`: the product is not its own low half, sign-extended. */
  predicate ImulOverflows(a: Word, b: Word) {
    Signed(Wrap(Signed(a) * Signed(b))) != Signed(a) * Signed(b)
  }

  lemma {:induction false} AddFlags(a: Word, b: Word)
    ensures AddOverflows(a, b) <==> !InRange(false, Signed(a) + Signed(b))
    ensures a + b >= TWO64 <==> !InRange(true, a + b)
  {
    SumWraps(a, b);
  }

  lemma {:induction false} SumWraps(a: Word, b: Word)
    ensures Wrap(a + b) == if a + b < TWO64 then a + b else a + b - TWO64
    ensures Wrap(a - b) == if a >= b then a - b else a - b + TWO64
  {}

  lemma {:induction false} SubFlags(a: Word, b: Word)
    ensures SubOverflows(a, b) <==> !InRange(false, Signed(a) - Signed(b))
    ensures a < b <==> !InRange(true, a - b)
  {
    SumWraps(a, b);
  }

  lemma {:induction false} MulFlags(a: Word, b: Word)
    ensures HighHalf(a, b) <==> !InRange(true, a * b)
    ensures ImulOverflows(a, b) <==> !InRange(false, Signed(a) * Signed(b))
    ensures Wrap(a * b) == Wrap(Signed(a) * Signed(b))
  {
    WrapMul(a, b);
    NumberOfWrap(false, Signed(a) * Signed(b));
    ProductSign(a, b);
    Halves(a * b);
  }

  lemma {:induction false} ProductSign(a: nat, b: nat)
    ensures a * b >= 0
  {}

  lemma {:induction false} Halves(p: nat)
    ensures p / TWO64 != 0 <==> p >= TWO64
  {}

  // ----- bits -----

  function BitXor(k: nat, a: nat, b: nat): (r: nat)
    requires a < Pow2(k) && b < Pow2(k)
    ensures r < Pow2(k)
  {
    if k == 0 then 0
    else 2 * BitXor(k - 1, a / 2, b / 2) + (if a % 2 != b % 2 then 1 else 0)
  }

  function WordXor(a: Word, b: Word): Word {
    Pow2Of64();
    BitXor(64, a, b)
  }

  lemma {:induction false} BitXorAt(k: nat, a: nat, b: nat, i: nat)
    requires a < Pow2(k) && b < Pow2(k) && i < k
    ensures BitAt(BitXor(k, a, b), i) == if BitAt(a, i) != BitAt(b, i) then 1 else 0
    decreases k
  {
    hide BitAt;
    BitStep(a, i);
    BitStep(b, i);
    BitStep(BitXor(k, a, b), i);
    if i > 0 {
      BitStep(a, i - 1);
      BitStep(b, i - 1);
      BitStep(BitXor(k, a, b), i - 1);
      BitXorAt(k - 1, a / 2, b / 2, i - 1);
    }
  }

  function ShiftLeft(a: Word, k: nat): Word {
    Wrap(a * Pow2(k))
  }

  function ShiftRight(a: Word, k: nat): Word {
    Pow2Positive(k);
    QuotientAtMost(a, Pow2(k));
    a / Pow2(k)
  }

  lemma {:induction false} QuotientAtMost(a: nat, p: nat)
    requires p >= 1
    ensures 0 <= a / p <= a
  {
    var q := a / p;
    assert a == q * p + a % p;
    assert q * p == q + q * (p - 1);
  }

  lemma {:induction false} Pow2Add(i: nat, j: nat)
    ensures Pow2(i + j) == Pow2(i) * Pow2(j)
  {
    if i > 0 {
      Pow2Add(i - 1, j);
      assert 2 * Pow2(i - 1) * Pow2(j) == 2 * (Pow2(i - 1) * Pow2(j));
    }
  }

  /** A word split into its high p values and low q values: shifting moves each part whole. */
  lemma {:induction false} Split(a: Word, p: nat, q: nat) returns (high: nat, low: nat)
    requires p >= 1 && q >= 1 && p * q == TWO64
    ensures a == high * q + low && low < q && high < p
    ensures a / q == high && (a * p) % TWO64 == low * p && low * p + high < TWO64
  {
    high, low := a / q, a % q;
    DivMod(a, q);
    HighBelow(a, p, q, high, low);
    LowMoves(a, p, q, high, low);
  }

  lemma {:induction false} DivMod(a: nat, q: nat)
    requires q >= 1
    ensures a == a / q * q + a % q && a % q < q
  {}

  lemma {:induction false} LowMoves(a: Word, p: nat, q: nat, high: nat, low: nat)
    requires p >= 1 && q >= 1 && p * q == TWO64 && a == high * q + low && low < q && high < p
    ensures (a * p) % TWO64 == low * p && low * p + high < TWO64
  {
    Distribute(high, q, low, p);
    LowFits(p, q, low);
    Multiple(low * p, high);
  }

  lemma {:induction false} LowFits(p: nat, q: nat, low: nat)
    requires p * q == TWO64 && low < q
    ensures low * p + p <= TWO64
  {
    Difference(q, low, p);
    Steps(q - low, p);
  }

  lemma {:induction false} HighBelow(a: Word, p: nat, q: nat, high: nat, low: nat)
    requires p >= 1 && q >= 1 && p * q == TWO64 && a == high * q + low
    ensures high < p
  {
    Difference(high, p, q);
    Steps(high - p, q);
  }

  lemma {:induction false} Difference(x: int, y: int, p: int)
    ensures (x - y) * p == x * p - y * p
  {}

  lemma {:induction false} Steps(d: int, p: nat)
    ensures d >= 0 ==> d * p >= 0
    ensures d >= 1 ==> d * p >= p
    ensures d <= -1 ==> d * p + p <= 0
  {
    if d >= 1 {
      assert d * p == (d - 1) * p + p;
    } else if d <= -1 {
      assert d * p == (d + 1) * p - p;
      assert (d + 1) * p <= 0;
    }
  }

  lemma {:induction false} Distribute(high: int, q: int, low: int, p: int)
    ensures (high * q + low) * p == high * (p * q) + low * p
  {
    assert (high * q + low) * p == high * q * p + low * p;
    assert high * q * p == high * (q * p);
  }

  lemma {:induction false} Multiple(x: nat, k: nat)
    requires x < TWO64
    ensures (k * TWO64 + x) % TWO64 == x
  {}

  /** The high bits come around to the low end; k is below 64. */
  function RotateLeft(a: Word, k: nat): Word
    requires k < 64
  {
    RotationFits(a, k);
    ShiftLeft(a, k) + ShiftRight(a, 64 - k)
  }

  function RotateRight(a: Word, k: nat): Word
    requires k < 64
  {
    RotationFits(a, 64 - k);
    ShiftRight(a, k) + ShiftLeft(a, 64 - k)
  }

  lemma {:induction false} RotationFits(a: Word, k: nat)
    requires k <= 64
    ensures ShiftLeft(a, k) + ShiftRight(a, 64 - k) < TWO64
  {
    Halving(k);
    var high, low := Split(a, Pow2(k), Pow2(64 - k));
  }

  lemma {:induction false} Halving(k: nat)
    requires k <= 64
    ensures Pow2(k) >= 1 && Pow2(64 - k) >= 1 && Pow2(k) * Pow2(64 - k) == TWO64
  {
    Pow2Positive(k);
    Pow2Positive(64 - k);
    Pow2Add(k, 64 - k);
    Pow2Of64();
  }

  // ----- the bits of shifted words -----

  lemma {:induction false} ShiftHalf(a: Word, k: nat)
    requires k > 0
    ensures ShiftRight(a, k) == ShiftRight(a / 2, k - 1)
  {
    Pow2Positive(k - 1);
    HalveFirst(a, Pow2(k - 1));
  }

  lemma {:induction false} ShiftedDown(a: Word, k: nat, i: nat)
    ensures BitAt(ShiftRight(a, k), i) == BitAt(a, i + k)
    decreases k
  {
    hide BitAt;
    if k > 0 {
      ShiftHalf(a, k);
      hide ShiftRight;
      ShiftedDown(a / 2, k - 1, i);
      BitStep(a, i + k - 1);
    }
  }

  lemma {:induction false} BitsBeyond(a: nat, i: nat)
    requires a < Pow2(i)
    ensures BitAt(a, i) == 0
  {}

  /** The low bits of a word. */
  lemma {:induction false} LowBits(a: nat, n: nat, i: nat)
    requires i < n && Pow2(n) >= 1
    ensures BitAt(a % Pow2(n), i) == BitAt(a, i)
    decreases n
  {
    hide BitAt;
    Pow2Positive(n - 1);
    HalfRest(a, Pow2(n - 1));
    BitStep(a, i);
    BitStep(a % Pow2(n), i);
    if i > 0 {
      BitStep(a, i - 1);
      BitStep(a % Pow2(n), i - 1);
      LowBits(a / 2, n - 1, i - 1);
    }
  }

  lemma {:induction false} HalfRest(a: nat, p: nat)
    requires p >= 1
    ensures a % (2 * p) / 2 == a / 2 % p && a % (2 * p) % 2 == a % 2
  {
    var h := a / 2;
    var q, r := h / p, h % p;
    assert h == q * p + r;
    assert a == q * (2 * p) + (2 * r + a % 2) by {
      assert 2 * (q * p) == q * (2 * p);
    }
    DivideBack(a, 2 * p, q, 2 * r + a % 2);
  }

  /** One word above another of k bits. */
  lemma {:induction false} StackedBits(x: nat, y: nat, k: nat, i: nat)
    requires y < Pow2(k)
    ensures BitAt(x * Pow2(k) + y, i) == if i < k then BitAt(y, i) else BitAt(x, i - k)
    decreases k
  {
    hide BitAt;
    if k > 0 {
      var w := x * Pow2(k) + y;
      assert w == 2 * (x * Pow2(k - 1)) + y by {
        assert x * (2 * Pow2(k - 1)) == 2 * (x * Pow2(k - 1));
      }
      assert w / 2 == x * Pow2(k - 1) + y / 2 && w % 2 == y % 2;
      BitStep(w, i);
      BitStep(y, i);
      if i > 0 {
        BitStep(w, i - 1);
        BitStep(y, i - 1);
        StackedBits(x, y / 2, k - 1, i - 1);
      }
    }
  }

  lemma {:induction false} ShiftBits(a: Word, k: nat, i: nat)
    requires k < 64 && i < 64
    ensures BitAt(ShiftLeft(a, k), i) == if i < k then 0 else BitAt(a, i - k)
    ensures BitAt(ShiftRight(a, k), i) == if i + k < 64 then BitAt(a, i + k) else 0
  {
    hide BitAt, ShiftLeft, ShiftRight, Pow2;
    ShiftedUp(a, k, i);
    ShiftedDown(a, k, i);
    if i + k >= 64 {
      WordEnds(a, i + k);
    }
  }

  lemma {:induction false} WordEnds(a: Word, i: nat)
    requires i >= 64
    ensures BitAt(a, i) == 0
  {
    hide BitAt;
    Pow2Add(64, i - 64);
    Pow2Of64();
    Pow2Positive(i - 64);
    Steps(Pow2(i - 64), TWO64);
    BitsBeyond(a, i);
  }

  /** A word cut above its low 64 - k bits: the one part moves up, the other down. */
  lemma {:induction false} Cut(a: Word, k: nat) returns (high: nat, low: nat)
    requires k <= 64
    ensures Pow2(64 - k) >= 1 && low == a % Pow2(64 - k) && high < Pow2(k) && 0 < Pow2(k)
    ensures ShiftLeft(a, k) == low * Pow2(k) && ShiftRight(a, 64 - k) == high
  {
    Halving(k);
    high, low := Split(a, Pow2(k), Pow2(64 - k));
    hide Pow2;
    DivideBack(a, Pow2(64 - k), high, low);
  }

  lemma {:induction false} ShiftedUp(a: Word, k: nat, i: nat)
    requires k < 64 && i < 64
    ensures BitAt(ShiftLeft(a, k), i) == if i < k then 0 else BitAt(a, i - k)
  {
    hide BitAt, Pow2, ShiftLeft, ShiftRight;
    var high, low := Cut(a, k);
    StackedBits(low, 0, k, i);
    if i < k {
      ZeroBits(i);
    } else {
      LowBits(a, 64 - k, i - k);
    }
  }

  lemma {:induction false} ZeroBits(i: nat)
    ensures BitAt(0, i) == 0
  {
    Pow2Positive(i);
    BitsBeyond(0, i);
  }

  lemma {:induction false} RotateBits(a: Word, k: nat, i: nat)
    requires k < 64 && i < 64
    ensures BitAt(RotateLeft(a, k), i) == BitAt(a, (i + 64 - k) % 64)
    ensures BitAt(RotateRight(a, k), i) == BitAt(a, (i + k) % 64)
  {
    hide BitAt, ShiftLeft, ShiftRight;
    RotatedBits(a, k, i);
    RotatedBits(a, 64 - k, i);
  }

  /** The k high bits come below the others. */
  lemma {:induction false} RotatedBits(a: Word, k: nat, i: nat)
    requires k <= 64 && i < 64
    ensures BitAt(ShiftLeft(a, k) + ShiftRight(a, 64 - k), i) == if i < k then BitAt(a, i + 64 - k) else BitAt(a, i - k)
  {
    hide BitAt, Pow2, ShiftLeft, ShiftRight;
    var high, low := Cut(a, k);
    StackedBits(low, high, k, i);
    ShiftedDown(a, 64 - k, i);
    if i >= k {
      LowBits(a, 64 - k, i - k);
    }
  }

  predicate IsBitwise(op: FoldOp) {
    op in {Xor, Shl, Shr, Rol, Ror}
  }

  /** Bit i of what a bit operator folds to; counts are taken modulo 64, and shifts right bring in zeros. */
  function FoldedBit(op: FoldOp, a: Word, b: Word, i: nat): nat
    requires IsBitwise(op)
  {
    var k := b % 64;
    match op
    case Xor => if BitAt(a, i) == BitAt(b, i) then 0 else 1
    case Shl => if i < k then 0 else BitAt(a, i - k)
    case Shr => if i + k < 64 then BitAt(a, i + k) else 0
    case Rol => BitAt(a, (i + 64 - k) % 64)
    case Ror => BitAt(a, (i + k) % 64)
  }

  lemma {:induction false} XorBits(a: Word, b: Word, i: nat)
    requires i < 64
    ensures BitAt(WordXor(a, b), i) == if BitAt(a, i) == BitAt(b, i) then 0 else 1
  {
    hide BitAt;
    Pow2Of64();
    BitXorAt(64, a, b, i);
  }

  // ----- folding -----

  /** What folding yields on two literals. */
  predicate FoldsTo(op: FoldOp, unsigned: bool, a: Word, b: Word, r: Outcome) {
    var x, y := Number(unsigned, a), Number(unsigned, b);
    if IsArithmetic(op) then
      match r
      case Folded(w) => Exact(op, x, y) == Some(Number(unsigned, w)) && !Faults(op, unsigned, x, y)
      case Unsafe => Exact(op, x, y).None? || (!InRange(unsigned, Exact(op, x, y).value) && !Faults(op, unsigned, x, y))
      case DivideFault => Faults(op, unsigned, x, y)
      case NotConstant => false
    else if IsBitwise(op) then r.Folded? && forall i: nat :: i < 64 ==> BitAt(r.w, i) == FoldedBit(op, a, b, i)
    else r.NotConstant?
  }

  /** Folds exactly when both operands are literals and the mathematical result exists and is in range, and then
      yields it. The hardware faults on the most negative number divided by -1. */
  method TryFold(op: FoldOp, left: Operand, right: Operand, unsigned: bool) returns (r: Outcome)
    ensures left.NotLiteral? || right.NotLiteral? ==> r.NotConstant?
    ensures left.Literal? && right.Literal? ==> FoldsTo(op, unsigned, left.payload, right.payload, r)
  {
    hide Power, Pow2, BitXor, BitAt, TruncDiv, TruncRem, ShiftLeft, ShiftRight, RotateLeft, RotateRight, WordXor;
    if left.NotLiteral? || right.NotLiteral? {
      return NotConstant;
    }
    var a, b := left.payload, right.payload;
    FoldBits(a, b);
    match op {
      case Plus => r := FoldAdd(a, b, unsigned);
      case Minus => r := FoldSub(a, b, unsigned);
      case Times => r := FoldMul(a, b, unsigned);
      case Over => r := FoldDivide(false, a, b, unsigned);
      case Rem => r := FoldDivide(true, a, b, unsigned);
      case Xor => r := Folded(WordXor(a, b));
      case Shl => r := Folded(ShiftLeft(a, b % 64));
      case Shr => r := Folded(ShiftRight(a, b % 64));
      case Rol => r := Folded(RotateLeft(a, b % 64));
      case Ror => r := Folded(RotateRight(a, b % 64));
      case Pow => r := FoldPower(a, b, unsigned);
      case Other => r := NotConstant;
    }
  }

  /** The processor's shifts, rotations and exclusive or, bit by bit. */
  lemma {:induction false} FoldBits(a: Word, b: Word)
    ensures forall i: nat :: i < 64 ==>
      && BitAt(WordXor(a, b), i) == FoldedBit(Xor, a, b, i)
      && BitAt(ShiftLeft(a, b % 64), i) == FoldedBit(Shl, a, b, i)
      && BitAt(ShiftRight(a, b % 64), i) == FoldedBit(Shr, a, b, i)
      && BitAt(RotateLeft(a, b % 64), i) == FoldedBit(Rol, a, b, i)
      && BitAt(RotateRight(a, b % 64), i) == FoldedBit(Ror, a, b, i)
  {
    hide BitAt, ShiftLeft, ShiftRight, RotateLeft, RotateRight, WordXor;
    forall i: nat | i < 64
      ensures BitAt(WordXor(a, b), i) == FoldedBit(Xor, a, b, i)
      ensures BitAt(ShiftLeft(a, b % 64), i) == FoldedBit(Shl, a, b, i)
      ensures BitAt(ShiftRight(a, b % 64), i) == FoldedBit(Shr, a, b, i)
      ensures BitAt(RotateLeft(a, b % 64), i) == FoldedBit(Rol, a, b, i)
      ensures BitAt(RotateRight(a, b % 64), i) == FoldedBit(Ror, a, b, i)
    {
      XorBits(a, b, i);
      ShiftBits(a, b % 64, i);
      RotateBits(a, b % 64, i);
    }
  }

  method FoldAdd(a: Word, b: Word, unsigned: bool) returns (r: Outcome)
    ensures FoldsTo(Plus, unsigned, a, b, r)
  {
    AddFlags(a, b);
    WrapAdd(a, b);
    NumberOfWrap(unsigned, Number(unsigned, a) + Number(unsigned, b));
    if if unsigned then a + b >= TWO64 else AddOverflows(a, b) {
      return Unsafe;
    }
    return Folded(Wrap(a + b));
  }

  method FoldSub(a: Word, b: Word, unsigned: bool) returns (r: Outcome)
    ensures FoldsTo(Minus, unsigned, a, b, r)
  {
    SubFlags(a, b);
    WrapAdd(a, b);
    NumberOfWrap(unsigned, Number(unsigned, a) - Number(unsigned, b));
    if if unsigned then a < b else SubOverflows(a, b) {
      return Unsafe;
    }
    return Folded(Wrap(a - b));
  }

  method FoldMul(a: Word, b: Word, unsigned: bool) returns (r: Outcome)
    ensures FoldsTo(Times, unsigned, a, b, r)
  {
    MulFlags(a, b);
    NumberOfWrap(unsigned, Number(unsigned, a) * Number(unsigned, b));
    if if unsigned then HighHalf(a, b) else ImulOverflows(a, b) {
      return Unsafe;
    }
    return Folded(Wrap(a * b));
  }

  method FoldDivide(remainder: bool, a: Word, b: Word, unsigned: bool) returns (r: Outcome)
    ensures FoldsTo(if remainder then Rem else Over, unsigned, a, b, r)
  {
    var x, y := Number(unsigned, a), Number(unsigned, b);
    if b == 0 {
      return Unsafe;
    }
    DivisionFits(unsigned, x, y);
    hide TruncDiv, TruncRem;
    NumberOfWrap(unsigned, TruncDiv(x, y));
    NumberOfWrap(unsigned, TruncRem(x, y));
    if !unsigned && !InRange(false, TruncDiv(x, y)) {
      return DivideFault;
    }
    return Folded(Wrap(if remainder then TruncRem(x, y) else TruncDiv(x, y)));
  }

  lemma {:induction false} DivisionFits(unsigned: bool, x: int, y: int)
    requires InRange(unsigned, x) && InRange(unsigned, y) && y != 0
    ensures InRange(unsigned, TruncDiv(x, y)) <==> !(!unsigned && x == -TWO63 && y == -1)
    ensures InRange(unsigned, TruncRem(x, y))
  {
    SignedRemainder(x, y);
    QuotientAtMost(Abs(x), Abs(y));
    hide TruncRem;
    if !unsigned {
      QuotientFits(x, y);
    }
  }

  lemma {:induction false} SignedRemainder(x: int, y: int)
    requires y != 0
    ensures TruncRem(x, y) == if x < 0 then -(Abs(x) % Abs(y)) else Abs(x) % Abs(y)
  {
    var p: int, q: int := Abs(x), Abs(y);
    var d: int := p / q;
    assert p == q * d + p % q;
    Signs(q, d);
  }

  lemma {:induction false} Signs(q: int, d: int)
    ensures -q * d == -(q * d) && q * (-d) == -(q * d) && (-q) * (-d) == q * d
  {}

  /** The counted multiply loop. */
  method FoldPower(a: Word, b: Word, unsigned: bool) returns (r: Outcome)
    ensures FoldsTo(Pow, unsigned, a, b, r)
  {
    hide Power;
    var x, y := Number(unsigned, a), Number(unsigned, b);
    PowerStart(x);
    if y <= 0 {
      return Folded(1);
    }
    if unsigned && a <= 1 {
      SmallBase(x, y);
      return Folded(a);
    }
    var rax: Word, rcx: nat := 1, y;
    while rcx != 0
      invariant rcx <= y
      invariant Number(unsigned, rax) == Power(x, y - rcx)
      decreases rcx
    {
      PowerStep(x, y - rcx);
      MulFlags(rax, a);
      NumberOfWrap(unsigned, Power(x, y - rcx + 1));
      if if unsigned then HighHalf(rax, a) else ImulOverflows(rax, a) {
        PowerEscapes(unsigned, x, y - rcx + 1, y);
        return Unsafe;
      }
      rax := Wrap(rax * a);
      rcx := rcx - 1;
    }
    return Folded(rax);
  }

  lemma {:induction false} PowerStart(x: int)
    ensures Power(x, 0) == 1
  {}

  lemma {:induction false} PowerStep(x: int, n: nat)
    ensures Power(x, n + 1) == Power(x, n) * x
  {}

  /** Signed literals are at most 2^63 - 1, so folding them never faults. */
  lemma {:induction false} LiteralsNeverFault(op: FoldOp, a: Word, b: Word, r: Outcome)
    requires a < TWO63 && b < TWO63 && FoldsTo(op, false, a, b, r)
    ensures !r.DivideFault?
  {}

  /** Folding an exclusive or twice with one operand gives the other back. */
  lemma {:induction false} XorFoldsBack(unsigned: bool, a: Word, b: Word, r: Outcome, back: Outcome)
    requires FoldsTo(Xor, unsigned, a, b, r) && r.Folded? && FoldsTo(Xor, unsigned, r.w, b, back)
    ensures back == Folded(a)
  {
    hide BitAt;
    Pow2Of64();
    forall i: nat | i < 64
      ensures BitAt(back.w, i) == BitAt(a, i)
    {
      assert BitAt(back.w, i) == FoldedBit(Xor, r.w, b, i);
      assert BitAt(r.w, i) == FoldedBit(Xor, a, b, i);
      OneOrZero(a, i);
      OneOrZero(b, i);
    }
    SameBits(64, back.w, a);
  }

  lemma {:induction false} OneOrZero(w: nat, i: nat)
    ensures BitAt(w, i) == 0 || BitAt(w, i) == 1
  {}

  /** And folding a rotation after the opposite one by the same count, whatever the count. */
  lemma {:induction false} RotationFoldsBack(unsigned: bool, a: Word, b: Word, r: Outcome, back: Outcome)
    requires FoldsTo(Rol, unsigned, a, b, r) && r.Folded? && FoldsTo(Ror, unsigned, r.w, b, back)
    ensures back == Folded(a)
  {
    hide BitAt;
    Pow2Of64();
    forall i: nat | i < 64
      ensures BitAt(back.w, i) == BitAt(a, i)
    {
      var k := b % 64;
      assert BitAt(back.w, i) == FoldedBit(Ror, r.w, b, i);
      assert BitAt(r.w, (i + k) % 64) == FoldedBit(Rol, a, b, (i + k) % 64);
    }
    SameBits(64, back.w, a);
  }
}
