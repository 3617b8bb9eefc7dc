/** The short instruction sequences behind the operators. */
module SimOps {
  import opened Ast
  import opened Words
  import opened Machine
  import opened Emission
  import opened SimBase

  /** Registers and memory the operators leave alone. */
  ghost predicate OnlyScratch(s: State, t: State) {
    t.rsp == s.rsp && t.rbp == s.rbp && t.mem == s.mem && t.trace == s.trace
  }

  lemma {:induction false} Step1(m: Image, s: State, i: Instr) returns (t: State)
    requires s.status.Running? && s.pc < |m.code| && m.code[s.pc] == i
    ensures t == Execute(m, i, s) == Step(m, s) && Reaches(m, s, t)
  {
    t := Step(m, s);
    ReachesRefl(m, s);
    ReachesStep(m, s, s);
  }

  /** Execute one more instruction. */
  lemma {:induction false} Then(m: Image, s: State, t: State, i: Instr) returns (u: State)
    requires Reaches(m, s, t)
    requires t.status.Running? && t.pc < |m.code| && m.code[t.pc] == i
    ensures u == Execute(m, i, t) && Reaches(m, s, u)
  {
    u := Step(m, t);
    ReachesStep(m, s, t);
  }

  lemma {:induction false} SetByte(s: State, c: Cond)
    ensures (s.rax - s.rax % 256 + Bool(Holds(s, c))) % 256 == Bool(Holds(s, c))
  {}

  /** The flags of `cmp` decide the signed comparisons. */
  lemma {:induction false} FlagsCompare(s: State, a: Word, b: Word)
    ensures var t := Compare(s, a, b);
      && (Holds(t, CE) <==> a == b)
      && (Holds(t, CNE) <==> a != b)
      && (Holds(t, CL) <==> Signed(a) < Signed(b))
      && (Holds(t, CLE) <==> Signed(a) <= Signed(b))
      && (Holds(t, CG) <==> Signed(a) > Signed(b))
      && (Holds(t, CGE) <==> Signed(a) >= Signed(b))
  {
    var diff := (a - b) % TWO64;
    assert diff == if a >= b then a - b else a - b + TWO64;
  }

  /** `cmp`, `setcc`, `movzx` leave the truth of the condition in rax. */
  lemma {:induction false} SimSet(m: Image, s: State, compare: Instr, b: Word, c: Cond) returns (t: State)
    requires (compare == CmpRaxRbx && b == s.rbx) || (compare == CmpRaxImm0 && b == 0)
    requires s.status.Running? && Fits(m.code, s.pc, [compare, SetAl(c), MovzxRaxAl])
    ensures Reaches(m, s, t) && t.status.Running? && t.pc == s.pc + 3 && OnlyScratch(s, t)
    ensures t.rax == Bool(Holds(Compare(s, s.rax, b), c))
  {
    var part := [compare, SetAl(c), MovzxRaxAl];
    FitsAt(m.code, s.pc, part, 0);
    FitsAt(m.code, s.pc, part, 1);
    FitsAt(m.code, s.pc, part, 2);
    t := Step1(m, s, compare);
    t := Then(m, s, t, SetAl(c));
    SetByte(Compare(s, s.rax, b), c);
    t := Then(m, s, t, MovzxRaxAl);
  }

  lemma {:induction false} SimUnary(m: Image, s: State, op: UnaryOp) returns (t: State)
    requires s.status.Running? && Fits(m.code, s.pc, UnaryCode(op))
    ensures Reaches(m, s, t) && t.status.Running? && t.pc == s.pc + |UnaryCode(op)| && OnlyScratch(s, t)
    ensures t.rax == EvalUnary(op, s.rax)
  {
    match op
    case Neg =>
      FitsAt(m.code, s.pc, UnaryCode(op), 0);
      WrapAdd(s.rax, 0);
      t := Step1(m, s, NegRax);
    case Not =>
      t := SimSet(m, s, CmpRaxImm0, 0, CE);
      FlagsCompare(s, s.rax, 0);
  }

  /** `cqo; idiv rbx` divides as the source does, and traps exactly when the source does. */
  lemma {:induction false} SimDivide(m: Image, s: State) returns (t: State)
    requires s.status.Running? && Fits(m.code, s.pc, [Cqo, IdivRbx])
    ensures Reaches(m, s, t) && OnlyScratch(s, t)
    ensures if DivideFails(s.rax, s.rbx) then t.status.DivideTrap?
            else
              && t.status.Running? && t.pc == s.pc + 2
              && t.rax == Wrap(TruncDiv(Signed(s.rax), Signed(s.rbx)))
              && t.rdx == Wrap(TruncRem(Signed(s.rax), Signed(s.rbx)))
  {
    FitsAt(m.code, s.pc, [Cqo, IdivRbx], 0);
    FitsAt(m.code, s.pc, [Cqo, IdivRbx], 1);
    hide Fits, Reaches, TruncRem;
    t := Step1(m, s, Cqo);
    assert Signed(t.rdx) * TWO64 + t.rax == Signed(s.rax);
    if s.rbx != 0 {
      QuotientFits(Signed(s.rax), Signed(s.rbx));
    }
    t := Then(m, s, t, IdivRbx);
  }

  predicate IsComparison(op: BinaryOp) {
    op.Eq? || op.NotEq? || op.Lt? || op.LtEq? || op.Gt? || op.GtEq?
  }

  lemma {:induction false} SimCompare(m: Image, s: State, op: BinaryOp) returns (t: State)
    requires IsComparison(op)
    requires s.status.Running? && Fits(m.code, s.pc, BinaryCode(op))
    ensures Reaches(m, s, t) && OnlyScratch(s, t) && t.status.Running? && t.pc == s.pc + |BinaryCode(op)|
    ensures EvalBinary(op, s.rax, s.rbx) == Value(t.rax)
  {
    FlagsCompare(s, s.rax, s.rbx);
    t := SimSet(m, s, CmpRaxRbx, s.rbx, BinaryCode(op)[1].cond);
  }

  /** Signed arithmetic that wraps is arithmetic on words. */
  lemma {:induction false} Unsigned(a: Word, b: Word)
    ensures EvalBinary(Add, a, b) == Value((a + b) % TWO64)
    ensures EvalBinary(Sub, a, b) == Value((a - b) % TWO64)
    ensures EvalBinary(Mul, a, b) == Value((a * b) % TWO64)
    ensures EvalBinary(And, a, b) == Value(WordAnd(a, b))
    ensures EvalBinary(Or, a, b) == Value(WordOr(a, b))
  {
    WrapAdd(a, b);
    WrapMul(a, b);
  }

  lemma {:induction false} SimArithmetic(m: Image, s: State, op: BinaryOp) returns (t: State)
    requires op.Add? || op.Sub? || op.Mul?
    requires s.status.Running? && Fits(m.code, s.pc, BinaryCode(op))
    ensures Reaches(m, s, t) && OnlyScratch(s, t) && t.status.Running? && t.pc == s.pc + |BinaryCode(op)|
    ensures EvalBinary(op, s.rax, s.rbx) == Value(t.rax)
  {
    hide Fits, Reaches, Step, PushWord, Idiv, Slot, Compare, SystemCall, Jump, Peek, TruncDiv, TruncRem, WordAnd, WordOr, EvalBinary;
    FitsAt(m.code, s.pc, BinaryCode(op), 0);
    Unsigned(s.rax, s.rbx);
    t := Step1(m, s, BinaryCode(op)[0]);
  }

  lemma {:induction false} SimBitwise(m: Image, s: State, op: BinaryOp) returns (t: State)
    requires op.And? || op.Or?
    requires s.status.Running? && Fits(m.code, s.pc, BinaryCode(op))
    ensures Reaches(m, s, t) && OnlyScratch(s, t) && t.status.Running? && t.pc == s.pc + |BinaryCode(op)|
    ensures EvalBinary(op, s.rax, s.rbx) == Value(t.rax)
  {
    hide Fits, Reaches, Step, PushWord, Idiv, Slot, Compare, SystemCall, Jump, Peek, TruncDiv, TruncRem, WordAnd, WordOr, EvalBinary;
    FitsAt(m.code, s.pc, BinaryCode(op), 0);
    Unsigned(s.rax, s.rbx);
    t := Step1(m, s, BinaryCode(op)[0]);
  }

  /** An operator's code computes the operator on rax and rbx, or traps where the source does. */
  lemma {:induction false} SimBinary(m: Image, s: State, op: BinaryOp) returns (t: State)
    requires s.status.Running? && Fits(m.code, s.pc, BinaryCode(op))
    ensures Reaches(m, s, t) && OnlyScratch(s, t)
    ensures match EvalBinary(op, s.rax, s.rbx)
            case Value(w) => t.status.Running? && t.pc == s.pc + |BinaryCode(op)| && t.rax == w
            case DivideError => t.status.DivideTrap?
  {
    if op.Div? {
      t := SimDivide(m, s);
    } else if op.Mod? {
      FitsCat(m.code, s.pc, [Cqo, IdivRbx], [MovReg(RAX, RDX)]);
      assert [Cqo, IdivRbx] + [MovReg(RAX, RDX)] == BinaryCode(op);
      t := SimDivide(m, s);
      if t.status.Running? {
        FitsAt(m.code, s.pc, BinaryCode(op), 2);
        t := Then(m, s, t, MovReg(RAX, RDX));
      }
    } else if IsComparison(op) {
      t := SimCompare(m, s, op);
    } else if op.And? || op.Or? {
      t := SimBitwise(m, s, op);
    } else {
      t := SimArithmetic(m, s, op);
    }
  }
}
