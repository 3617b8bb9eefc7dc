/** What it takes for a machine state to stand for a point of a source run. */
module SimBase {
  import opened Ast
  import opened Words
  import opened Machine
  import opened Semantics
  import opened Emission
  import opened Slots

  // ----- code in place -----

  ghost predicate Fits(code: seq<Instr>, pc: nat, part: seq<Instr>) {
    pc + |part| <= |code| && code[pc..pc + |part|] == part
  }

  lemma {:induction false} FitsCat(code: seq<Instr>, pc: nat, a: seq<Instr>, b: seq<Instr>)
    requires Fits(code, pc, a + b)
    ensures Fits(code, pc, a) && Fits(code, pc + |a|, b)
  {
    var c := code[pc..pc + |a + b|];
    assert c == a + b;
    assert code[pc..pc + |a|] == c[..|a|] == a;
    assert code[pc + |a|..pc + |a| + |b|] == c[|a|..] == b;
  }

  lemma {:induction false} FitsAt(code: seq<Instr>, pc: nat, part: seq<Instr>, k: nat)
    requires Fits(code, pc, part) && k < |part|
    ensures pc + k < |code| && code[pc + k] == part[k]
  {
    assert code[pc..pc + |part|][k] == code[pc + k];
  }

  // ----- stack room, in bytes -----

  function Max(a: nat, b: nat): nat {
    if a < b then b else a
  }

  /** What the pushes of an expression take, callees aside. */
  function ExprRoom(e: Expr): nat {
    match e
    case Unary(_, x) => ExprRoom(x)
    case Binary(_, l, r) => Max(ExprRoom(l), 8 + ExprRoom(r))
    case Call(_, args) => ArgsRoom(args)
    case _ => 0
  }

  function ArgsRoom(args: seq<Expr>): nat {
    if args == [] then 0 else Max(ExprRoom(args[0]), 8 + ArgsRoom(args[1..]))
  }

  function StmtRoom(s: Stmt): nat {
    match s
    case Let(_, _, e) => ExprRoom(e)
    case Mut(_, _, e) => ExprRoom(e)
    case Assign(_, e) => ExprRoom(e)
    case Ret(Some(e)) => ExprRoom(e)
    case If(c, t, arm) => Max(ExprRoom(c), Max(BlockRoom(t), ArmRoom(arm)))
    case Loop(b) => BlockRoom(b)
    case While(c, b) => Max(ExprRoom(c), BlockRoom(b))
    case UnsafeBlock(b) => BlockRoom(b)
    case ExprStmt(e) => ExprRoom(e)
    case _ => 0
  }

  function ArmRoom(arm: ElseArm): nat {
    match arm case NoElse => 0 case Else(b) => BlockRoom(b)
  }

  function BlockRoom(b: Block): nat {
    if b == [] then 0 else Max(StmtRoom(b[0]), BlockRoom(b[1..]))
  }

  /** The most one activation takes: return address, saved frame pointer, slots and temporaries. */
  function FrameRoom(f: FnDecl): nat {
    16 + FrameSize(f) + BlockRoom(f.body)
  }

  function LargestFrame(fns: seq<FnDecl>): nat {
    if fns == [] then 0 else Max(FrameRoom(fns[0]), LargestFrame(fns[1..]))
  }

  /** What calls nested at most `depth` deep take. */
  function CallRoom(fns: seq<FnDecl>, depth: nat): nat {
    if depth == 0 then 0 else LargestFrame(fns) + CallRoom(fns, depth - 1)
  }

  // ----- what the generator supports -----

  predicate ExprFits6(e: Expr) {
    match e
    case Unary(_, x) => ExprFits6(x)
    case Binary(_, l, r) => ExprFits6(l) && ExprFits6(r)
    case Call(_, args) => |args| <= MAX_REG_ARGS && ArgsFit6(args)
    case _ => true
  }

  predicate ArgsFit6(args: seq<Expr>) {
    args == [] || (ExprFits6(args[0]) && ArgsFit6(args[1..]))
  }

  predicate StmtFits6(s: Stmt) {
    match s
    case Let(_, _, e) => ExprFits6(e)
    case Mut(_, _, e) => ExprFits6(e)
    case Assign(_, e) => ExprFits6(e)
    case Ret(Some(e)) => ExprFits6(e)
    case If(c, t, arm) => ExprFits6(c) && BlockFits6(t) && (arm.Else? ==> BlockFits6(arm.block))
    case Loop(b) => BlockFits6(b)
    case While(c, b) => ExprFits6(c) && BlockFits6(b)
    case UnsafeBlock(b) => BlockFits6(b)
    case ExprStmt(e) => ExprFits6(e)
    case _ => true
  }

  predicate BlockFits6(b: Block) {
    b == [] || (StmtFits6(b[0]) && BlockFits6(b[1..]))
  }

  // ----- states -----

  /** About to execute at pc, with an aligned stack that has that much room left. */
  ghost predicate Ready(s: State, pc: nat, room: nat) {
    s.status.Running? && s.pc == pc && s.rsp % 8 == 0 && room <= s.rsp
  }

  /** The frame below rbp has a slot for every local, above the top of the stack,
      and the slots of the locals in the store hold their values. */
  ghost predicate PartHolds(locals: map<string, nat>, store: Store, s: State) {
    && s.rbp % 8 == 0
    && WellSpread(locals)
    && s.rsp + 8 * |locals| <= s.rbp
    && store.Keys <= locals.Keys
    && (forall x :: x in store ==> Peek(s.mem, s.rbp - locals[x]) == store[x])
  }

  /** And every local is in the store. */
  ghost predicate FrameHolds(locals: map<string, nat>, store: Store, s: State) {
    PartHolds(locals, store, s) && store.Keys == locals.Keys
  }

  lemma {:induction false} SlotInFrame(locals: map<string, nat>, store: Store, s: State, x: string)
    requires PartHolds(locals, store, s) && x in locals
    ensures s.rsp <= s.rbp - locals[x] < s.rbp && Slot(s, locals[x]) == Option.Some(s.rbp - locals[x])
  {
    hide Peek;
    assert IsSlot(locals[x], |locals|);
    AlignedBelow(s.rbp, locals[x]);
  }

  lemma {:induction false} AlignedBelow(base: nat, offset: nat)
    requires base % 8 == 0 && offset % 8 == 0
    ensures (base - offset) % 8 == 0
  {
    var i, j := base / 8, offset / 8;
    assert base - offset == 8 * (i - j);
  }

  ghost predicate SameAbove(s: State, t: State, limit: int) {
    forall a: int {:trigger Peek(t.mem, a)} :: a >= limit ==> Peek(t.mem, a) == Peek(s.mem, a)
  }

  /** The stack pointer, the frame pointer and the stack from the stack pointer up are as before. */
  ghost predicate Keeps(s: State, t: State) {
    t.rsp == s.rsp && t.rbp == s.rbp && SameAbove(s, t, s.rsp)
  }

  lemma {:induction false} FrameKept(locals: map<string, nat>, store: Store, s: State, t: State)
    requires FrameHolds(locals, store, s) && t.rbp == s.rbp && t.rsp <= s.rsp && SameAbove(s, t, s.rsp)
    ensures FrameHolds(locals, store, t)
  {
    forall x | x in store
      ensures Peek(t.mem, t.rbp - locals[x]) == store[x]
    {
      SlotInFrame(locals, store, s, x);
    }
  }

  /** The machine is still running after as many steps as the bound that was met. */
  ghost predicate GoesOn(m: Image, d: nat, n: nat, s: State, deep: bool) {
    Lasts(m, s, if deep then d else n)
  }

  /** The machine has done what an expression's result says, or gone on where the source did not end within bounds d
      and n; and no local was read that the store does not have. */
  ghost predicate ExprDone(m: Image, d: nat, n: nat, s: State, t: State, pc: nat, r: Res<Word>) {
    match r
    case Ok(w, out) =>
      Reaches(m, s, t) && t.status.Running? && t.pc == pc && t.rax == w && t.trace == s.trace + out && Keeps(s, t)
    case Trap(out) => Reaches(m, s, t) && t.status.DivideTrap? && t.trace == s.trace + out
    case OutOfFuel(deep) => GoesOn(m, d, n, s, deep)
    case Stuck(why) => !why.Uninitialised?
  }
}
