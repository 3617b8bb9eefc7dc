/** The instruction sequence emitted for each construct, as a function of the construct, the slots of
    the enclosing function, and how many labels and string constants came before it. */
module Emission {
  import opened Ast
  import opened Machine
  import opened Semantics

  datatype Package = Package(executable: bool, runtime: string, capabilities: set<string>)

  /** The slots of a function's locals, its end label, and the enclosing loops, innermost last. */
  datatype Env = Env(locals: map<string, nat>, end: Label, breaks: seq<Label>, continues: seq<Label>)

  const MAX_REG_ARGS: nat := 6

  const START := "_start"

  function ArgReg(i: nat): Reg
    requires i < MAX_REG_ARGS
  {
    [RDI, RSI, RDX, RCX, R8, R9][i]
  }

  function Align16(n: nat): nat {
    (n + 15) / 16 * 16
  }

  // ----- slots -----

  /** Every parameter takes the slot after those taken so far, even if its name has one already. */
  function ParamSlots(params: seq<Param>): map<string, nat> {
    if params == [] then map[]
    else
      var before := ParamSlots(params[..|params| - 1]);
      before[params[|params| - 1].name := (|before| + 1) * 8]
  }

  function Declare(name: string, locals: map<string, nat>): map<string, nat> {
    if name in locals then locals else locals[name := (|locals| + 1) * 8]
  }

  function BlockSlots(b: Block, locals: map<string, nat>): map<string, nat>
    decreases b
  {
    if b == [] then locals else BlockSlots(b[1..], StmtSlots(b[0], locals))
  }

  function StmtSlots(s: Stmt, locals: map<string, nat>): map<string, nat>
    decreases s
  {
    match s
    case Let(name, _, _) => Declare(name, locals)
    case Mut(name, _, _) => Declare(name, locals)
    case If(_, t, NoElse) => BlockSlots(t, locals)
    case If(_, t, Else(b)) => BlockSlots(b, BlockSlots(t, locals))
    case Loop(b) => BlockSlots(b, locals)
    case While(_, b) => BlockSlots(b, locals)
    case UnsafeBlock(b) => BlockSlots(b, locals)
    case _ => locals
  }

  function FnSlots(f: FnDecl): map<string, nat> {
    BlockSlots(f.body, ParamSlots(f.params))
  }

  // ----- expressions -----

  function ExprCode(fns: set<string>, locals: map<string, nat>, e: Expr, sn: nat): seq<Instr>
    decreases e
  {
    match e
    case IntLit(v) => [MovImm(RAX, v)]
    case BoolLit(b) => [MovImm(RAX, if b then 1 else 0)]
    case StrLit(_) => [LeaString(sn)]
    case Ident(name) =>
      if name in locals then [Load(locals[name])]
      else if name in fns then [CallTo(FnLabel(name))]
      else [XorEax]
    case PathExpr(_) => [XorEax]
    case Unary(op, x) => ExprCode(fns, locals, x, sn) + UnaryCode(op)
    case Binary(op, l, r) =>
      ExprCode(fns, locals, l, sn) + [Push(RAX)]
      + (ExprCode(fns, locals, r, sn + |Strings(l)|) + [MovReg(RBX, RAX), Pop(RAX)] + BinaryCode(op))
    case Call(callee, args) =>
      if callee.Display() == "io.write" then
        ArgsCode(fns, locals, args, sn) + WriteCode()
      else
        ArgsCode(fns, locals, args, sn) + (PopArgs(|args|) + [CallTo(FnLabel(callee.Display()))])
    case ErrorExpr => [XorEax]
  }

  function UnaryCode(op: UnaryOp): seq<Instr> {
    match op
    case Neg => [NegRax]
    case Not => [CmpRaxImm0, SetAl(CE), MovzxRaxAl]
  }

  function CmpCode(c: Cond): seq<Instr> {
    [CmpRaxRbx, SetAl(c), MovzxRaxAl]
  }

  function BinaryCode(op: BinaryOp): seq<Instr> {
    match op
    case Add => [AddRaxRbx]
    case Sub => [SubRaxRbx]
    case Mul => [ImulRaxRbx]
    case Div => [Cqo, IdivRbx]
    case Mod => [Cqo, IdivRbx, MovReg(RAX, RDX)]
    case Eq => CmpCode(CE)
    case NotEq => CmpCode(CNE)
    case Lt => CmpCode(CL)
    case LtEq => CmpCode(CLE)
    case Gt => CmpCode(CG)
    case GtEq => CmpCode(CGE)
    case And => [AndRaxRbx]
    case Or => [OrRaxRbx]
  }

  function ArgsCode(fns: set<string>, locals: map<string, nat>, args: seq<Expr>, sn: nat): seq<Instr>
    decreases args
  {
    if args == [] then []
    else ExprCode(fns, locals, args[0], sn) + ([Push(RAX)] + ArgsCode(fns, locals, args[1..], sn + |Strings(args[0])|))
  }

  /** Pops into the argument registers, last argument first; arguments past the sixth stay on the stack. */
  function PopArgs(n: nat): seq<Instr> {
    if n == 0 then []
    else (if n - 1 < MAX_REG_ARGS then [Pop(ArgReg(n - 1))] else []) + PopArgs(n - 1)
  }

  function WriteCode(): seq<Instr> {
    [Pop(RDX), Pop(RSI), Pop(RDI), MovImm(RAX, 1), Syscall, XorEax]
  }

  // ----- statements -----

  /** How many labels a construct takes. */
  function StmtLabels(s: Stmt): nat {
    match s
    case If(_, t, arm) => 2 + BlockLabels(t) + ArmLabels(arm)
    case Loop(b) => 2 + BlockLabels(b)
    case While(_, b) => 2 + BlockLabels(b)
    case UnsafeBlock(b) => BlockLabels(b)
    case _ => 0
  }

  function BlockLabels(b: Block): nat {
    if b == [] then 0 else StmtLabels(b[0]) + BlockLabels(b[1..])
  }

  function ArmLabels(arm: ElseArm): nat {
    match arm case NoElse => 0 case Else(b) => BlockLabels(b)
  }

  function StoreTo(locals: map<string, nat>, name: string): seq<Instr> {
    if name in locals then [Store(locals[name], RAX)] else []
  }

  function Inside(env: Env, start: Label, end: Label): Env {
    env.(breaks := env.breaks + [end], continues := env.continues + [start])
  }

  function JumpToLast(labels: seq<Label>): seq<Instr> {
    if labels == [] then [] else [Jmp(labels[|labels| - 1])]
  }

  function IfElse(ln: nat): Label { Local("if_else", ln) }

  function IfEnd(ln: nat): Label { Local("if_end", ln + 1) }

  /** Where an `if` goes when its condition is false. */
  function FalseTarget(elseArm: ElseArm, ln: nat): Label {
    if elseArm.Else? then IfElse(ln) else IfEnd(ln)
  }

  /** Evaluate a condition and jump when it is zero. */
  function GuardCode(fns: set<string>, locals: map<string, nat>, cond: Expr, target: Label, sn: nat): seq<Instr> {
    ExprCode(fns, locals, cond, sn) + [CmpRaxImm0, Je(target)]
  }

  function StmtCode(fns: set<string>, env: Env, s: Stmt, ln: nat, sn: nat): seq<Instr>
    decreases s
  {
    match s
    case Let(name, _, e) => ExprCode(fns, env.locals, e, sn) + StoreTo(env.locals, name)
    case Mut(name, _, e) => ExprCode(fns, env.locals, e, sn) + StoreTo(env.locals, name)
    case Assign(name, e) => ExprCode(fns, env.locals, e, sn) + StoreTo(env.locals, name)
    case Ret(None) => [XorEax, Jmp(env.end)]
    case Ret(Some(e)) => ExprCode(fns, env.locals, e, sn) + [Jmp(env.end)]
    case If(cond, t, elseArm) =>
      var sn' := sn + |Strings(cond)|;
      GuardCode(fns, env.locals, cond, FalseTarget(elseArm, ln), sn)
      + (BlockCode(fns, env, t, ln + 2, sn') + [Jmp(IfEnd(ln))]
         + (ElseCode(fns, env, elseArm, IfElse(ln), ln + 2 + BlockLabels(t), sn' + |BlockStrings(t)|) + [Lab(IfEnd(ln))]))
    case Loop(b) =>
      var start, end := Local("loop_start", ln), Local("loop_end", ln + 1);
      [Lab(start)] + (BlockCode(fns, Inside(env, start, end), b, ln + 2, sn) + [Jmp(start), Lab(end)])
    case While(cond, b) =>
      var start, end := Local("while_start", ln), Local("while_end", ln + 1);
      [Lab(start)]
      + (GuardCode(fns, env.locals, cond, end, sn)
         + (BlockCode(fns, Inside(env, start, end), b, ln + 2, sn + |Strings(cond)|) + [Jmp(start), Lab(end)]))
    case Break => JumpToLast(env.breaks)
    case Continue => JumpToLast(env.continues)
    case UnsafeBlock(b) => BlockCode(fns, env, b, ln, sn)
    case ExprStmt(e) => ExprCode(fns, env.locals, e, sn)
    case ErrorStmt => []
  }

  function BlockCode(fns: set<string>, env: Env, b: Block, ln: nat, sn: nat): seq<Instr>
    decreases b
  {
    if b == [] then []
    else
      StmtCode(fns, env, b[0], ln, sn)
      + BlockCode(fns, env, b[1..], ln + StmtLabels(b[0]), sn + |StmtStrings(b[0])|)
  }

  function ElseCode(fns: set<string>, env: Env, arm: ElseArm, start: Label, ln: nat, sn: nat): seq<Instr>
    decreases arm
  {
    match arm
    case NoElse => []
    case Else(b) => [Lab(start)] + BlockCode(fns, env, b, ln, sn)
  }

  // ----- functions and programs -----

  function FrameSize(f: FnDecl): nat {
    Align16(|FnSlots(f)| * 8)
  }

  function FnEnd(ln: nat): Label {
    Local("fn_end", ln)
  }

  function StoreParams(params: seq<Param>, locals: map<string, nat>, i: nat): seq<Instr>
    requires i <= |params|
    decreases |params| - i
  {
    if i == |params| then []
    else
      (if i < MAX_REG_ARGS && params[i].name in locals then [Store(locals[params[i].name], ArgReg(i))] else [])
      + StoreParams(params, locals, i + 1)
  }

  function GrowCode(f: FnDecl): seq<Instr> {
    if FrameSize(f) > 0 then [SubRsp(FrameSize(f))] else []
  }

  function Prologue(f: FnDecl): seq<Instr> {
    [Lab(FnLabel(f.name)), Push(RBP), MovReg(RBP, RSP)]
    + (GrowCode(f) + StoreParams(f.params, FnSlots(f), 0))
  }

  function Epilogue(ret: string, end: Label): seq<Instr> {
    (if ret == "void" then [XorEax] else []) + [Lab(end), MovReg(RSP, RBP), Pop(RBP), Return]
  }

  function FnEnv(f: FnDecl, ln: nat): Env {
    Env(FnSlots(f), FnEnd(ln), [], [])
  }

  function FnCode(fns: set<string>, f: FnDecl, ln: nat, sn: nat): seq<Instr> {
    Prologue(f) + (BlockCode(fns, FnEnv(f, ln), f.body, ln + 1, sn) + Epilogue(f.ret, FnEnd(ln)))
  }

  function FnsCode(names: set<string>, fns: seq<FnDecl>, ln: nat, sn: nat): seq<Instr> {
    if fns == [] then []
    else
      FnCode(names, fns[0], ln, sn)
      + FnsCode(names, fns[1..], ln + 1 + BlockLabels(fns[0].body), sn + |BlockStrings(fns[0].body)|)
  }

  function FnNames(fns: seq<FnDecl>): set<string> {
    set f | f in fns :: f.name
  }

  function StartCode(): seq<Instr> {
    [Lab(FnLabel(START)), CallTo(FnLabel("main")), MovEdiEax, MovImm(RAX, 60), Syscall]
  }

  function ProgramCode(fns: seq<FnDecl>, pkg: Package): seq<Instr> {
    (if pkg.runtime == "tiny" then StartCode() else []) + FnsCode(FnNames(fns), fns, 0, 0)
  }
}
