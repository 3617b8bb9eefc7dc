/** The code generator itself: an object that appends instructions and string constants and hands out
    labels. Each method is proved to append exactly the code that Emission gives for its construct. */
module Codegen {
  import opened Ast
  import opened Machine
  import opened Semantics
  import opened Emission

  class FnState {
    var locals: map<string, nat>
    var endLabel: Label
    var breakLabels: seq<Label>
    var continueLabels: seq<Label>

    constructor (locals: map<string, nat>, endLabel: Label)
      ensures View() == Env(locals, endLabel, [], [])
    {
      this.locals, this.endLabel := locals, endLabel;
      breakLabels, continueLabels := [], [];
    }

    function View(): Env
      reads this
    {
      Env(locals, endLabel, breakLabels, continueLabels)
    }

    method Enter(start: Label, end: Label)
      modifies this`breakLabels, this`continueLabels
      ensures View() == Inside(old(View()), start, end)
    {
      continueLabels := continueLabels + [start];
      breakLabels := breakLabels + [end];
    }

    method Leave()
      requires breakLabels != [] && continueLabels != []
      modifies this`breakLabels, this`continueLabels
      ensures breakLabels == old(breakLabels[..|breakLabels| - 1])
      ensures continueLabels == old(continueLabels[..|continueLabels| - 1])
    {
      continueLabels := continueLabels[..|continueLabels| - 1];
      breakLabels := breakLabels[..|breakLabels| - 1];
    }
  }

  /** Whether the emitter finds a slot for every assigned name; it aborts otherwise. */
  predicate StmtHasSlots(s: Stmt, names: set<string>) {
    match s
    case Let(name, _, _) => name in names
    case Mut(name, _, _) => name in names
    case Assign(name, _) => name in names
    case If(_, t, arm) => BlockHasSlots(t, names) && (arm.Else? ==> BlockHasSlots(arm.block, names))
    case Loop(b) => BlockHasSlots(b, names)
    case While(_, b) => BlockHasSlots(b, names)
    case UnsafeBlock(b) => BlockHasSlots(b, names)
    case _ => true
  }

  predicate BlockHasSlots(b: Block, names: set<string>) {
    b == [] || (StmtHasSlots(b[0], names) && BlockHasSlots(b[1..], names))
  }

  predicate FnHasSlots(f: FnDecl) {
    BlockHasSlots(f.body, FnSlots(f).Keys)
  }

  /** Appending piece by piece builds the nested concatenations of Emission. */
  lemma {:induction false} Appended3<T>(s: seq<T>, a: seq<T>, b: seq<T>, c: seq<T>)
    ensures s + a + b + c == s + (a + (b + c))
  {}

  lemma {:induction false} BinaryAppended(asm: seq<Instr>, fns: set<string>, locals: map<string, nat>, op: BinaryOp, l: Expr, r: Expr, sn: nat)
    ensures asm + (ExprCode(fns, locals, l, sn) + [Push(RAX)])
          + (ExprCode(fns, locals, r, sn + |Strings(l)|) + [MovReg(RBX, RAX), Pop(RAX)])
          + BinaryCode(op)
         == asm + ExprCode(fns, locals, Binary(op, l, r), sn)
  {
    Appended3(asm, ExprCode(fns, locals, l, sn) + [Push(RAX)],
              ExprCode(fns, locals, r, sn + |Strings(l)|) + [MovReg(RBX, RAX), Pop(RAX)], BinaryCode(op));
  }

  class Generator {
    var asm: seq<Instr>
    var strings: seq<string>
    var labelId: nat
    var functions: set<string>

    constructor ()
      ensures asm == [] && strings == [] && labelId == 0 && functions == {}
    {
      asm, strings, labelId, functions := [], [], 0, {};
    }

    method Line(i: Instr)
      modifies this`asm
      ensures asm == old(asm) + [i]
    {
      asm := asm + [i];
    }

    method FreshLabel(prefix: string) returns (l: Label)
      modifies this`labelId
      ensures l == Local(prefix, old(labelId)) && labelId == old(labelId) + 1
    {
      l := Local(prefix, labelId);
      labelId := labelId + 1;
    }

    method StringLabel(bytes: string) returns (index: nat)
      modifies this`strings
      ensures index == |old(strings)| && strings == old(strings) + [bytes]
    {
      index := |strings|;
      strings := strings + [bytes];
    }

    method EmitCmp(c: Cond)
      modifies this`asm
      ensures asm == old(asm) + CmpCode(c)
    {
      Line(CmpRaxRbx);
      Line(SetAl(c));
      Line(MovzxRaxAl);
    }

    method EmitExpr(e: Expr, env: FnState)
      modifies this`asm, this`strings
      ensures asm == old(asm) + ExprCode(functions, env.locals, e, |old(strings)|)
      ensures strings == old(strings) + Strings(e)
      decreases e, 1
    {
      match e
      case IntLit(v) => Line(MovImm(RAX, v));
      case BoolLit(b) => Line(MovImm(RAX, if b then 1 else 0));
      case StrLit(bytes) =>
        var index := StringLabel(bytes);
        Line(LeaString(index));
      case Ident(name) =>
        if name in env.locals {
          Line(Load(env.locals[name]));
        } else if name in functions {
          Line(CallTo(FnLabel(name)));
        } else {
          Line(XorEax);
        }
      case PathExpr(_) => Line(XorEax);
      case Unary(op, x) => EmitUnary(op, x, env);
      case Binary(op, left, right) => EmitBinary(op, left, right, env);
      case Call(callee, args) => EmitCall(callee, args, env);
      case ErrorExpr => Line(XorEax);
    }

    method EmitUnary(op: UnaryOp, x: Expr, env: FnState)
      modifies this`asm, this`strings
      ensures asm == old(asm) + ExprCode(functions, env.locals, Unary(op, x), |old(strings)|)
      ensures strings == old(strings) + Strings(x)
      decreases Unary(op, x), 0
    {
      EmitExpr(x, env);
      match op
      case Neg => Line(NegRax);
      case Not =>
        Line(CmpRaxImm0);
        Line(SetAl(CE));
        Line(MovzxRaxAl);
    }

    method EmitBinary(op: BinaryOp, left: Expr, right: Expr, env: FnState)
      modifies this`asm, this`strings
      ensures asm == old(asm) + ExprCode(functions, env.locals, Binary(op, left, right), |old(strings)|)
      ensures strings == old(strings) + (Strings(left) + Strings(right))
      decreases Binary(op, left, right), 0
    {
      hide ExprCode, BinaryCode, Strings;
      BinaryAppended(asm, functions, env.locals, op, left, right, |strings|);
      EmitLeft(left, env);
      EmitRight(right, env);
      EmitOperator(op);
    }

    method EmitLeft(left: Expr, env: FnState)
      modifies this`asm, this`strings
      ensures asm == old(asm) + (ExprCode(functions, env.locals, left, |old(strings)|) + [Push(RAX)])
      ensures strings == old(strings) + Strings(left)
      decreases left, 2
    {
      EmitExpr(left, env);
      Line(Push(RAX));
    }

    method EmitRight(right: Expr, env: FnState)
      modifies this`asm, this`strings
      ensures asm == old(asm) + (ExprCode(functions, env.locals, right, |old(strings)|) + [MovReg(RBX, RAX), Pop(RAX)])
      ensures strings == old(strings) + Strings(right)
      decreases right, 2
    {
      EmitExpr(right, env);
      Line(MovReg(RBX, RAX));
      Line(Pop(RAX));
    }

    method EmitOperator(op: BinaryOp)
      modifies this`asm
      ensures asm == old(asm) + BinaryCode(op)
    {
      match op
      case Add => Line(AddRaxRbx);
      case Sub => Line(SubRaxRbx);
      case Mul => Line(ImulRaxRbx);
      case Div =>
        Line(Cqo);
        Line(IdivRbx);
      case Mod =>
        Line(Cqo);
        Line(IdivRbx);
        Line(MovReg(RAX, RDX));
      case Eq => EmitCmp(CE);
      case NotEq => EmitCmp(CNE);
      case Lt => EmitCmp(CL);
      case LtEq => EmitCmp(CLE);
      case Gt => EmitCmp(CG);
      case GtEq => EmitCmp(CGE);
      case And => Line(AndRaxRbx);
      case Or => Line(OrRaxRbx);
    }

    method EmitCall(callee: Path, args: seq<Expr>, env: FnState)
      modifies this`asm, this`strings
      ensures asm == old(asm) + ExprCode(functions, env.locals, Call(callee, args), |old(strings)|)
      ensures strings == old(strings) + ArgStrings(args)
      decreases Call(callee, args), 0
    {
      var name := callee.Display();
      EmitArgs(args, env);
      if name == "io.write" {
        Line(Pop(RDX));
        Line(Pop(RSI));
        Line(Pop(RDI));
        Line(MovImm(RAX, 1));
        Line(Syscall);
        Line(XorEax);
        return;
      }
      EmitPops(|args|);
      Line(CallTo(FnLabel(name)));
    }

    method EmitPops(count: nat)
      modifies this`asm
      ensures asm == old(asm) + PopArgs(count)
    {
      for idx := count downto 0
        invariant asm + PopArgs(idx) == old(asm) + PopArgs(count)
      {
        if idx < MAX_REG_ARGS {
          Line(Pop(ArgReg(idx)));
        }
      }
    }

    method EmitArgs(args: seq<Expr>, env: FnState)
      modifies this`asm, this`strings
      ensures asm == old(asm) + ArgsCode(functions, env.locals, args, |old(strings)|)
      ensures strings == old(strings) + ArgStrings(args)
      decreases args, 0
    {
      for i := 0 to |args|
        invariant asm + ArgsCode(functions, env.locals, args[i..], |strings|)
               == old(asm) + ArgsCode(functions, env.locals, args, |old(strings)|)
        invariant strings + ArgStrings(args[i..]) == old(strings) + ArgStrings(args)
      {
        ArgsCodeStep(functions, env.locals, args, i, asm, strings);
        EmitExpr(args[i], env);
        Line(Push(RAX));
      }
    }
  
    method EmitBlock(b: Block, env: FnState)
      requires BlockHasSlots(b, env.locals.Keys)
      modifies this`asm, this`strings, this`labelId, env`breakLabels, env`continueLabels
      ensures asm == old(asm) + BlockCode(functions, old(env.View()), b, old(labelId), |old(strings)|)
      ensures strings == old(strings) + BlockStrings(b)
      ensures labelId == old(labelId) + BlockLabels(b)
      ensures env.View() == old(env.View())
      decreases b, 0
    {
      for i := 0 to |b|
        invariant env.View() == old(env.View())
        invariant BlockHasSlots(b[i..], env.locals.Keys)
        invariant asm + BlockCode(functions, env.View(), b[i..], labelId, |strings|)
               == old(asm) + BlockCode(functions, env.View(), b, old(labelId), |old(strings)|)
        invariant strings + BlockStrings(b[i..]) == old(strings) + BlockStrings(b)
        invariant labelId + BlockLabels(b[i..]) == old(labelId) + BlockLabels(b)
      {
        BlockCodeStep(functions, env.View(), b, i, asm, labelId, strings);
        EmitStmt(b[i], env);
      }
    }

    method EmitStmt(s: Stmt, env: FnState)
      requires StmtHasSlots(s, env.locals.Keys)
      modifies this`asm, this`strings, this`labelId, env`breakLabels, env`continueLabels
      ensures asm == old(asm) + StmtCode(functions, old(env.View()), s, old(labelId), |old(strings)|)
      ensures strings == old(strings) + StmtStrings(s)
      ensures labelId == old(labelId) + StmtLabels(s)
      ensures env.View() == old(env.View())
      decreases s, 1
    {
      match s
      case Let(name, _, e) => EmitAssignment(name, e, env);
      case Mut(name, _, e) => EmitAssignment(name, e, env);
      case Assign(name, e) => EmitAssignment(name, e, env);
      case Ret(result) => EmitRet(result, env);
      case If(_, _, _) => EmitIf(s, env);
      case Loop(_) => EmitLoop(s, env);
      case While(_, _) => EmitWhile(s, env);
      case Break =>
        if env.breakLabels != [] {
          Line(Jmp(env.breakLabels[|env.breakLabels| - 1]));
        }
      case Continue =>
        if env.continueLabels != [] {
          Line(Jmp(env.continueLabels[|env.continueLabels| - 1]));
        }
      case UnsafeBlock(body) => EmitBlock(body, env);
      case ExprStmt(e) => EmitExpr(e, env);
      case ErrorStmt =>
    }

    method EmitAssignment(name: string, e: Expr, env: FnState)
      requires name in env.locals
      modifies this`asm, this`strings
      ensures asm == old(asm) + StmtCode(functions, env.View(), Assign(name, e), labelId, |old(strings)|)
      ensures strings == old(strings) + Strings(e)
    {
      EmitExpr(e, env);
      Line(Store(env.locals[name], RAX));
    }

    method EmitRet(result: Option<Expr>, env: FnState)
      modifies this`asm, this`strings
      ensures asm == old(asm) + StmtCode(functions, env.View(), Ret(result), labelId, |old(strings)|)
      ensures strings == old(strings) + StmtStrings(Ret(result))
    {
      match result {
        case Some(e) => EmitExpr(e, env);
        case None => Line(XorEax);
      }
      Line(Jmp(env.endLabel));
    }

    method EmitIf(s: Stmt, env: FnState)
      requires s.If? && StmtHasSlots(s, env.locals.Keys)
      modifies this`asm, this`strings, this`labelId, env`breakLabels, env`continueLabels
      ensures asm == old(asm) + StmtCode(functions, old(env.View()), s, old(labelId), |old(strings)|)
      ensures strings == old(strings) + StmtStrings(s)
      ensures labelId == old(labelId) + StmtLabels(s)
      ensures env.View() == old(env.View())
      decreases s, 0
    {
      hide StmtCode, BlockCode, GuardCode, ElseCode;
      IfAppended(asm, functions, env.View(), s, labelId, |strings|);
      Appended3(strings, Strings(s.cond), BlockStrings(s.thenBlock), ArmStrings(s.elseArm));
      Appended2(Strings(s.cond), BlockStrings(s.thenBlock), ArmStrings(s.elseArm));
      var elseLabel := FreshLabel("if_else");
      var endLabel := FreshLabel("if_end");
      EmitGuard(s.cond, if s.elseArm.Else? then elseLabel else endLabel, env);
      EmitThen(s.thenBlock, endLabel, env);
      EmitElse(s.elseArm, elseLabel, env);
      Line(Lab(endLabel));
    }

    method EmitThen(b: Block, endLabel: Label, env: FnState)
      requires BlockHasSlots(b, env.locals.Keys)
      modifies this`asm, this`strings, this`labelId, env`breakLabels, env`continueLabels
      ensures asm == old(asm) + (BlockCode(functions, old(env.View()), b, old(labelId), |old(strings)|) + [Jmp(endLabel)])
      ensures strings == old(strings) + BlockStrings(b)
      ensures labelId == old(labelId) + BlockLabels(b)
      ensures env.View() == old(env.View())
      decreases b, 1
    {
      EmitBlock(b, env);
      Line(Jmp(endLabel));
    }

    method EmitElse(arm: ElseArm, elseLabel: Label, env: FnState)
      requires arm.Else? ==> BlockHasSlots(arm.block, env.locals.Keys)
      modifies this`asm, this`strings, this`labelId, env`breakLabels, env`continueLabels
      ensures asm == old(asm) + ElseCode(functions, old(env.View()), arm, elseLabel, old(labelId), |old(strings)|)
      ensures strings == old(strings) + ArmStrings(arm)
      ensures labelId == old(labelId) + ArmLabels(arm)
      ensures env.View() == old(env.View())
      decreases arm
    {
      match arm
      case NoElse =>
      case Else(b) =>
        Line(Lab(elseLabel));
        EmitBlock(b, env);
    }

    method EmitGuard(cond: Expr, target: Label, env: FnState)
      modifies this`asm, this`strings
      ensures asm == old(asm) + GuardCode(functions, env.locals, cond, target, |old(strings)|)
      ensures strings == old(strings) + Strings(cond)
    {
      EmitExpr(cond, env);
      Line(CmpRaxImm0);
      Line(Je(target));
    }

    method EmitLoopBody(body: Block, start: Label, end: Label, env: FnState)
      requires BlockHasSlots(body, env.locals.Keys)
      modifies this`asm, this`strings, this`labelId, env`breakLabels, env`continueLabels
      ensures asm == old(asm) + (BlockCode(functions, Inside(old(env.View()), start, end), body, old(labelId), |old(strings)|) + [Jmp(start), Lab(end)])
      ensures strings == old(strings) + BlockStrings(body)
      ensures labelId == old(labelId) + BlockLabels(body)
      ensures env.View() == old(env.View())
      decreases body, 1
    {
      env.Enter(start, end);
      EmitBlock(body, env);
      Line(Jmp(start));
      Line(Lab(end));
      env.Leave();
    }

    method EmitLoop(s: Stmt, env: FnState)
      requires s.Loop? && StmtHasSlots(s, env.locals.Keys)
      modifies this`asm, this`strings, this`labelId, env`breakLabels, env`continueLabels
      ensures asm == old(asm) + StmtCode(functions, old(env.View()), s, old(labelId), |old(strings)|)
      ensures strings == old(strings) + StmtStrings(s)
      ensures labelId == old(labelId) + StmtLabels(s)
      ensures env.View() == old(env.View())
      decreases s, 0
    {
      LoopAppended(asm, functions, env.View(), s.body, labelId, |strings|);
      var start := FreshLabel("loop_start");
      var end := FreshLabel("loop_end");
      Line(Lab(start));
      EmitLoopBody(s.body, start, end, env);
    }

    method EmitWhile(s: Stmt, env: FnState)
      requires s.While? && StmtHasSlots(s, env.locals.Keys)
      modifies this`asm, this`strings, this`labelId, env`breakLabels, env`continueLabels
      ensures asm == old(asm) + StmtCode(functions, old(env.View()), s, old(labelId), |old(strings)|)
      ensures strings == old(strings) + StmtStrings(s)
      ensures labelId == old(labelId) + StmtLabels(s)
      ensures env.View() == old(env.View())
      decreases s, 0
    {
      WhileAppended(asm, functions, env.View(), s.cond, s.body, labelId, |strings|);
      Appended2(strings, Strings(s.cond), BlockStrings(s.body));
      var start := FreshLabel("while_start");
      var end := FreshLabel("while_end");
      Line(Lab(start));
      EmitGuard(s.cond, end, env);
      EmitLoopBody(s.body, start, end, env);
    }

    method EmitFn(f: FnDecl)
      requires FnHasSlots(f)
      modifies this`asm, this`strings, this`labelId
      ensures asm == old(asm) + FnCode(functions, f, old(labelId), |old(strings)|)
      ensures strings == old(strings) + BlockStrings(f.body)
      ensures labelId == old(labelId) + 1 + BlockLabels(f.body)
    {
      FnAppended(asm, functions, f, labelId, |strings|);
      var locals := CollectParams(f.params);
      locals := CollectLocals(f.body, locals);
      var stackSize := Align16(|locals| * 8);
      var endLabel := FreshLabel("fn_end");
      var env := new FnState(locals, endLabel);
      EmitPrologue(f, locals, stackSize);
      EmitBlock(f.body, env);
      EmitEpilogue(f.ret, endLabel);
    }

    method EmitPrologue(f: FnDecl, locals: map<string, nat>, stackSize: nat)
      requires locals == FnSlots(f) && stackSize == FrameSize(f)
      modifies this`asm
      ensures asm == old(asm) + Prologue(f)
    {
      Line(Lab(FnLabel(f.name)));
      Line(Push(RBP));
      Line(MovReg(RBP, RSP));
      if stackSize > 0 {
        Line(SubRsp(stackSize));
      }
      EmitParams(f.params, locals);
    }

    method EmitParams(params: seq<Param>, locals: map<string, nat>)
      modifies this`asm
      ensures asm == old(asm) + StoreParams(params, locals, 0)
    {
      for idx := 0 to |params|
        invariant asm + StoreParams(params, locals, idx) == old(asm) + StoreParams(params, locals, 0)
      {
        if params[idx].name in locals {
          if idx < MAX_REG_ARGS {
            Line(Store(locals[params[idx].name], ArgReg(idx)));
          }
        }
      }
    }

    method EmitEpilogue(ret: string, endLabel: Label)
      modifies this`asm
      ensures asm == old(asm) + Epilogue(ret, endLabel)
    {
      if ret == "void" {
        Line(XorEax);
      }
      Line(Lab(endLabel));
      Line(MovReg(RSP, RBP));
      Line(Pop(RBP));
      Line(Return);
    }

    /** The whole translation unit. */
    method Emit(items: seq<Item>, pkg: Package)
      requires asm == [] && strings == [] && labelId == 0 && functions == {}
      requires forall f :: f in Functions(items) ==> FnHasSlots(f)
      modifies this
      ensures asm == ProgramCode(Functions(items), pkg)
      ensures strings == ProgramStrings(Functions(items))
    {
      Register(items);
      EmitStart(pkg);
      EmitFns(items);
    }

    method Register(items: seq<Item>)
      requires functions == {}
      modifies this`functions
      ensures functions == FnNames(Functions(items))
    {
      for i := 0 to |items|
        invariant functions + FnNames(Functions(items[i..])) == FnNames(Functions(items))
      {
        FunctionsStep(items, i);
        if items[i].Fn? {
          functions := functions + {items[i].decl.name};
        }
      }
    }

    method EmitStart(pkg: Package)
      modifies this`asm
      ensures asm == old(asm) + if pkg.runtime == "tiny" then StartCode() else []
    {
      if pkg.runtime == "tiny" {
        Line(Lab(FnLabel(START)));
        Line(CallTo(FnLabel("main")));
        Line(MovEdiEax);
        Line(MovImm(RAX, 60));
        Line(Syscall);
      }
    }

    method EmitFns(items: seq<Item>)
      requires forall f :: f in Functions(items) ==> FnHasSlots(f)
      modifies this`asm, this`strings, this`labelId
      ensures asm == old(asm) + FnsCode(functions, Functions(items), old(labelId), |old(strings)|)
      ensures strings == old(strings) + ProgramStrings(Functions(items))
    {
      hide ItemsLeft, FnCode;
      ItemsLeftStart(functions, items, asm, labelId, strings);
      ghost var code := old(asm) + FnsCode(functions, Functions(items), old(labelId), |old(strings)|);
      ghost var consts := old(strings) + ProgramStrings(Functions(items));
      for i := 0 to |items|
        invariant ItemsLeft(functions, items, i, asm, labelId, strings, code, consts)
      {
        ItemsLeftStep(functions, items, i, asm, labelId, strings, code, consts);
        if items[i].Fn? {
          EmitFn(items[i].decl);
        }
      }
      ItemsLeftEnd(functions, items, asm, labelId, strings, code, consts);
    }
  }

  method CollectParams(params: seq<Param>) returns (locals: map<string, nat>)
    ensures locals == ParamSlots(params)
  {
    locals := map[];
    for i := 0 to |params|
      invariant locals == ParamSlots(params[..i])
    {
      assert params[..i + 1][..i] == params[..i];
      locals := locals[params[i].name := (|locals| + 1) * 8];
    }
    assert params[..|params|] == params;
  }

  method CollectLocals(b: Block, before: map<string, nat>) returns (locals: map<string, nat>)
    ensures locals == BlockSlots(b, before)
    decreases b
  {
    locals := before;
    for i := 0 to |b|
      invariant BlockSlots(b[i..], locals) == BlockSlots(b, before)
    {
      assert b[i..][1..] == b[i + 1..];
      match b[i] {
        case Let(name, _, _) => locals := Declare(name, locals);
        case Mut(name, _, _) => locals := Declare(name, locals);
        case If(_, t, arm) =>
          locals := CollectLocals(t, locals);
          if arm.Else? {
            locals := CollectLocals(arm.block, locals);
          }
        case Loop(body) => locals := CollectLocals(body, locals);
        case While(_, body) => locals := CollectLocals(body, locals);
        case UnsafeBlock(body) => locals := CollectLocals(body, locals);
        case _ =>
      }
    }
  }

  /** One turn of the argument loop. */
  lemma {:induction false} ArgsCodeStep(fns: set<string>, locals: map<string, nat>, args: seq<Expr>, i: nat, asm: seq<Instr>, strings: seq<string>)
    requires i < |args|
    ensures
      asm + ArgsCode(fns, locals, args[i..], |strings|)
      == asm + ExprCode(fns, locals, args[i], |strings|) + [Push(RAX)]
       + ArgsCode(fns, locals, args[i + 1..], |strings + Strings(args[i])|)
    ensures strings + ArgStrings(args[i..]) == strings + Strings(args[i]) + ArgStrings(args[i + 1..])
  {
    hide ExprCode, Strings;
    assert args[i..][1..] == args[i + 1..];
    Appended3(asm, ExprCode(fns, locals, args[i], |strings|), [Push(RAX)],
              ArgsCode(fns, locals, args[i + 1..], |strings| + |Strings(args[i])|));
  }

  lemma {:induction false} BlockCodeStep(fns: set<string>, env: Env, b: Block, i: nat, asm: seq<Instr>, ln: nat, strings: seq<string>)
    requires i < |b|
    ensures
      asm + BlockCode(fns, env, b[i..], ln, |strings|)
      == asm + StmtCode(fns, env, b[i], ln, |strings|)
       + BlockCode(fns, env, b[i + 1..], ln + StmtLabels(b[i]), |strings + StmtStrings(b[i])|)
    ensures strings + BlockStrings(b[i..]) == strings + StmtStrings(b[i]) + BlockStrings(b[i + 1..])
    ensures BlockLabels(b[i..]) == StmtLabels(b[i]) + BlockLabels(b[i + 1..])
    ensures forall names :: BlockHasSlots(b[i..], names) ==> StmtHasSlots(b[i], names) && BlockHasSlots(b[i + 1..], names)
  {
    assert b[i..][1..] == b[i + 1..];
  }

  lemma {:induction false} Appended2<T>(s: seq<T>, a: seq<T>, b: seq<T>)
    ensures s + (a + b) == s + a + b
  {}

  lemma {:induction false} IfAppended(asm: seq<Instr>, fns: set<string>, env: Env, s: Stmt, ln: nat, sn: nat)
    requires s.If?
    ensures
      var sn' := sn + |Strings(s.cond)|;
      asm + StmtCode(fns, env, s, ln, sn)
      == asm + GuardCode(fns, env.locals, s.cond, FalseTarget(s.elseArm, ln), sn)
       + (BlockCode(fns, env, s.thenBlock, ln + 2, sn') + [Jmp(IfEnd(ln))])
       + ElseCode(fns, env, s.elseArm, IfElse(ln), ln + 2 + BlockLabels(s.thenBlock), sn' + |BlockStrings(s.thenBlock)|)
       + [Lab(IfEnd(ln))]
  {
    var sn' := sn + |Strings(s.cond)|;
    var g := GuardCode(fns, env.locals, s.cond, FalseTarget(s.elseArm, ln), sn);
    var t := BlockCode(fns, env, s.thenBlock, ln + 2, sn') + [Jmp(IfEnd(ln))];
    var e := ElseCode(fns, env, s.elseArm, IfElse(ln), ln + 2 + BlockLabels(s.thenBlock), sn' + |BlockStrings(s.thenBlock)|);
    Appended3(asm, g, t, e + [Lab(IfEnd(ln))]);
    Appended2(asm + g + t, e, [Lab(IfEnd(ln))]);
  }

  lemma {:induction false} LoopAppended(asm: seq<Instr>, fns: set<string>, env: Env, body: Block, ln: nat, sn: nat)
    ensures
      var start, end := Local("loop_start", ln), Local("loop_end", ln + 1);
      asm + StmtCode(fns, env, Loop(body), ln, sn)
      == asm + [Lab(start)] + (BlockCode(fns, Inside(env, start, end), body, ln + 2, sn) + [Jmp(start), Lab(end)])
  {}

  lemma {:induction false} WhileAppended(asm: seq<Instr>, fns: set<string>, env: Env, cond: Expr, body: Block, ln: nat, sn: nat)
    ensures
      var start, end := Local("while_start", ln), Local("while_end", ln + 1);
      asm + StmtCode(fns, env, While(cond, body), ln, sn)
      == asm + [Lab(start)] + GuardCode(fns, env.locals, cond, end, sn)
       + (BlockCode(fns, Inside(env, start, end), body, ln + 2, sn + |Strings(cond)|) + [Jmp(start), Lab(end)])
  {
    var start, end := Local("while_start", ln), Local("while_end", ln + 1);
    Appended3(asm, [Lab(start)], GuardCode(fns, env.locals, cond, end, sn),
              BlockCode(fns, Inside(env, start, end), body, ln + 2, sn + |Strings(cond)|) + [Jmp(start), Lab(end)]);
  }

  lemma {:induction false} FnAppended(asm: seq<Instr>, fns: set<string>, f: FnDecl, ln: nat, sn: nat)
    ensures asm + FnCode(fns, f, ln, sn)
         == asm + Prologue(f) + BlockCode(fns, FnEnv(f, ln), f.body, ln + 1, sn) + Epilogue(f.ret, FnEnd(ln))
  {
    Appended3(asm, Prologue(f), BlockCode(fns, FnEnv(f, ln), f.body, ln + 1, sn), Epilogue(f.ret, FnEnd(ln)));
  }

  /** One turn of the loop over the items. */
  lemma {:induction false} FnsCodeStep(names: set<string>, f: FnDecl, rest: seq<FnDecl>, asm: seq<Instr>, ln: nat, strings: seq<string>)
    ensures asm + FnsCode(names, [f] + rest, ln, |strings|)
         == asm + FnCode(names, f, ln, |strings|)
          + FnsCode(names, rest, ln + 1 + BlockLabels(f.body), |strings + BlockStrings(f.body)|)
    ensures strings + ProgramStrings([f] + rest) == strings + BlockStrings(f.body) + ProgramStrings(rest)
  {
    assert ([f] + rest)[1..] == rest;
    Appended2(asm, FnCode(names, f, ln, |strings|),
              FnsCode(names, rest, ln + 1 + BlockLabels(f.body), |strings + BlockStrings(f.body)|));
    Appended2(strings, BlockStrings(f.body), ProgramStrings(rest));
  }

  /** What the loop over the items has yet to emit completes `code` and `consts`. */
  ghost predicate ItemsLeft(names: set<string>, items: seq<Item>, i: nat, asm: seq<Instr>, ln: nat, strings: seq<string>,
                            code: seq<Instr>, consts: seq<string>)
    requires i <= |items|
  {
    && (forall f :: f in Functions(items[i..]) ==> FnHasSlots(f))
    && asm + FnsCode(names, Functions(items[i..]), ln, |strings|) == code
    && strings + ProgramStrings(Functions(items[i..])) == consts
  }

  lemma {:induction false} ItemsLeftStart(names: set<string>, items: seq<Item>, asm: seq<Instr>, ln: nat, strings: seq<string>)
    requires forall f :: f in Functions(items) ==> FnHasSlots(f)
    ensures ItemsLeft(names, items, 0, asm, ln, strings, asm + FnsCode(names, Functions(items), ln, |strings|),
                      strings + ProgramStrings(Functions(items)))
  {
    assert items[0..] == items;
  }

  lemma {:induction false} ItemsLeftEnd(names: set<string>, items: seq<Item>, asm: seq<Instr>, ln: nat, strings: seq<string>,
                     code: seq<Instr>, consts: seq<string>)
    requires ItemsLeft(names, items, |items|, asm, ln, strings, code, consts)
    ensures asm == code && strings == consts
  {}

  lemma {:induction false} ItemsLeftStep(names: set<string>, items: seq<Item>, i: nat, asm: seq<Instr>, ln: nat, strings: seq<string>,
                      code: seq<Instr>, consts: seq<string>)
    requires i < |items| && ItemsLeft(names, items, i, asm, ln, strings, code, consts)
    ensures items[i].Use? ==> ItemsLeft(names, items, i + 1, asm, ln, strings, code, consts)
    ensures items[i].Fn? ==>
      var f := items[i].decl;
      FnHasSlots(f)
      && ItemsLeft(names, items, i + 1, asm + FnCode(names, f, ln, |strings|), ln + 1 + BlockLabels(f.body),
                   strings + BlockStrings(f.body), code, consts)
  {
    hide FnCode, FnsCode, FnHasSlots, BlockStrings;
    FunctionsStep(items, i);
    if items[i].Fn? {
      FnsCodeStep(names, items[i].decl, Functions(items[i + 1..]), asm, ln, strings);
    }
  }
}
