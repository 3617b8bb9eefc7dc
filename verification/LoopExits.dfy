/** The checker reports a break or continue outside a loop exactly when the generator would drop one. */
module LoopExits {
  import opened Ast
  import opened Machine
  import opened Emission
  import opened Checking
  import opened Acceptance

  /** No break or continue of a block is dropped: where the generator reaches one, a loop is open. */
  predicate BlockKeeps(env: Env, b: Block, ln: nat)
    decreases b
  {
    b == [] || (StmtKeeps(env, b[0], ln) && BlockKeeps(env, b[1..], ln + StmtLabels(b[0])))
  }

  predicate StmtKeeps(env: Env, s: Stmt, ln: nat)
    decreases s
  {
    match s
    case If(_, t, NoElse) => BlockKeeps(env, t, ln + 2)
    case If(_, t, Else(b)) => BlockKeeps(env, t, ln + 2) && BlockKeeps(env, b, ln + 2 + BlockLabels(t))
    case Loop(b) => BlockKeeps(Inside(env, Local("loop_start", ln), Local("loop_end", ln + 1)), b, ln + 2)
    case While(_, b) => BlockKeeps(Inside(env, Local("while_start", ln), Local("while_end", ln + 1)), b, ln + 2)
    case UnsafeBlock(b) => BlockKeeps(env, b, ln)
    case Break => JumpToLast(env.breaks) != []
    case Continue => JumpToLast(env.continues) != []
    case _ => true
  }

  predicate JumpCode(code: string) {
    code == "E0501" || code == "E0502"
  }

  /** A break or continue outside a loop is among what is reported. */
  ghost predicate Strays(diags: seq<string>) {
    exists c :: c in diags && JumpCode(c)
  }

  lemma {:induction false} StraysEither(a: seq<string>, b: seq<string>)
    ensures Strays(a + b) <==> Strays(a) || Strays(b)
  {
    hide JumpCode;
  }

  predicate OtherCode(code: string) {
    |code| == 5 && code[2] != '5'
  }

  lemma {:induction false} CalmCodes()
    ensures forall x, c :: OtherCode(c) ==> !Strays(ErrorIf(x, c))
    ensures forall c :: OtherCode(c) ==> !Strays([c])
    ensures !Strays([])
  {}

  lemma {:induction false} RequireCalm(ty: string, t: Ty)
    ensures !Strays(RequireType(ty, t))
  {
    CalmCodes();
    hide JumpCode, Strays, ErrorIf;
  }

  lemma {:induction false} BinaryCalm(op: BinaryOp, l: Ty, r: Ty)
    ensures !Strays(BinaryType(op, l, r).diags)
  {
    CalmCodes();
    hide JumpCode, Strays, ErrorIf;
  }

  lemma {:induction false} ExprCalm(g: Globals, sc: Scope, e: Expr)
    ensures !Strays(TypeOf(g, sc, e).diags)
    decreases e, 1
  {
    CalmCodes();
    hide JumpCode, Strays, ErrorIf, BinaryType;
    match e
    case Ident(name) =>
      if name in g.sigs {
        var sig := g.sigs[name];
        StraysEither(ErrorIf(sig.params != [], "E0404"), ErrorIf(sig.isUnsafe && sc.unsafes == 0, "E0701"));
      }
    case Unary(op, x) =>
      var t := TypeOf(g, sc, x);
      ExprCalm(g, sc, x);
      StraysEither(t.diags, ErrorIf(!IsBool(t.ty), "E0402"));
      StraysEither(t.diags, ErrorIf(!IsNumeric(t.ty), "E0402"));
    case Binary(op, left, right) =>
      var l, r := TypeOf(g, sc, left), TypeOf(g, sc, right);
      ExprCalm(g, sc, left);
      ExprCalm(g, sc, right);
      BinaryCalm(op, l.ty, r.ty);
      StraysEither(l.diags, r.diags);
      StraysEither(l.diags + r.diags, BinaryType(op, l.ty, r.ty).diags);
    case Call(_, _) => CallCalm(g, sc, e);
    case _ =>
  }

  lemma {:induction false} CallCalm(g: Globals, sc: Scope, e: Expr)
    requires e.Call?
    ensures !Strays(TypeOf(g, sc, e).diags)
    decreases e, 0
  {
    CalmCodes();
    hide JumpCode, Strays, ErrorIf, ArgDiags;
    var name := e.callee.Display();
    var lacks := ErrorIf("syscall" !in g.capabilities, "E2001");
    var heap, safe := ErrorIf("heap" !in g.capabilities, "E0801"), ErrorIf(sc.unsafes == 0, "E0701");
    if name == "io.write" || name == "core/io.write" {
      if |e.args| != 3 {
        StraysEither(lacks, ["E0404"]);
      } else {
        WriteCalm(g, sc, e);
      }
    } else if name == "mem.alloc" {
      StraysEither(heap, safe);
      StraysEither(heap + safe, ErrorIf(|e.args| != 1, "E0404"));
    } else if |e.callee.segments| == 1 && e.callee.segments[0] in g.sigs {
      var sig := g.sigs[e.callee.segments[0]];
      var args := if |sig.params| != |e.args| then ["E0404"] else ArgDiags(g, sc, e.args, sig.params);
      if |sig.params| == |e.args| {
        ArgsCalm(g, sc, e.args, sig.params);
      }
      StraysEither(ErrorIf(sig.isUnsafe && sc.unsafes == 0, "E0701"), args);
    }
  }

  lemma {:induction false} WriteCalm(g: Globals, sc: Scope, e: Expr)
    requires e.Call? && (e.callee.Display() == "io.write" || e.callee.Display() == "core/io.write") && |e.args| == 3
    ensures !Strays(TypeOf(g, sc, e).diags)
    decreases e.args
  {
    var lacks := ErrorIf("syscall" !in g.capabilities, "E2001");
    var fd, msg, len := TypeOf(g, sc, e.args[0]), TypeOf(g, sc, e.args[1]), TypeOf(g, sc, e.args[2]);
    var bad := ErrorIf(!IsNumeric(fd.ty) || !IsNumeric(len.ty) || !IsStr(msg.ty), "E0402");
    assert TypeOf(g, sc, e).diags == lacks + fd.diags + msg.diags + len.diags + bad;
    hide JumpCode, Strays, ErrorIf, TypeOf;
    CalmCodes();
    ExprCalm(g, sc, e.args[0]);
    ExprCalm(g, sc, e.args[1]);
    ExprCalm(g, sc, e.args[2]);
    StraysEither(lacks, fd.diags);
    StraysEither(lacks + fd.diags, msg.diags);
    StraysEither(lacks + fd.diags + msg.diags, len.diags);
    StraysEither(lacks + fd.diags + msg.diags + len.diags, bad);
  }

  lemma {:induction false} ArgsCalm(g: Globals, sc: Scope, args: seq<Expr>, params: seq<string>)
    requires |args| == |params|
    ensures !Strays(ArgDiags(g, sc, args, params))
    decreases args, 0
  {
    CalmCodes();
    hide JumpCode, Strays, TypeOf, RequireType;
    if args != [] {
      var t := TypeOf(g, sc, args[0]);
      ExprCalm(g, sc, args[0]);
      RequireCalm(params[0], t.ty);
      ArgsCalm(g, sc, args[1..], params[1..]);
      StraysEither(t.diags, RequireType(params[0], t.ty));
      StraysEither(t.diags + RequireType(params[0], t.ty), ArgDiags(g, sc, args[1..], params[1..]));
    }
  }

  // ----- statements -----

  /** The generator's stacks of loops are empty together, and just outside every loop. */
  predicate SameLoops(env: Env, sc: Scope) {
    |env.breaks| == |env.continues| == sc.loops
  }

  lemma {:induction false} TypedCalm(g: Globals, sc: Scope, ty: string, e: Expr)
    ensures !Strays(TypeOf(g, sc, e).diags + RequireType(ty, TypeOf(g, sc, e).ty))
  {
    hide JumpCode, Strays, TypeOf, RequireType;
    ExprCalm(g, sc, e);
    RequireCalm(ty, TypeOf(g, sc, e).ty);
    StraysEither(TypeOf(g, sc, e).diags, RequireType(ty, TypeOf(g, sc, e).ty));
  }

  lemma {:induction false} CondCalm(g: Globals, sc: Scope, c: Expr)
    ensures !Strays(CondDiags(g, sc, c))
  {
    CalmCodes();
    hide JumpCode, Strays, TypeOf, ErrorIf;
    var t := TypeOf(g, sc, c);
    ExprCalm(g, sc, c);
    StraysEither(t.diags, ErrorIf(!IsBool(t.ty), "E4301"));
  }

  lemma {:induction false} SimpleCalm(g: Globals, sc: Scope, s: Stmt)
    requires s.Let? || s.Mut? || s.Assign? || s.Ret? || s.ExprStmt? || s.ErrorStmt?
    ensures !Strays(CheckStmt(g, sc, s).diags)
  {
    CalmCodes();
    hide JumpCode, Strays, TypeOf, RequireType, ErrorIf;
    match s
    case Let(_, ty, e) => TypedCalm(g, sc, ty, e);
    case Mut(_, ty, e) => TypedCalm(g, sc, ty, e);
    case Assign(x, e) =>
      if x in sc.vars {
        var fixed := ErrorIf(!sc.vars[x].mutable, "E4201");
        var t := TypeOf(g, sc, e);
        ExprCalm(g, sc, e);
        RequireCalm(sc.vars[x].ty, t.ty);
        StraysEither(fixed, t.diags);
        StraysEither(fixed + t.diags, RequireType(sc.vars[x].ty, t.ty));
      }
    case Ret(Some(e)) => TypedCalm(g, sc, sc.ret, e);
    case ExprStmt(e) => ExprCalm(g, sc, e);
    case _ =>
  }

  lemma {:induction false} BlockStrays(g: Globals, sc: Scope, b: Block, env: Env, ln: nat)
    requires SameLoops(env, sc)
    ensures Strays(CheckBlock(g, sc, b).diags) <==> !BlockKeeps(env, b, ln)
    decreases b, 2
  {
    hide JumpCode, CheckStmt, StmtKeeps, Strays;
    if b == [] {
      CalmCodes();
    } else {
      var first := CheckStmt(g, sc, b[0]);
      StmtStrays(g, sc, b[0], env, ln);
      BlockStrays(g, sc.(vars := first.vars), b[1..], env, ln + StmtLabels(b[0]));
      StraysEither(first.diags, CheckBlock(g, sc.(vars := first.vars), b[1..]).diags);
    }
  }

  lemma {:induction false} StmtStrays(g: Globals, sc: Scope, s: Stmt, env: Env, ln: nat)
    requires SameLoops(env, sc)
    ensures Strays(CheckStmt(g, sc, s).diags) <==> !StmtKeeps(env, s, ln)
    decreases s, 1
  {
    hide JumpCode, CheckBlock, BlockKeeps, Strays, ErrorIf, TypeOf, RequireType;
    match s
    case If(_, _, _) => IfStrays(g, sc, s, env, ln);
    case Loop(b) =>
      BlockStrays(g, sc.(loops := sc.loops + 1), b, Inside(env, Local("loop_start", ln), Local("loop_end", ln + 1)), ln + 2);
    case While(c, b) =>
      BlockStrays(g, sc.(loops := sc.loops + 1), b, Inside(env, Local("while_start", ln), Local("while_end", ln + 1)), ln + 2);
      CondCalm(g, sc, c);
      StraysEither(CondDiags(g, sc, c), CheckBlock(g, sc.(loops := sc.loops + 1), b).diags);
    case UnsafeBlock(b) =>
      var inner := sc.(unsafes := sc.unsafes + 1);
      BlockStrays(g, inner, b, env, ln);
      CalmCodes();
      StraysEither(ErrorIf("unsafe" !in g.capabilities, "E0801"), CheckBlock(g, inner, b).diags);
    case Break => StrayReported(sc.loops == 0, "E0501");
    case Continue => StrayReported(sc.loops == 0, "E0502");
    case _ => SimpleCalm(g, sc, s);
  }

  lemma {:induction false} StrayReported(x: bool, code: string)
    requires JumpCode(code)
    ensures Strays(ErrorIf(x, code)) <==> x
  {
    if x {
      assert code in ErrorIf(x, code);
    }
  }

  lemma {:induction false} IfStrays(g: Globals, sc: Scope, s: Stmt, env: Env, ln: nat)
    requires s.If? && SameLoops(env, sc)
    ensures Strays(CheckStmt(g, sc, s).diags) <==> !StmtKeeps(env, s, ln)
    decreases s, 0
  {
    hide JumpCode, CheckBlock, BlockKeeps, Strays, CondDiags;
    var c, t := CondDiags(g, sc, s.cond), CheckBlock(g, sc, s.thenBlock);
    CondCalm(g, sc, s.cond);
    BlockStrays(g, sc, s.thenBlock, env, ln + 2);
    StraysEither(c, t.diags);
    StraysEither(c + t.diags, CheckArm(g, sc.(vars := t.vars), s.elseArm).diags);
    if s.elseArm.Else? {
      BlockStrays(g, sc.(vars := t.vars), s.elseArm.block, env, ln + 2 + BlockLabels(s.thenBlock));
    } else {
      CalmCodes();
    }
  }

  /** For any function: the checker reports a stray break or continue exactly when the generator, given the function's
      code to emit, would drop one. */
  lemma {:induction false} StraysIffDropped(g: Globals, f: FnDecl, ln: nat)
    ensures Strays(FnDiags(g, f)) <==> !BlockKeeps(FnEnv(f, ln), f.body, ln + 1)
  {
    hide JumpCode, CheckBlock, BlockKeeps, Strays, BlockReturns, DeclareParams, FnSlots;
    var p, b := DeclareParams(f.params), CheckBlock(g, EntryScope(f), f.body);
    var end := ErrorIf(f.ret != "void" && !BlockReturns(f.body), "E4101");
    CalmCodes();
    ParamsCalm(f.params);
    BlockStrays(g, EntryScope(f), f.body, FnEnv(f, ln), ln + 1);
    StraysEither(p.diags, b.diags);
    StraysEither(p.diags + b.diags, end);
  }

  lemma {:induction false} ParamsCalm(params: seq<Param>)
    ensures !Strays(DeclareParams(params).diags)
    decreases |params|
  {
    CalmCodes();
    hide JumpCode, Strays, ErrorIf;
    if params != [] {
      var before := DeclareParams(params[..|params| - 1]);
      ParamsCalm(params[..|params| - 1]);
      StraysEither(before.diags, ["E4202"]);
    }
  }

  /** No break and no continue of an accepted program is dropped. */
  lemma {:induction false} JumpsKept(fns: seq<FnDecl>, pkg: Package, f: FnDecl, ln: nat)
    requires Accepts(fns, pkg) && f in fns
    ensures BlockKeeps(FnEnv(f, ln), f.body, ln + 1)
  {
    hide Accepts, FnDiags, BlockKeeps, SigOf, MainDiags, FnNames, GlobalsOf;
    Accepted(fns, pkg);
    StraysIffDropped(GlobalsOf(fns, pkg), f, ln);
    assert FnDiags(GlobalsOf(fns, pkg), f) == [];
  }
}
