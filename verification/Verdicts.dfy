/** The checker reports exactly what the rules say: a code is among its diagnostics if and only if some part of the
    program is wrong in that way, and it accepts exactly the programs in which nothing is. */
module Verdicts {
  import opened Ast
  import opened Words
  import opened Checking
  import opened Emission
  import opened TypeRules

  // ----- integer types -----

  lemma {:induction false} SmallPowers()
    ensures Pow2(7) == 0x80 && Pow2(8) == 0x100 && Pow2(15) == 0x8000 && Pow2(16) == 0x1_0000
  {
    assert Pow2(4) == 16;
    assert Pow2(8) == 16 * Pow2(4);
    assert Pow2(12) == 16 * Pow2(8);
    assert Pow2(16) == 16 * Pow2(12);
  }

  lemma {:induction false} LargePowers()
    ensures Pow2(31) == 0x8000_0000 && Pow2(32) == 0x1_0000_0000 && Pow2(63) == 0x8000_0000_0000_0000 && Pow2(64) == 0x1_0000_0000_0000_0000
  {
    SmallPowers();
    Pow2Double(16);
    Pow2Of64();
    assert Pow2(32) == 2 * Pow2(31);
    assert Pow2(64) == 2 * Pow2(63);
  }

  /** An integer type of n bits takes exactly the literals below 2^n, or below 2^(n-1) where one bit is the sign. */
  lemma {:induction false} LiteralsFit(value: nat, ty: string)
    ensures IsIntegerType(ty) <==> Width(ty).Some?
    ensures LiteralFits(value, ty) <==> Fits(value, ty)
  {
    SmallPowers();
    LargePowers();
    hide Pow2;
  }

  lemma {:induction false} Numerics(t: Ty)
    ensures IsNumeric(t) <==> Numeric(t)
  {
    if t.Named? {
      LiteralsFit(0, t.name);
    }
  }

  lemma {:induction false} Merges(l: Ty, r: Ty)
    requires Numeric(l) && Numeric(r)
    ensures MergeNumeric(l, r) == Joined(l, r)
  {
    Numerics(l);
    Numerics(r);
    hide IsIntegerType, Width;
  }

  lemma {:induction false} Mismatches(expected: string, t: Ty, code: string)
    ensures code in RequireType(expected, t) <==> Mismatch(expected, t, code)
  {
    LiteralsFit(if t.IntLiteral? then t.value else 0, expected);
    hide IsIntegerType, Width, LiteralFits, Fits;
  }

  // ----- what the checker knows -----

  ghost predicate SeesVars(decls: seq<Decl>, vars: Vars) {
    forall x :: && (x in vars <==> FindDecl(decls, x).Some?)
                && (x in vars ==> vars[x] == VarInfo(FindDecl(decls, x).value.ty, FindDecl(decls, x).value.mutable))
  }

  ghost predicate SeesFns(fns: seq<FnDecl>, sigs: map<string, FnSig>) {
    forall x :: (x in sigs <==> FindFn(fns, x).Some?) && (x in sigs ==> sigs[x] == SigOf(FindFn(fns, x).value))
  }

  /** The checker is at that place. */
  ghost predicate Knows(pl: Place, g: Globals, sc: Scope) {
    && SeesVars(pl.decls, sc.vars) && SeesFns(pl.fns, g.sigs) && g.capabilities == pl.capabilities
    && sc.ret == pl.ret && (pl.inLoop <==> sc.loops > 0) && (pl.inUnsafe <==> sc.unsafes > 0)
  }

  lemma {:induction false} DeclKnown(pl: Place, g: Globals, sc: Scope, x: string)
    requires Knows(pl, g, sc)
    ensures x in sc.vars <==> FindDecl(pl.decls, x).Some?
    ensures x in sc.vars ==> sc.vars[x] == VarInfo(FindDecl(pl.decls, x).value.ty, FindDecl(pl.decls, x).value.mutable)
  {}

  lemma {:induction false} FnKnown(pl: Place, g: Globals, sc: Scope, x: string)
    requires Knows(pl, g, sc)
    ensures x in g.sigs <==> FindFn(pl.fns, x).Some?
    ensures x in g.sigs ==>
      var f := FindFn(pl.fns, x).value;
      && g.sigs[x].ret == f.ret && g.sigs[x].isUnsafe == f.isUnsafe && |g.sigs[x].params| == |f.params|
      && forall i :: 0 <= i < |f.params| ==> g.sigs[x].params[i] == f.params[i].ty
  {}

  lemma {:induction false} RestKnown(pl: Place, g: Globals, sc: Scope)
    requires Knows(pl, g, sc)
    ensures g.capabilities == pl.capabilities && sc.ret == pl.ret && (pl.inLoop <==> sc.loops > 0) && (pl.inUnsafe <==> sc.unsafes > 0)
  {}

  // ----- expressions -----

  lemma {:induction false} Operations(op: BinaryOp)
    ensures IsArithmetic(op) <==> OperationOf(op).Arithmetic?
    ensures IsLogical(op) <==> OperationOf(op).Logical?
  {}

  lemma {:induction false} TypesAgree(pl: Place, g: Globals, sc: Scope, e: Expr)
    requires Knows(pl, g, sc)
    ensures TypeOf(g, sc, e).ty == TypeIn(pl, e)
    decreases e
  {
    hide Knows, MergeNumeric, Joined, IsNumeric, Numeric, ArgDiags;
    match e
    case Ident(x) =>
      DeclKnown(pl, g, sc, x);
      FnKnown(pl, g, sc, x);
    case Unary(_, x) => TypesAgree(pl, g, sc, x);
    case Binary(op, l, r) =>
      TypesAgree(pl, g, sc, l);
      TypesAgree(pl, g, sc, r);
      OperandTypes(op, TypeIn(pl, l), TypeIn(pl, r));
    case Call(callee, _) =>
      if |callee.segments| == 1 {
        FnKnown(pl, g, sc, callee.segments[0]);
      }
    case _ =>
  }

  lemma {:induction false} OperandTypes(op: BinaryOp, l: Ty, r: Ty)
    ensures BinaryType(op, l, r).ty ==
      if !OperationOf(op).Arithmetic? then Named("bool") else if Numeric(l) && Numeric(r) then Joined(l, r) else Unknown
  {
    Operations(op);
    Numerics(l);
    Numerics(r);
    if Numeric(l) && Numeric(r) {
      Merges(l, r);
      NumberIsNoText(l);
      NumberIsNoText(r);
    }
    hide Numeric, IsNumeric, MergeNumeric, Joined, IsArithmetic, OperationOf;
  }

  lemma {:induction false} NumberIsNoText(t: Ty)
    requires Numeric(t)
    ensures !Checking.IsStr(t)
  {}

  lemma {:induction false} OperandDiags(op: BinaryOp, l: Ty, r: Ty, code: string)
    ensures code in BinaryType(op, l, r).diags <==> match OperationOf(op)
      case Arithmetic => if TypeRules.IsStr(l) || TypeRules.IsStr(r) then code == "E3001" else code == "E0402" && !(Numeric(l) && Numeric(r))
      case Logical => code == "E0402" && !(TypeRules.IsBool(l) && TypeRules.IsBool(r))
      case Comparison => code == "E0402" && l != r && !(Numeric(l) && Numeric(r))
  {
    Operations(op);
    Numerics(l);
    Numerics(r);
    hide Numeric, IsNumeric, MergeNumeric, IsArithmetic, IsLogical, OperationOf;
  }

  lemma {:induction false} ExprVerdict(pl: Place, g: Globals, sc: Scope, e: Expr, code: string)
    requires Knows(pl, g, sc)
    ensures code in TypeOf(g, sc, e).diags <==> ExprHas(pl, e, code)
    decreases e, 2
  {
    hide Knows, BinaryType, IsNumeric, Numeric, OperationOf, ArgDiags, TypeIn, Looks, CallFault;
    match e
    case Ident(x) =>
      DeclKnown(pl, g, sc, x);
      FnKnown(pl, g, sc, x);
      RestKnown(pl, g, sc);
    case Unary(op, x) =>
      TypesAgree(pl, g, sc, x);
      Numerics(TypeIn(pl, x));
      ExprVerdict(pl, g, sc, x, code);
    case Binary(op, l, r) =>
      TypesAgree(pl, g, sc, l);
      TypesAgree(pl, g, sc, r);
      OperandDiags(op, TypeIn(pl, l), TypeIn(pl, r), code);
      ExprVerdict(pl, g, sc, l, code);
      ExprVerdict(pl, g, sc, r, code);
    case Call(_, _) => CallVerdict(pl, g, sc, e, code);
    case _ =>
  }

  lemma {:induction false} CallVerdict(pl: Place, g: Globals, sc: Scope, e: Expr, code: string)
    requires e.Call? && Knows(pl, g, sc)
    ensures code in TypeOf(g, sc, e).diags <==> ExprHas(pl, e, code)
    decreases e, 1
  {
    if TypeRules.IsWrite(e.callee) {
      WriteVerdict(pl, g, sc, e, code);
    } else if TypeRules.IsAlloc(e.callee) {
      RestKnown(pl, g, sc);
    } else if Callee(pl, e.callee).Some? {
      FnCallVerdict(pl, g, sc, e, code);
    } else {
      if |e.callee.segments| == 1 {
        FnKnown(pl, g, sc, e.callee.segments[0]);
      }
    }
  }

  lemma {:induction false} WriteVerdict(pl: Place, g: Globals, sc: Scope, e: Expr, code: string)
    requires e.Call? && TypeRules.IsWrite(e.callee) && Knows(pl, g, sc)
    ensures code in TypeOf(g, sc, e).diags <==> ExprHas(pl, e, code)
    decreases e, 0
  {
    RestKnown(pl, g, sc);
    hide Knows, IsNumeric, Numeric, TypeIn, ArgDiags;
    if |e.args| == 3 {
      var fd, msg, len := e.args[0], e.args[1], e.args[2];
      ExprVerdict(pl, g, sc, fd, code);
      ExprVerdict(pl, g, sc, msg, code);
      ExprVerdict(pl, g, sc, len, code);
      TypesAgree(pl, g, sc, fd);
      TypesAgree(pl, g, sc, msg);
      TypesAgree(pl, g, sc, len);
      Numerics(TypeIn(pl, fd));
      Numerics(TypeIn(pl, len));
      WriteDiags(pl, g, sc, e, code);
      assert (exists i :: 0 <= i < |e.args| && ExprHas(pl, e.args[i], code))
        <==> ExprHas(pl, fd, code) || ExprHas(pl, msg, code) || ExprHas(pl, len, code);
    }
  }

  lemma {:induction false} WriteDiags(pl: Place, g: Globals, sc: Scope, e: Expr, code: string)
    requires e.Call? && TypeRules.IsWrite(e.callee) && |e.args| == 3
    ensures var fd, msg, len := TypeOf(g, sc, e.args[0]), TypeOf(g, sc, e.args[1]), TypeOf(g, sc, e.args[2]);
      code in TypeOf(g, sc, e).diags <==>
        || (code == "E2001" && "syscall" !in g.capabilities) || code in fd.diags || code in msg.diags || code in len.diags
        || (code == "E0402" && !(IsNumeric(fd.ty) && Checking.IsStr(msg.ty) && IsNumeric(len.ty)))
  {
    hide IsNumeric, ArgDiags;
  }

  lemma {:induction false} FnCallVerdict(pl: Place, g: Globals, sc: Scope, e: Expr, code: string)
    requires e.Call? && Callee(pl, e.callee).Some? && Knows(pl, g, sc)
    ensures code in TypeOf(g, sc, e).diags <==> ExprHas(pl, e, code)
    decreases e, 0
  {
    var name := e.callee.segments[0];
    FnKnown(pl, g, sc, name);
    RestKnown(pl, g, sc);
    hide Knows, ArgDiags, TypeIn, Mismatch;
    if |e.args| == |g.sigs[name].params| {
      ArgsVerdict(pl, g, sc, e.args, g.sigs[name].params, code);
    }
  }

  /** Some argument is wrong in that way, or of another type than its parameter. */
  predicate SomeArg(pl: Place, args: seq<Expr>, params: seq<string>, code: string)
    requires |args| == |params|
  {
    exists i :: 0 <= i < |args| && (ExprHas(pl, args[i], code) || Mismatch(params[i], TypeIn(pl, args[i]), code))
  }

  lemma {:induction false} ArgsVerdict(pl: Place, g: Globals, sc: Scope, args: seq<Expr>, params: seq<string>, code: string)
    requires |args| == |params| && Knows(pl, g, sc)
    ensures code in ArgDiags(g, sc, args, params) <==> SomeArg(pl, args, params, code)
    decreases args
  {
    hide Knows, TypeIn, Mismatch, ExprHas, TypeOf, RequireType;
    if args != [] {
      ExprVerdict(pl, g, sc, args[0], code);
      TypesAgree(pl, g, sc, args[0]);
      Mismatches(params[0], TypeIn(pl, args[0]), code);
      ArgsVerdict(pl, g, sc, args[1..], params[1..], code);
      FirstOrLater(pl, args, params, code);
    }
  }

  lemma {:induction false} FirstOrLater(pl: Place, args: seq<Expr>, params: seq<string>, code: string)
    requires |args| == |params| && args != []
    ensures SomeArg(pl, args, params, code) <==>
      || ExprHas(pl, args[0], code) || Mismatch(params[0], TypeIn(pl, args[0]), code)
      || SomeArg(pl, args[1..], params[1..], code)
  {
    hide TypeIn, Mismatch, ExprHas;
    if i :| 0 <= i < |args| && (ExprHas(pl, args[i], code) || Mismatch(params[i], TypeIn(pl, args[i]), code)) {
      if i > 0 {
        assert args[1..][i - 1] == args[i] && params[1..][i - 1] == params[i];
      }
    }
    if i :| 0 <= i < |args[1..]| && (ExprHas(pl, args[1..][i], code) || Mismatch(params[1..][i], TypeIn(pl, args[1..][i]), code)) {
      assert args[i + 1] == args[1..][i] && params[i + 1] == params[1..][i];
    }
  }

  // ----- declarations -----

  lemma {:induction false} FindInBoth(a: seq<Decl>, b: seq<Decl>, x: string)
    ensures FindDecl(a + b, x) == if FindDecl(a, x).Some? then FindDecl(a, x) else FindDecl(b, x)
    decreases a
  {
    if a == [] {
      assert a + b == b;
    } else {
      assert (a + b)[1..] == a[1..] + b;
      FindInBoth(a[1..], b, x);
    }
  }

  lemma {:induction false} OneDeclared(decls: seq<Decl>, vars: Vars, d: Decl)
    requires SeesVars(decls, vars)
    ensures SeesVars(decls + [d], if d.name in vars then vars else vars[d.name := VarInfo(d.ty, d.mutable)])
  {
    forall x
      ensures FindDecl(decls + [d], x) == if FindDecl(decls, x).Some? then FindDecl(decls, x) else if d.name == x then Some(d) else None
    {
      FindInBoth(decls, [d], x);
      assert FindDecl([d][1..], x) == None;
    }
  }

  lemma {:induction false} AfterTwice(pl: Place, a: seq<Decl>, b: seq<Decl>)
    ensures pl.After(a).After(b) == pl.After(a + b) && pl.After([]) == pl
  {
    assert pl.decls + a + b == pl.decls + (a + b) && pl.decls + [] == pl.decls;
  }

  /** After a block the checker knows its declarations too. */
  lemma {:induction false} BlockKnown(pl: Place, g: Globals, sc: Scope, b: Block)
    requires Knows(pl, g, sc)
    ensures Knows(pl.After(BlockDecls(b)), g, sc.(vars := CheckBlock(g, sc, b).vars))
    decreases b
  {
    AfterTwice(pl, [], []);
    if b != [] {
      hide Knows, CheckStmt, StmtDecls;
      var first := CheckStmt(g, sc, b[0]);
      StmtKnown(pl, g, sc, b[0]);
      BlockKnown(pl.After(StmtDecls(b[0])), g, sc.(vars := first.vars), b[1..]);
      AfterTwice(pl, StmtDecls(b[0]), BlockDecls(b[1..]));
    }
  }

  lemma {:induction false} StmtKnown(pl: Place, g: Globals, sc: Scope, s: Stmt)
    requires Knows(pl, g, sc)
    ensures Knows(pl.After(StmtDecls(s)), g, sc.(vars := CheckStmt(g, sc, s).vars))
    decreases s
  {
    hide SeesFns, CheckBlock, BlockDecls, TypeOf, RequireType;
    AfterTwice(pl, [], []);
    match s
    case Let(name, ty, _) => OneDeclared(pl.decls, sc.vars, Decl(name, ty, false));
    case Mut(name, ty, _) => OneDeclared(pl.decls, sc.vars, Decl(name, ty, true));
    case If(_, t, arm) =>
      BlockKnown(pl, g, sc, t);
      if arm.Else? {
        BlockKnown(pl.After(BlockDecls(t)), g, sc.(vars := CheckBlock(g, sc, t).vars), arm.block);
        AfterTwice(pl, BlockDecls(t), BlockDecls(arm.block));
      }
    case Loop(b) => BlockKnown(pl.Looping(), g, sc.(loops := sc.loops + 1), b);
    case While(_, b) => BlockKnown(pl.Looping(), g, sc.(loops := sc.loops + 1), b);
    case UnsafeBlock(b) => BlockKnown(pl.Unsafely(), g, sc.(unsafes := sc.unsafes + 1), b);
    case _ =>
  }

  // ----- statements -----

  lemma {:induction false} ValueVerdict(pl: Place, g: Globals, sc: Scope, e: Expr, expected: string, code: string)
    requires Knows(pl, g, sc)
    ensures code in TypeOf(g, sc, e).diags + RequireType(expected, TypeOf(g, sc, e).ty) <==> ValueHas(pl, e, expected, code)
  {
    hide Knows, TypeOf, RequireType, ExprHas, Mismatch, TypeIn;
    ExprVerdict(pl, g, sc, e, code);
    TypesAgree(pl, g, sc, e);
    Mismatches(expected, TypeIn(pl, e), code);
  }

  lemma {:induction false} CondVerdict(pl: Place, g: Globals, sc: Scope, e: Expr, code: string)
    requires Knows(pl, g, sc)
    ensures code in CondDiags(g, sc, e) <==> CondHas(pl, e, code)
  {
    hide Knows, TypeOf, ExprHas, TypeIn;
    ExprVerdict(pl, g, sc, e, code);
    TypesAgree(pl, g, sc, e);
  }

  /** The first statement is wrong, or a later one is, seeing what the first declares. */
  lemma {:induction false} BlockSteps(pl: Place, b: Block, code: string)
    requires b != []
    ensures BlockHas(pl, b, code) <==> StmtHas(pl, b[0], code) || BlockHas(pl.After(StmtDecls(b[0])), b[1..], code)
  {
    hide StmtHas, StmtDecls;
    var rest := pl.After(StmtDecls(b[0]));
    forall i | 0 <= i < |b|
      ensures pl.After(BlockDecls(b[..i])) == if i == 0 then pl else rest.After(BlockDecls(b[1..][..i - 1]))
    {
      AfterTwice(pl, [], []);
      if i > 0 {
        assert b[..i][1..] == b[1..][..i - 1];
        AfterTwice(pl, StmtDecls(b[0]), BlockDecls(b[1..][..i - 1]));
      }
    }
    if i :| 0 <= i < |b| && StmtHas(pl.After(BlockDecls(b[..i])), b[i], code) {
      if i > 0 {
        assert StmtHas(rest.After(BlockDecls(b[1..][..i - 1])), b[1..][i - 1], code);
      }
    }
    if i :| 0 <= i < |b[1..]| && StmtHas(rest.After(BlockDecls(b[1..][..i])), b[1..][i], code) {
      assert StmtHas(pl.After(BlockDecls(b[..i + 1])), b[i + 1], code);
    }
    assert pl.After(BlockDecls(b[..0])) == pl;
  }

  lemma {:induction false} BlockVerdict(pl: Place, g: Globals, sc: Scope, b: Block, code: string)
    requires Knows(pl, g, sc)
    ensures code in CheckBlock(g, sc, b).diags <==> BlockHas(pl, b, code)
    decreases b, 2
  {
    hide Knows, CheckStmt, StmtHas, StmtDecls;
    if b != [] {
      var first := CheckStmt(g, sc, b[0]);
      BlockSteps(pl, b, code);
      StmtKnown(pl, g, sc, b[0]);
      StmtVerdict(pl, g, sc, b[0], code);
      BlockVerdict(pl.After(StmtDecls(b[0])), g, sc.(vars := first.vars), b[1..], code);
    }
  }

  lemma {:induction false} StmtVerdict(pl: Place, g: Globals, sc: Scope, s: Stmt, code: string)
    requires Knows(pl, g, sc)
    ensures code in CheckStmt(g, sc, s).diags <==> StmtHas(pl, s, code)
    decreases s, 1
  {
    hide CheckBlock, BlockHas, CondDiags, CondHas, ValueHas, TypeOf, RequireType, SeesVars, SeesFns, ExprHas;
    match s
    case Let(_, _, _) => DeclVerdict(pl, g, sc, s, code);
    case Mut(_, _, _) => DeclVerdict(pl, g, sc, s, code);
    case Assign(_, _) => AssignVerdict(pl, g, sc, s, code);
    case Ret(Some(e)) => ValueVerdict(pl, g, sc, e, pl.ret, code);
    case If(_, _, _) => IfVerdict(pl, g, sc, s, code);
    case Loop(b) => BlockVerdict(pl.Looping(), g, sc.(loops := sc.loops + 1), b, code);
    case While(c, b) =>
      CondVerdict(pl, g, sc, c, code);
      BlockVerdict(pl.Looping(), g, sc.(loops := sc.loops + 1), b, code);
    case UnsafeBlock(b) => BlockVerdict(pl.Unsafely(), g, sc.(unsafes := sc.unsafes + 1), b, code);
    case ExprStmt(e) => ExprVerdict(pl, g, sc, e, code);
    case _ =>
  }

  lemma {:induction false} DeclVerdict(pl: Place, g: Globals, sc: Scope, s: Stmt, code: string)
    requires (s.Let? || s.Mut?) && Knows(pl, g, sc)
    ensures code in CheckStmt(g, sc, s).diags <==> StmtHas(pl, s, code)
  {
    DeclKnown(pl, g, sc, s.name);
    hide Knows, TypeOf, RequireType, ValueHas;
    ValueVerdict(pl, g, sc, s.init, s.ty, code);
  }

  lemma {:induction false} AssignVerdict(pl: Place, g: Globals, sc: Scope, s: Stmt, code: string)
    requires s.Assign? && Knows(pl, g, sc)
    ensures code in CheckStmt(g, sc, s).diags <==> StmtHas(pl, s, code)
  {
    DeclKnown(pl, g, sc, s.name);
    hide Knows, TypeOf, RequireType, ValueHas;
    if s.name in sc.vars {
      ValueVerdict(pl, g, sc, s.rhs, sc.vars[s.name].ty, code);
    }
  }

  lemma {:induction false} IfVerdict(pl: Place, g: Globals, sc: Scope, s: Stmt, code: string)
    requires s.If? && Knows(pl, g, sc)
    ensures code in CheckStmt(g, sc, s).diags <==> StmtHas(pl, s, code)
    decreases s, 0
  {
    hide Knows, CheckBlock, BlockHas, CondDiags, CondHas, BlockDecls;
    CondVerdict(pl, g, sc, s.cond, code);
    BlockVerdict(pl, g, sc, s.thenBlock, code);
    if s.elseArm.Else? {
      BlockKnown(pl, g, sc, s.thenBlock);
      BlockVerdict(pl.After(BlockDecls(s.thenBlock)), g, sc.(vars := CheckBlock(g, sc, s.thenBlock).vars), s.elseArm.block, code);
    }
  }

  // ----- returning -----

  ghost predicate MeetsRet(w: seq<Stmt>) {
    exists s: Stmt :: s in w && s.Ret?
  }

  lemma {:induction false} MeetsEither(u: seq<Stmt>, v: seq<Stmt>)
    ensures MeetsRet(u + v) <==> MeetsRet(u) || MeetsRet(v)
  {}

  lemma {:induction false} EveryWayReturns(b: Block, w: seq<Stmt>)
    requires BlockReturns(b) && Way(b, w)
    ensures MeetsRet(w)
    decreases b, 1
  {
    hide MeetsRet;
    var i :| 0 <= i <= |w| && StmtWay(b[0], w[..i]) && Way(b[1..], w[i..]);
    MeetsEither(w[..i], w[i..]);
    assert w == w[..i] + w[i..];
    if StmtReturns(b[0]) {
      EveryStmtWayReturns(b[0], w[..i]);
    } else {
      EveryWayReturns(b[1..], w[i..]);
    }
  }

  lemma {:induction false} EveryStmtWayReturns(s: Stmt, w: seq<Stmt>)
    requires StmtReturns(s) && StmtWay(s, w)
    ensures MeetsRet(w)
    decreases s, 0
  {
    match s
    case Ret(_) => assert s in w;
    case If(_, t, Else(b)) =>
      hide MeetsRet;
      if Way(t, w) {
        EveryWayReturns(t, w);
      } else {
        EveryWayReturns(b, w);
      }
  }

  lemma {:induction false} SomeWayDoesNot(b: Block) returns (w: seq<Stmt>)
    requires !BlockReturns(b)
    ensures Way(b, w) && !MeetsRet(w)
    decreases b, 1
  {
    hide MeetsRet;
    if b == [] {
      w := [];
      NothingMet();
    } else {
      var u := SomeStmtWayDoesNot(b[0]);
      var v := SomeWayDoesNot(b[1..]);
      w := u + v;
      assert w[..|u|] == u && w[|u|..] == v;
      MeetsEither(u, v);
    }
  }

  lemma {:induction false} NothingMet()
    ensures !MeetsRet([])
  {}

  lemma {:induction false} SomeStmtWayDoesNot(s: Stmt) returns (w: seq<Stmt>)
    requires !StmtReturns(s)
    ensures StmtWay(s, w) && !MeetsRet(w)
    decreases s, 0
  {
    w := [s];
    match s
    case If(_, t, NoElse) =>
      w := [];
      NothingMet();
    case If(_, t, Else(b)) =>
      hide MeetsRet;
      if !BlockReturns(t) {
        w := SomeWayDoesNot(t);
      } else {
        w := SomeWayDoesNot(b);
      }
    case _ =>
  }

  /** The analysis says that a block returns exactly when every way through it comes to a `ret`. */
  lemma {:induction false} ReturnsIff(b: Block)
    ensures BlockReturns(b) <==> AlwaysReturns(b)
  {
    hide BlockReturns, Way;
    if BlockReturns(b) {
      forall w: seq<Stmt> | Way(b, w)
        ensures exists s: Stmt :: s in w && s.Ret?
      {
        EveryWayReturns(b, w);
      }
    } else {
      var w := SomeWayDoesNot(b);
      assert Way(b, w);
    }
  }

  // ----- functions -----

  lemma {:induction false} FindParam(params: seq<Param>, x: string)
    ensures FindDecl(ParamDecls(params), x).None? <==> forall i :: 0 <= i < |params| ==> params[i].name != x
    decreases |params|
  {
    if params != [] {
      assert ParamDecls(params)[1..] == ParamDecls(params[1..]);
      FindParam(params[1..], x);
      assert forall i :: 0 < i < |params| ==> params[i] == params[1..][i - 1];
    }
  }

  lemma {:induction false} ParamsKnown(params: seq<Param>)
    ensures SeesVars(ParamDecls(params), DeclareParams(params).vars)
    decreases |params|
  {
    if params != [] {
      var last := |params| - 1;
      ParamsKnown(params[..last]);
      assert ParamDecls(params) == ParamDecls(params[..last]) + [Decl(params[last].name, params[last].ty, false)];
      OneDeclared(ParamDecls(params[..last]), DeclareParams(params[..last]).vars, Decl(params[last].name, params[last].ty, false));
    }
  }

  lemma {:induction false} ParamsVerdict(params: seq<Param>, code: string)
    ensures code in DeclareParams(params).diags <==>
      code == "E4202" && exists i, j :: 0 <= i < j < |params| && params[i].name == params[j].name
    decreases |params|
  {
    if params != [] {
      var last := |params| - 1;
      ParamsVerdict(params[..last], code);
      ParamsKnown(params[..last]);
      FindParam(params[..last], params[last].name);
      hide SeesVars;
      LastParam(params);
    }
  }

  lemma {:induction false} LastParam(params: seq<Param>)
    requires params != []
    ensures var front, last := params[..|params| - 1], params[|params| - 1];
      (exists i, j :: 0 <= i < j < |params| && params[i].name == params[j].name) <==>
        || (exists i, j :: 0 <= i < j < |front| && front[i].name == front[j].name)
        || !forall i :: 0 <= i < |front| ==> front[i].name != last.name
  {
    var front := params[..|params| - 1];
    assert forall i :: 0 <= i < |front| ==> front[i] == params[i];
  }

  lemma {:induction false} FnVerdict(fns: seq<FnDecl>, pkg: Package, f: FnDecl, code: string)
    requires SeesFns(fns, GlobalsOf(fns, pkg).sigs)
    ensures code in FnDiags(GlobalsOf(fns, pkg), f) <==> FnHas(fns, pkg, f, code)
  {
    hide Register, CheckBlock, BlockHas, DeclareParams, BlockReturns, AlwaysReturns, SeesVars, SeesFns;
    ParamsVerdict(f.params, code);
    ParamsKnown(f.params);
    assert Knows(BodyOf(fns, pkg, f), GlobalsOf(fns, pkg), EntryScope(f));
    BlockVerdict(BodyOf(fns, pkg, f), GlobalsOf(fns, pkg), EntryScope(f), f.body, code);
    ReturnsIff(f.body);
  }

  // ----- programs -----

  lemma {:induction false} FindFnIn(fns: seq<FnDecl>, x: string)
    ensures match FindFn(fns, x)
      case Some(f) => f in fns && f.name == x
      case None => forall f :: f in fns ==> f.name != x
    decreases fns
  {
    if fns != [] {
      FindFnIn(fns[1..], x);
      assert fns == [fns[0]] + fns[1..];
    }
  }

  lemma {:induction false} FindFnLast(front: seq<FnDecl>, f: FnDecl, x: string)
    ensures FindFn(front + [f], x) == if FindFn(front, x).Some? then FindFn(front, x) else if f.name == x then Some(f) else None
    decreases front
  {
    if front == [] {
      assert [f][1..] == [] && front + [f] == [f];
    } else {
      assert (front + [f])[1..] == front[1..] + [f];
      FindFnLast(front[1..], f, x);
    }
  }

  lemma {:induction false} FnsKnown(fns: seq<FnDecl>, capabilities: set<string>)
    ensures SeesFns(fns, Register(fns, capabilities).sigs)
    decreases |fns|
  {
    if fns != [] {
      var front, last := fns[..|fns| - 1], fns[|fns| - 1];
      FnsKnown(front, capabilities);
      hide SigOf;
      assert fns == front + [last];
      forall x
        ensures FindFn(fns, x) == if FindFn(front, x).Some? then FindFn(front, x) else if last.name == x then Some(last) else None
      {
        FindFnLast(front, last, x);
      }
    }
  }

  /** Two functions of one name. */
  ghost predicate Twice(fns: seq<FnDecl>) {
    exists i, j :: 0 <= i < j < |fns| && fns[i].name == fns[j].name
  }

  ghost predicate FirstUnsafe(fns: seq<FnDecl>) {
    exists f: FnDecl :: f in fns && FindFn(fns, f.name) == Some(f) && f.isUnsafe
  }

  lemma {:induction false} LastTwice(front: seq<FnDecl>, last: FnDecl)
    ensures Twice(front + [last]) <==> Twice(front) || exists f: FnDecl :: f in front && f.name == last.name
  {
    var fns := front + [last];
    assert forall i :: 0 <= i < |front| ==> fns[i] == front[i];
    if Twice(fns) {
      var i, j :| 0 <= i < j < |fns| && fns[i].name == fns[j].name;
      assert fns[i] in front;
      if j < |front| {
        assert front[i].name == front[j].name;
      }
    }
    if f: FnDecl :| f in front && f.name == last.name {
      var i :| 0 <= i < |front| && front[i] == f;
      assert fns[i].name == fns[|front|].name;
    }
    if Twice(front) {
      var i, j :| 0 <= i < j < |front| && front[i].name == front[j].name;
      assert fns[i].name == fns[j].name;
    }
  }

  lemma {:induction false} LastUnsafe(front: seq<FnDecl>, last: FnDecl)
    ensures FirstUnsafe(front + [last]) <==> FirstUnsafe(front) || (FindFn(front, last.name).None? && last.isUnsafe)
  {
    var fns := front + [last];
    forall x
      ensures FindFn(fns, x) == if FindFn(front, x).Some? then FindFn(front, x) else if last.name == x then Some(last) else None
      ensures FindFn(front, x).Some? ==> FindFn(front, x).value in front
    {
      FindFnLast(front, last, x);
      FindFnIn(front, x);
    }
    hide FindFn;
    assert last in fns;
    if FirstUnsafe(fns) {
      var f: FnDecl :| f in fns && FindFn(fns, f.name) == Some(f) && f.isUnsafe;
    }
    if FirstUnsafe(front) {
      var f: FnDecl :| f in front && FindFn(front, f.name) == Some(f) && f.isUnsafe;
      assert f in fns && FindFn(fns, f.name) == Some(f);
    }
    if FindFn(front, last.name).None? && last.isUnsafe {
      assert FindFn(fns, last.name) == Some(last);
    }
  }

  lemma {:induction false} LastFn(front: seq<FnDecl>, last: FnDecl)
    ensures Twice(front + [last]) <==> Twice(front) || FindFn(front, last.name).Some?
    ensures FirstUnsafe(front + [last]) <==> FirstUnsafe(front) || (FindFn(front, last.name).None? && last.isUnsafe)
  {
    hide Twice, FirstUnsafe, FindFn;
    LastTwice(front, last);
    LastUnsafe(front, last);
    FindFnIn(front, last.name);
  }

  lemma {:induction false} RegisterVerdict(fns: seq<FnDecl>, capabilities: set<string>, code: string)
    ensures code in Register(fns, capabilities).diags <==>
      (code == "E4202" && Twice(fns)) || (code == "E0801" && "unsafe" !in capabilities && FirstUnsafe(fns))
    decreases |fns|
  {
    if fns != [] {
      hide Twice, FirstUnsafe, SigOf;
      var front, last := fns[..|fns| - 1], fns[|fns| - 1];
      assert fns == front + [last];
      RegisterVerdict(front, capabilities, code);
      LastFn(front, last);
      FnsKnown(front, capabilities);
      hide FindFn;
    }
  }

  lemma {:induction false} MainVerdict(fns: seq<FnDecl>, pkg: Package, sigs: map<string, FnSig>, code: string)
    requires SeesFns(fns, sigs)
    ensures code in MainDiags(sigs, pkg) <==> code == "E0902" && pkg.executable && !HasMain(fns)
  {
    hide FindFn;
  }

  lemma {:induction false} EachFnVerdict(fns: seq<FnDecl>, pkg: Package, part: seq<FnDecl>, code: string)
    requires SeesFns(fns, GlobalsOf(fns, pkg).sigs)
    ensures code in AllFnDiags(GlobalsOf(fns, pkg), part) <==> exists f: FnDecl :: f in part && FnHas(fns, pkg, f, code)
    decreases part
  {
    hide SeesFns, GlobalsOf, FnDiags, FnHas;
    if part != [] {
      FnVerdict(fns, pkg, part[0], code);
      EachFnVerdict(fns, pkg, part[1..], code);
      assert part == [part[0]] + part[1..];
    }
  }

  /** A code is among the diagnostics of a program exactly when something in the program is wrong in that way. */
  lemma {:induction false} Verdict(fns: seq<FnDecl>, pkg: Package, code: string)
    ensures code in ProgramDiags(fns, pkg) <==> ProgramHas(fns, pkg, code)
  {
    FnsKnown(fns, pkg.capabilities);
    hide Register, SeesFns, AllFnDiags, MainDiags, FnHas, FindFn;
    RegisterVerdict(fns, pkg.capabilities, code);
    MainVerdict(fns, pkg, GlobalsOf(fns, pkg).sigs, code);
    EachFnVerdict(fns, pkg, fns, code);
  }

  /** And a program is accepted exactly when nothing in it is wrong in any way. */
  lemma {:induction false} AcceptsIff(fns: seq<FnDecl>, pkg: Package)
    ensures Accepts(fns, pkg) <==> forall code :: !ProgramHas(fns, pkg, code)
  {
    hide ProgramDiags, ProgramHas;
    forall code
      ensures code in ProgramDiags(fns, pkg) <==> ProgramHas(fns, pkg, code)
    {
      Verdict(fns, pkg, code);
    }
    if !Accepts(fns, pkg) {
      assert ProgramDiags(fns, pkg)[0] in ProgramDiags(fns, pkg);
    }
  }

  // ----- statements of an accepted program -----

  /** A statement inside a block, and the place it is at. */
  ghost predicate Occurs(pl: Place, b: Block, at: Place, s: Stmt)
    decreases b, 1
  {
    exists i :: 0 <= i < |b| && StmtOccurs(pl.After(BlockDecls(b[..i])), b[i], at, s)
  }

  ghost predicate StmtOccurs(pl: Place, t: Stmt, at: Place, s: Stmt)
    decreases t, 0
  {
    || (t == s && pl == at)
    || match t
       case If(_, b, NoElse) => Occurs(pl, b, at, s)
       case If(_, b, Else(c)) => Occurs(pl, b, at, s) || Occurs(pl.After(BlockDecls(b)), c, at, s)
       case Loop(b) => Occurs(pl.Looping(), b, at, s)
       case While(_, b) => Occurs(pl.Looping(), b, at, s)
       case UnsafeBlock(b) => Occurs(pl.Unsafely(), b, at, s)
       case _ => false
  }

  lemma {:induction false} OccursHas(pl: Place, b: Block, at: Place, s: Stmt, code: string)
    requires Occurs(pl, b, at, s) && StmtHas(at, s, code)
    ensures BlockHas(pl, b, code)
    decreases b, 1
  {
    hide StmtHas;
    var i :| 0 <= i < |b| && StmtOccurs(pl.After(BlockDecls(b[..i])), b[i], at, s);
    StmtOccursHas(pl.After(BlockDecls(b[..i])), b[i], at, s, code);
  }

  lemma {:induction false} StmtOccursHas(pl: Place, t: Stmt, at: Place, s: Stmt, code: string)
    requires StmtOccurs(pl, t, at, s) && StmtHas(at, s, code)
    ensures StmtHas(pl, t, code)
    decreases t, 0
  {
    hide BlockHas, Occurs, CondHas, BlockDecls;
    if !(t == s && pl == at) {
      match t
      case If(_, b, NoElse) => OccursHas(pl, b, at, s, code);
      case If(_, b, Else(c)) =>
        if Occurs(pl, b, at, s) {
          OccursHas(pl, b, at, s, code);
        } else {
          OccursHas(pl.After(BlockDecls(b)), c, at, s, code);
        }
      case Loop(b) => OccursHas(pl.Looping(), b, at, s, code);
      case While(_, b) => OccursHas(pl.Looping(), b, at, s, code);
      case UnsafeBlock(b) => OccursHas(pl.Unsafely(), b, at, s, code);
    }
  }

  /** In an accepted program, what is assigned was declared before in the text of its function, by a `mut` and not by a
      `let` or as a parameter, and with the type of what it is given. */
  lemma {:induction false} AssignedIsMut(fns: seq<FnDecl>, pkg: Package, f: FnDecl, at: Place, name: string, e: Expr) returns (d: Decl)
    requires Accepts(fns, pkg) && f in fns && Occurs(BodyOf(fns, pkg, f), f.body, at, Assign(name, e))
    ensures FindDecl(at.decls, name) == Some(d) && d.mutable
    ensures forall code :: !ValueHas(at, e, d.ty, code)
  {
    AcceptsIff(fns, pkg);
    hide Occurs, BlockHas, ValueHas, Accepts;
    forall code
      ensures !StmtHas(at, Assign(name, e), code)
    {
      assert !ProgramHas(fns, pkg, code);
      assert !FnHas(fns, pkg, f, code);
      if StmtHas(at, Assign(name, e), code) {
        OccursHas(BodyOf(fns, pkg, f), f.body, at, Assign(name, e), code);
      }
    }
    assert !StmtHas(at, Assign(name, e), "E0401") && !StmtHas(at, Assign(name, e), "E4201");
    d := FindDecl(at.decls, name).value;
    forall code
      ensures !ValueHas(at, e, d.ty, code)
    {
      assert !StmtHas(at, Assign(name, e), code);
    }
  }

  // ----- the order of the reports -----

  /** Blocks one after the other: first what is wrong with the one, then with the other, which sees its declarations. */
  lemma {:induction false} BlocksInOrder(g: Globals, sc: Scope, a: Block, b: Block)
    ensures var first := CheckBlock(g, sc, a);
      var second := CheckBlock(g, sc.(vars := first.vars), b);
      CheckBlock(g, sc, a + b) == Checked(second.vars, first.diags + second.diags)
    decreases a
  {
    hide CheckStmt;
    if a == [] {
      assert a + b == b;
      assert sc.(vars := sc.vars) == sc;
    } else {
      assert (a + b)[1..] == a[1..] + b;
      BlocksInOrder(g, sc.(vars := CheckStmt(g, sc, a[0]).vars), a[1..], b);
    }
  }

  lemma {:induction false} FnsInOrder(g: Globals, a: seq<FnDecl>, b: seq<FnDecl>)
    ensures AllFnDiags(g, a + b) == AllFnDiags(g, a) + AllFnDiags(g, b)
    decreases a
  {
    hide FnDiags;
    if a == [] {
      assert a + b == b;
    } else {
      assert (a + b)[1..] == a[1..] + b;
      FnsInOrder(g, a[1..], b);
    }
  }

  /** From left to right: both operands before their operator, a condition before what it guards, one branch before the
      other. What comes last is the construct's own. */
  lemma {:induction false} PartsInOrder(g: Globals, sc: Scope, op: BinaryOp, l: Expr, r: Expr, c: Expr, t: Block, e: Block)
    ensures TypeOf(g, sc, l).diags + TypeOf(g, sc, r).diags <= TypeOf(g, sc, Binary(op, l, r)).diags
    ensures var first := CheckBlock(g, sc, t);
      && TypeOf(g, sc, c).diags <= CondDiags(g, sc, c)
      && CheckStmt(g, sc, If(c, t, NoElse)).diags == CondDiags(g, sc, c) + first.diags
      && CheckStmt(g, sc, If(c, t, Else(e))).diags == CondDiags(g, sc, c) + first.diags + CheckBlock(g, sc.(vars := first.vars), e).diags
    ensures CheckStmt(g, sc, While(c, t)).diags == CondDiags(g, sc, c) + CheckBlock(g, sc.(loops := sc.loops + 1), t).diags
  {
    hide CheckBlock, BinaryType, CondDiags;
    CondStarts(g, sc, c);
  }

  lemma {:induction false} CondStarts(g: Globals, sc: Scope, c: Expr)
    ensures TypeOf(g, sc, c).diags <= CondDiags(g, sc, c)
  {}
}
