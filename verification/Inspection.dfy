/** The parts of expressions, which of them the checker looks at, and how system calls and calls get into the
    emitted code. */
module Inspection {
  import opened Ast
  import opened Machine
  import opened Semantics
  import opened Emission
  import opened Resolution
  import opened Checking
  import opened Acceptance
  import opened Soundness

  // ----- the parts of an expression -----

  function Parts(e: Expr): set<Expr> {
    match e
    case Unary(_, x) => {e} + Parts(x)
    case Binary(_, l, r) => {e} + Parts(l) + Parts(r)
    case Call(_, args) => {e} + ArgParts(args)
    case _ => {e}
  }

  function ArgParts(args: seq<Expr>): set<Expr> {
    if args == [] then {} else Parts(args[0]) + ArgParts(args[1..])
  }

  predicate IsWrite(e: Expr) {
    e.Call? && e.callee.Display() == "io.write"
  }

  /** The parts the checker looks at: not the arguments of mem.alloc. */
  function Visited(e: Expr): set<Expr> {
    match e
    case Unary(_, x) => {e} + Visited(x)
    case Binary(_, l, r) => {e} + Visited(l) + Visited(r)
    case Call(_, args) => if IsAlloc(e) then {e} else {e} + ArgsVisited(args)
    case _ => {e}
  }

  function ArgsVisited(args: seq<Expr>): set<Expr> {
    if args == [] then {} else Visited(args[0]) + ArgsVisited(args[1..])
  }

  /** The parts it does not look at. */
  function Hidden(e: Expr): set<Expr> {
    match e
    case Unary(_, x) => Hidden(x)
    case Binary(_, l, r) => Hidden(l) + Hidden(r)
    case Call(_, args) => if IsAlloc(e) then ArgParts(args) else ArgsHidden(args)
    case _ => {}
  }

  function ArgsHidden(args: seq<Expr>): set<Expr> {
    if args == [] then {} else Hidden(args[0]) + ArgsHidden(args[1..])
  }

  lemma {:induction false} SeenOrHidden(e: Expr)
    ensures Parts(e) == Visited(e) + Hidden(e)
    ensures Hidden(e) != {} ==> exists x :: x in Visited(e) && IsAlloc(x)
    decreases e
  {
    match e
    case Unary(_, x) => SeenOrHidden(x);
    case Binary(_, l, r) =>
      SeenOrHidden(l);
      SeenOrHidden(r);
    case Call(_, args) =>
      if !IsAlloc(e) {
        ArgsSeenOrHidden(args);
      }
    case _ =>
  }

  lemma {:induction false} ArgsSeenOrHidden(args: seq<Expr>)
    ensures ArgParts(args) == ArgsVisited(args) + ArgsHidden(args)
    ensures ArgsHidden(args) != {} ==> exists x :: x in ArgsVisited(args) && IsAlloc(x)
    decreases args
  {
    if args != [] {
      SeenOrHidden(args[0]);
      ArgsSeenOrHidden(args[1..]);
    }
  }

  /** Each part the checker looks at passes on its own, in the same scope. */
  lemma {:induction false} VisitedPass(g: Globals, sc: Scope, e: Expr, x: Expr)
    requires TypeOf(g, sc, e).diags == [] && x in Visited(e)
    ensures TypeOf(g, sc, x).diags == []
    decreases e, 1
  {
    hide TypeOf;
    if x != e {
      match e
      case Unary(op, y) =>
        UnaryPasses(g, sc, op, y);
        VisitedPass(g, sc, y, x);
      case Binary(op, l, r) =>
        BinaryPasses(g, sc, op, l, r);
        VisitedPass(g, sc, if x in Visited(l) then l else r, x);
      case Call(_, args) => ArgVisitedPass(g, sc, e, args, x);
    }
  }

  lemma {:induction false} UnaryPasses(g: Globals, sc: Scope, op: UnaryOp, x: Expr)
    requires TypeOf(g, sc, Unary(op, x)).diags == []
    ensures TypeOf(g, sc, x).diags == []
  {}

  lemma {:induction false} BinaryPasses(g: Globals, sc: Scope, op: BinaryOp, l: Expr, r: Expr)
    requires TypeOf(g, sc, Binary(op, l, r)).diags == []
    ensures TypeOf(g, sc, l).diags == [] && TypeOf(g, sc, r).diags == []
  {
    NoneJoined(TypeOf(g, sc, l).diags + TypeOf(g, sc, r).diags, BinaryType(op, TypeOf(g, sc, l).ty, TypeOf(g, sc, r).ty).diags);
  }

  lemma {:induction false} ArgVisitedPass(g: Globals, sc: Scope, e: Expr, args: seq<Expr>, x: Expr)
    requires e.Call? && e.args == args && !IsAlloc(e) && TypeOf(g, sc, e).diags == [] && x in ArgsVisited(args)
    ensures TypeOf(g, sc, x).diags == []
    decreases e, 0
  {
    hide TypeOf, Visited;
    ArgsPass(g, sc, e);
    var i := ArgOf(args, x);
    VisitedPass(g, sc, args[i], x);
  }

  lemma {:induction false} ArgOf(args: seq<Expr>, x: Expr) returns (i: nat)
    requires x in ArgsVisited(args)
    ensures i < |args| && x in Visited(args[i])
    decreases args
  {
    if x in Visited(args[0]) {
      i := 0;
    } else {
      i := ArgOf(args[1..], x);
      i := i + 1;
    }
  }

  lemma {:induction false} ArgsPass(g: Globals, sc: Scope, e: Expr)
    requires e.Call? && !IsAlloc(e) && TypeOf(g, sc, e).diags == []
    ensures AllTyped(g, sc, e.args)
  {
    hide ArgDiags;
    var name := e.callee.Display();
    if name == "io.write" || name == "core/io.write" {
      WriteArgsPass(g, sc, e);
    } else {
      var sig := g.sigs[e.callee.segments[0]];
      NoneJoined(ErrorIf(sig.isUnsafe && sc.unsafes == 0, "E0701"),
                 if |sig.params| != |e.args| then ["E0404"] else ArgDiags(g, sc, e.args, sig.params));
      ArgsTyped(g, sc, e.args, sig.params);
    }
  }

  lemma {:induction false} WriteArgsPass(g: Globals, sc: Scope, e: Expr)
    requires e.Call? && (e.callee.Display() == "io.write" || e.callee.Display() == "core/io.write") && TypeOf(g, sc, e).diags == []
    ensures "syscall" in g.capabilities && AllTyped(g, sc, e.args)
  {
    if |e.args| == 3 {
      var lacks := ErrorIf("syscall" !in g.capabilities, "E2001");
      var fd, msg, len := TypeOf(g, sc, e.args[0]), TypeOf(g, sc, e.args[1]), TypeOf(g, sc, e.args[2]);
      var bad := ErrorIf(!IsNumeric(fd.ty) || !IsNumeric(len.ty) || !IsStr(msg.ty), "E0402");
      NoneJoined(lacks + fd.diags + msg.diags + len.diags, bad);
      NoneJoined(lacks + fd.diags + msg.diags, len.diags);
      NoneJoined(lacks + fd.diags, msg.diags);
      NoneJoined(lacks, fd.diags);
    }
  }

  // ----- the expressions of a block, each with how many unsafe scopes enclose it -----

  function BlockExprs(b: Block, unsafes: nat): set<(Expr, nat)> {
    if b == [] then {} else StmtExprs(b[0], unsafes) + BlockExprs(b[1..], unsafes)
  }

  function StmtExprs(s: Stmt, unsafes: nat): set<(Expr, nat)> {
    match s
    case Let(_, _, e) => {(e, unsafes)}
    case Mut(_, _, e) => {(e, unsafes)}
    case Assign(_, e) => {(e, unsafes)}
    case Ret(Some(e)) => {(e, unsafes)}
    case If(c, t, arm) => {(c, unsafes)} + BlockExprs(t, unsafes) + ArmExprs(arm, unsafes)
    case Loop(b) => BlockExprs(b, unsafes)
    case While(c, b) => {(c, unsafes)} + BlockExprs(b, unsafes)
    case UnsafeBlock(b) => BlockExprs(b, unsafes + 1)
    case ExprStmt(e) => {(e, unsafes)}
    case _ => {}
  }

  function ArmExprs(arm: ElseArm, unsafes: nat): set<(Expr, nat)> {
    match arm case NoElse => {} case Else(b) => BlockExprs(b, unsafes)
  }

  /** Checked with that many unsafe scopes open and no variables but the given ones. */
  ghost predicate Passes(g: Globals, limit: set<string>, top: (Expr, nat)) {
    exists sc: Scope :: sc.unsafes == top.1 && sc.vars.Keys <= limit && TypeOf(g, sc, top.0).diags == []
  }

  lemma {:induction false} BlockExprsPass(g: Globals, sc: Scope, b: Block, limit: set<string>)
    requires CheckBlock(g, sc, b).diags == [] && CheckBlock(g, sc, b).vars.Keys <= limit
    ensures forall top :: top in BlockExprs(b, sc.unsafes) ==> Passes(g, limit, top)
    decreases b, 2
  {
    if b != [] {
      var first := CheckStmt(g, sc, b[0]);
      NoneJoined(first.diags, CheckBlock(g, sc.(vars := first.vars), b[1..]).diags);
      BlockGrows(g, sc.(vars := first.vars), b[1..]);
      hide CheckStmt, CheckBlock, Passes;
      StmtExprsPass(g, sc, b[0], limit);
      BlockExprsPass(g, sc.(vars := first.vars), b[1..], limit);
    }
  }

  lemma {:induction false} PassesIn(g: Globals, sc: Scope, e: Expr, limit: set<string>)
    requires TypeOf(g, sc, e).diags == [] && sc.vars.Keys <= limit
    ensures Passes(g, limit, (e, sc.unsafes))
  {}

  lemma {:induction false} StmtExprsPass(g: Globals, sc: Scope, s: Stmt, limit: set<string>)
    requires CheckStmt(g, sc, s).diags == [] && CheckStmt(g, sc, s).vars.Keys <= limit
    ensures forall top :: top in StmtExprs(s, sc.unsafes) ==> Passes(g, limit, top)
    decreases s, 1
  {
    StmtGrows(g, sc, s);
    hide CheckBlock, TypeOf, Passes, RequireType, BlockExprs;
    match s
    case Let(_, ty, e) =>
      NoneJoined(TypeOf(g, sc, e).diags, RequireType(ty, TypeOf(g, sc, e).ty));
      PassesIn(g, sc, e, limit);
    case Mut(_, ty, e) =>
      NoneJoined(TypeOf(g, sc, e).diags, RequireType(ty, TypeOf(g, sc, e).ty));
      PassesIn(g, sc, e, limit);
    case Assign(x, e) =>
      var t := TypeOf(g, sc, e);
      NoneJoined(ErrorIf(!sc.vars[x].mutable, "E4201") + t.diags, RequireType(sc.vars[x].ty, t.ty));
      NoneJoined(ErrorIf(!sc.vars[x].mutable, "E4201"), t.diags);
      PassesIn(g, sc, e, limit);
    case Ret(Some(e)) =>
      NoneJoined(TypeOf(g, sc, e).diags, RequireType(sc.ret, TypeOf(g, sc, e).ty));
      PassesIn(g, sc, e, limit);
    case If(_, _, _) => IfExprsPass(g, sc, s, limit);
    case Loop(b) => BlockExprsPass(g, sc.(loops := sc.loops + 1), b, limit);
    case While(c, b) =>
      NoneJoined(CondDiags(g, sc, c), CheckBlock(g, sc.(loops := sc.loops + 1), b).diags);
      CondPasses(g, sc, c, limit);
      BlockExprsPass(g, sc.(loops := sc.loops + 1), b, limit);
    case UnsafeBlock(b) =>
      var inner := sc.(unsafes := sc.unsafes + 1);
      NoneJoined(ErrorIf("unsafe" !in g.capabilities, "E0801"), CheckBlock(g, inner, b).diags);
      BlockExprsPass(g, inner, b, limit);
    case ExprStmt(e) => PassesIn(g, sc, e, limit);
    case _ =>
  }

  lemma {:induction false} CondPasses(g: Globals, sc: Scope, c: Expr, limit: set<string>)
    requires CondDiags(g, sc, c) == [] && sc.vars.Keys <= limit
    ensures Passes(g, limit, (c, sc.unsafes))
  {
    NoneJoined(TypeOf(g, sc, c).diags, ErrorIf(!IsBool(TypeOf(g, sc, c).ty), "E4301"));
    PassesIn(g, sc, c, limit);
  }

  lemma {:induction false} IfExprsPass(g: Globals, sc: Scope, s: Stmt, limit: set<string>)
    requires s.If?
    requires CheckStmt(g, sc, s).diags == [] && CheckStmt(g, sc, s).vars.Keys <= limit
    ensures forall top :: top in StmtExprs(s, sc.unsafes) ==> Passes(g, limit, top)
    decreases s, 0
  {
    StmtGrows(g, sc, s);
    hide CheckBlock, TypeOf, Passes, BlockExprs;
    var t := CheckBlock(g, sc, s.thenBlock);
    NoneJoined(CondDiags(g, sc, s.cond) + t.diags, CheckArm(g, sc.(vars := t.vars), s.elseArm).diags);
    NoneJoined(CondDiags(g, sc, s.cond), t.diags);
    CondPasses(g, sc, s.cond, limit);
    if s.elseArm.Else? {
      BlockGrows(g, sc.(vars := t.vars), s.elseArm.block);
      BlockExprsPass(g, sc.(vars := t.vars), s.elseArm.block, limit);
    }
    BlockExprsPass(g, sc, s.thenBlock, limit);
  }

  // ----- what leaves the function -----

  /** What an expression emits itself, its parts aside. */
  predicate Issues(fns: set<string>, locals: set<string>, x: Expr, i: Instr) {
    match x
    case Ident(n) => n !in locals && n in fns && i == CallTo(FnLabel(n))
    case Call(c, _) => i == if c.Display() == "io.write" then Syscall else CallTo(FnLabel(c.Display()))
    case _ => false
  }

  predicate Leaves(i: Instr) {
    i.Syscall? || i.CallTo?
  }

  /** One of those does. */
  ghost predicate Issued(fns: set<string>, locals: set<string>, parts: set<Expr>, i: Instr) {
    exists x :: x in parts && Issues(fns, locals, x, i)
  }

  lemma {:induction false} IssuedEither(fns: set<string>, locals: set<string>, a: set<Expr>, b: set<Expr>, i: Instr)
    ensures Issued(fns, locals, a + b, i) <==> Issued(fns, locals, a, i) || Issued(fns, locals, b, i)
  {
    hide Issues;
  }

  lemma {:induction false} IssuedOne(fns: set<string>, locals: set<string>, x: Expr, i: Instr)
    ensures Issued(fns, locals, {x}, i) <==> Issues(fns, locals, x, i)
    ensures !Issued(fns, locals, {}, i)
  {
    hide Issues;
    assert x in {x};
  }

  ghost predicate Emits(fns: set<string>, locals: set<string>, e: Expr, i: Instr) {
    Issued(fns, locals, Parts(e), i)
  }

  /** A system call or a call is in the code of an expression exactly when one of its parts issues it. */
  lemma {:induction false} ExprEmits(fns: set<string>, locals: map<string, nat>, e: Expr, sn: nat, i: Instr)
    requires Leaves(i)
    ensures i in ExprCode(fns, locals, e, sn) <==> Emits(fns, locals.Keys, e, i)
    decreases e, 1
  {
    hide Issued, Issues, ExprCode, ArgsCode, Strings, ArgParts, Leaves;
    IssuedOne(fns, locals.Keys, e, i);
    match e
    case Unary(op, x) =>
      ExprEmits(fns, locals, x, sn, i);
      IssuedEither(fns, locals.Keys, {e}, Parts(x), i);
      UnaryEmits(fns, locals, op, x, sn, i);
    case Binary(op, l, r) =>
      ExprEmits(fns, locals, l, sn, i);
      ExprEmits(fns, locals, r, sn + |Strings(l)|, i);
      IssuedEither(fns, locals.Keys, {e}, Parts(l), i);
      IssuedEither(fns, locals.Keys, {e} + Parts(l), Parts(r), i);
      BinaryEmits(fns, locals, op, l, r, sn, i);
    case Call(_, args) =>
      ArgsEmit(fns, locals, args, sn, i);
      IssuedEither(fns, locals.Keys, {e}, ArgParts(args), i);
      CallEmits(fns, locals, e, sn, i);
    case _ => LeafEmits(fns, locals, e, sn, i);
  }

  lemma {:induction false} LeafEmits(fns: set<string>, locals: map<string, nat>, e: Expr, sn: nat, i: Instr)
    requires Leaves(i) && !e.Unary? && !e.Binary? && !e.Call?
    ensures i in ExprCode(fns, locals, e, sn) <==> Issues(fns, locals.Keys, e, i)
  {}

  lemma {:induction false} UnaryEmits(fns: set<string>, locals: map<string, nat>, op: UnaryOp, x: Expr, sn: nat, i: Instr)
    requires Leaves(i)
    ensures i in ExprCode(fns, locals, Unary(op, x), sn) <==> i in ExprCode(fns, locals, x, sn)
    ensures !Issues(fns, locals.Keys, Unary(op, x), i)
  {
    hide UnaryCode;
    OperatorsStay(op, Add, i);
  }

  lemma {:induction false} BinaryEmits(fns: set<string>, locals: map<string, nat>, op: BinaryOp, l: Expr, r: Expr, sn: nat, i: Instr)
    requires Leaves(i)
    ensures i in ExprCode(fns, locals, Binary(op, l, r), sn) <==>
      i in ExprCode(fns, locals, l, sn) || i in ExprCode(fns, locals, r, sn + |Strings(l)|)
    ensures !Issues(fns, locals.Keys, Binary(op, l, r), i)
  {
    hide ExprCode, BinaryCode, Strings, Leaves;
    OperatorsStay(Neg, op, i);
    BinaryUnfolds(fns, locals, op, l, r, sn);
    InPieces(ExprCode(fns, locals, l, sn), ExprCode(fns, locals, r, sn + |Strings(l)|), BinaryCode(op), i);
  }

  lemma {:induction false} BinaryUnfolds(fns: set<string>, locals: map<string, nat>, op: BinaryOp, l: Expr, r: Expr, sn: nat)
    ensures ExprCode(fns, locals, Binary(op, l, r), sn)
         == ExprCode(fns, locals, l, sn) + [Push(RAX)]
            + (ExprCode(fns, locals, r, sn + |Strings(l)|) + [MovReg(RBX, RAX), Pop(RAX)] + BinaryCode(op))
  {
    hide Strings;
  }

  lemma {:induction false} InPieces(a: seq<Instr>, b: seq<Instr>, c: seq<Instr>, i: Instr)
    requires Leaves(i) && i !in c
    ensures i in a + [Push(RAX)] + (b + [MovReg(RBX, RAX), Pop(RAX)] + c) <==> i in a || i in b
  {}

  lemma {:induction false} OperatorsStay(uop: UnaryOp, op: BinaryOp, i: Instr)
    requires Leaves(i)
    ensures i !in UnaryCode(uop) && i !in BinaryCode(op)
  {}

  lemma {:induction false} CallEmits(fns: set<string>, locals: map<string, nat>, e: Expr, sn: nat, i: Instr)
    requires e.Call? && Leaves(i)
    ensures i in ExprCode(fns, locals, e, sn) <==> i in ArgsCode(fns, locals, e.args, sn) || Issues(fns, locals.Keys, e, i)
  {
    hide ArgsCode, PopArgs;
    PopsStay(|e.args|, i);
    if IsWrite(e) {
      assert WriteCode()[4] == Syscall;
    } else {
      CallLast(fns, locals, e, sn);
    }
  }

  lemma {:induction false} CallLast(fns: set<string>, locals: map<string, nat>, e: Expr, sn: nat)
    requires e.Call? && !IsWrite(e)
    ensures forall i :: i in ExprCode(fns, locals, e, sn) <==>
      i in ArgsCode(fns, locals, e.args, sn) || i in PopArgs(|e.args|) || i == CallTo(FnLabel(e.callee.Display()))
  {
    hide ArgsCode, PopArgs;
  }

  lemma {:induction false} ArgsEmit(fns: set<string>, locals: map<string, nat>, args: seq<Expr>, sn: nat, i: Instr)
    requires Leaves(i)
    ensures i in ArgsCode(fns, locals, args, sn) <==> Issued(fns, locals.Keys, ArgParts(args), i)
    decreases args
  {
    hide Issued, ExprCode, Parts, Strings;
    if args == [] {
      IssuedOne(fns, locals.Keys, ErrorExpr, i);
    } else {
      ExprEmits(fns, locals, args[0], sn, i);
      ArgsEmit(fns, locals, args[1..], sn + |Strings(args[0])|, i);
      IssuedEither(fns, locals.Keys, Parts(args[0]), ArgParts(args[1..]), i);
    }
  }

  lemma {:induction false} PopsStay(n: nat, i: Instr)
    requires Leaves(i)
    ensures i !in PopArgs(n)
  {
    if n > 0 {
      PopsStay(n - 1, i);
    }
  }

  ghost predicate SomeEmits(fns: set<string>, locals: set<string>, tops: set<(Expr, nat)>, i: Instr) {
    exists top :: top in tops && Emits(fns, locals, top.0, i)
  }

  lemma {:induction false} EitherEmits(fns: set<string>, locals: set<string>, a: set<(Expr, nat)>, b: set<(Expr, nat)>, i: Instr)
    ensures SomeEmits(fns, locals, a + b, i) <==> SomeEmits(fns, locals, a, i) || SomeEmits(fns, locals, b, i)
  {
    hide Emits;
  }

  lemma {:induction false} NoneEmits(fns: set<string>, locals: set<string>, i: Instr)
    ensures !SomeEmits(fns, locals, {}, i)
  {}

  lemma {:induction false} BlockEmits(fns: set<string>, env: Env, b: Block, ln: nat, sn: nat, u: nat, i: Instr)
    requires Leaves(i)
    ensures i in BlockCode(fns, env, b, ln, sn) <==> SomeEmits(fns, env.locals.Keys, BlockExprs(b, u), i)
    decreases b, 2
  {
    hide SomeEmits, StmtCode;
    if b == [] {
      NoneEmits(fns, env.locals.Keys, i);
    } else {
      StmtEmits(fns, env, b[0], ln, sn, u, i);
      BlockEmits(fns, env, b[1..], ln + StmtLabels(b[0]), sn + |StmtStrings(b[0])|, u, i);
      EitherEmits(fns, env.locals.Keys, StmtExprs(b[0], u), BlockExprs(b[1..], u), i);
    }
  }

  lemma {:induction false} StmtEmits(fns: set<string>, env: Env, s: Stmt, ln: nat, sn: nat, u: nat, i: Instr)
    requires Leaves(i)
    ensures i in StmtCode(fns, env, s, ln, sn) <==> SomeEmits(fns, env.locals.Keys, StmtExprs(s, u), i)
    decreases s, 1
  {
    NoneEmits(fns, env.locals.Keys, i);
    hide SomeEmits, ExprCode, BlockCode, BlockExprs;
    match s
    case Let(_, _, e) => TopEmits(fns, env.locals, e, sn, u, i);
    case Mut(_, _, e) => TopEmits(fns, env.locals, e, sn, u, i);
    case Assign(_, e) => TopEmits(fns, env.locals, e, sn, u, i);
    case Ret(Some(e)) => TopEmits(fns, env.locals, e, sn, u, i);
    case If(_, _, _) => IfEmits(fns, env, s, ln, sn, u, i);
    case Loop(b) =>
      var start, end := Local("loop_start", ln), Local("loop_end", ln + 1);
      BlockEmits(fns, Inside(env, start, end), b, ln + 2, sn, u, i);
    case While(c, b) =>
      var start, end := Local("while_start", ln), Local("while_end", ln + 1);
      TopEmits(fns, env.locals, c, sn, u, i);
      BlockEmits(fns, Inside(env, start, end), b, ln + 2, sn + |Strings(c)|, u, i);
      EitherEmits(fns, env.locals.Keys, {(c, u)}, BlockExprs(b, u), i);
    case UnsafeBlock(b) => BlockEmits(fns, env, b, ln, sn, u + 1, i);
    case ExprStmt(e) => TopEmits(fns, env.locals, e, sn, u, i);
    case _ =>
  }

  lemma {:induction false} TopEmits(fns: set<string>, locals: map<string, nat>, e: Expr, sn: nat, u: nat, i: Instr)
    requires Leaves(i)
    ensures i in ExprCode(fns, locals, e, sn) <==> SomeEmits(fns, locals.Keys, {(e, u)}, i)
  {
    ExprEmits(fns, locals, e, sn, i);
    hide Emits;
    assert (e, u) in {(e, u)};
  }

  lemma {:induction false} IfEmits(fns: set<string>, env: Env, s: Stmt, ln: nat, sn: nat, u: nat, i: Instr)
    requires s.If? && Leaves(i)
    ensures i in StmtCode(fns, env, s, ln, sn) <==> SomeEmits(fns, env.locals.Keys, StmtExprs(s, u), i)
    decreases s, 0
  {
    NoneEmits(fns, env.locals.Keys, i);
    hide SomeEmits, ExprCode, BlockCode, BlockExprs;
    var sn' := sn + |Strings(s.cond)|;
    TopEmits(fns, env.locals, s.cond, sn, u, i);
    BlockEmits(fns, env, s.thenBlock, ln + 2, sn', u, i);
    EitherEmits(fns, env.locals.Keys, {(s.cond, u)}, BlockExprs(s.thenBlock, u), i);
    EitherEmits(fns, env.locals.Keys, {(s.cond, u)} + BlockExprs(s.thenBlock, u), ArmExprs(s.elseArm, u), i);
    if s.elseArm.Else? {
      BlockEmits(fns, env, s.elseArm.block, ln + 2 + BlockLabels(s.thenBlock), sn' + |BlockStrings(s.thenBlock)|, u, i);
    }
  }

  /** A system call or a call is in the code of a function exactly when a part of one of its expressions issues it. */
  lemma {:induction false} FnEmits(names: set<string>, f: FnDecl, ln: nat, sn: nat, u: nat, i: Instr)
    requires Leaves(i)
    ensures i in FnCode(names, f, ln, sn) <==> SomeEmits(names, FnSlots(f).Keys, BlockExprs(f.body, u), i)
  {
    hide SomeEmits, BlockCode, BlockExprs, FnSlots;
    BlockEmits(names, FnEnv(f, ln), f.body, ln + 1, sn, u, i);
    StoresStay(f.params, FnSlots(f), 0, i);
    assert i !in Epilogue(f.ret, FnEnd(ln));
  }

  lemma {:induction false} StoresStay(params: seq<Param>, locals: map<string, nat>, k: nat, i: Instr)
    requires k <= |params| && Leaves(i)
    ensures i !in StoreParams(params, locals, k)
    decreases |params| - k
  {
    if k < |params| {
      StoresStay(params, locals, k + 1, i);
    }
  }

  lemma {:induction false} FnsEmit(names: set<string>, fns: seq<FnDecl>, ln: nat, sn: nat, i: Instr)
    requires Leaves(i)
    ensures i in FnsCode(names, fns, ln, sn) <==> exists f :: f in fns && SomeEmits(names, FnSlots(f).Keys, BlockExprs(f.body, UnsafeDepth(f)), i)
    decreases fns
  {
    hide FnCode, SomeEmits, FnSlots, BlockExprs;
    if fns != [] {
      FnEmits(names, fns[0], ln, sn, UnsafeDepth(fns[0]), i);
      FnsEmit(names, fns[1..], ln + 1 + BlockLabels(fns[0].body), sn + |BlockStrings(fns[0].body)|, i);
      assert fns == [fns[0]] + fns[1..];
    }
  }

  function UnsafeDepth(f: FnDecl): nat {
    if f.isUnsafe then 1 else 0
  }

  /** The top expressions of an accepted function pass, with no variables but those that have slots. */
  lemma {:induction false} FnExprsPass(fns: seq<FnDecl>, pkg: Package, f: FnDecl)
    requires Accepts(fns, pkg) && f in fns
    ensures forall top :: top in BlockExprs(f.body, UnsafeDepth(f)) ==> Passes(GlobalsOf(fns, pkg), FnSlots(f).Keys, top)
  {
    var g := GlobalsOf(fns, pkg);
    Accepted(fns, pkg);
    FnAccepted(g, f);
    hide Passes, FnSlots, CheckBlock, BlockExprs, GlobalsOf, Accepts;
    var params, body := DeclareParams(f.params).diags, CheckBlock(g, EntryScope(f), f.body).diags;
    NoneJoined(params + body, ErrorIf(f.ret != "void" && !BlockReturns(f.body), "E4101"));
    NoneJoined(params, body);
    BlockExprsPass(g, EntryScope(f), f.body, FnSlots(f).Keys);
  }
}
