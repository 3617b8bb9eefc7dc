/** When no run reads a local before its declaration has executed: a condition on the text alone. Names declared or
    assigned in a block count after it only where every way through has given them a value. */
module Initialisation {
  import opened Ast
  import opened Words
  import opened Semantics
  import opened Resolution
  import opened Residues
  import opened Linking

  /** The names that have values once a statement has run on. */
  function StmtGives(s: Stmt): set<string>
    decreases s
  {
    match s
    case Let(x, _, _) => {x}
    case Mut(x, _, _) => {x}
    case Assign(x, _) => {x}
    case UnsafeBlock(b) => BlockGives(b)
    case If(_, t, Else(b)) => BlockGives(t) * BlockGives(b)
    case _ => {}
  }

  function BlockGives(b: Block): set<string>
    decreases b
  {
    if b == [] then {} else StmtGives(b[0]) + BlockGives(b[1..])
  }

  /** Every local that an expression reads has a value. */
  predicate ExprSure(vars: set<string>, sure: set<string>, e: Expr) {
    ExprUses(e) * vars <= sure
  }

  predicate ArgsSure(vars: set<string>, sure: set<string>, args: seq<Expr>) {
    ArgUses(args) * vars <= sure
  }

  predicate BlockSure(vars: set<string>, sure: set<string>, b: Block)
    decreases b
  {
    b == [] || (StmtSure(vars, sure, b[0]) && BlockSure(vars + Among(StmtNames(b[0])), sure + StmtGives(b[0]), b[1..]))
  }

  predicate StmtSure(vars: set<string>, sure: set<string>, s: Stmt)
    decreases s
  {
    match s
    case Let(_, _, e) => ExprSure(vars, sure, e)
    case Mut(_, _, e) => ExprSure(vars, sure, e)
    case Assign(_, e) => ExprSure(vars, sure, e)
    case Ret(Some(e)) => ExprSure(vars, sure, e)
    case If(c, t, arm) =>
      && ExprSure(vars, sure, c) && BlockSure(vars, sure, t)
      && (match arm case NoElse => true case Else(b) => BlockSure(vars + Among(BlockNames(t)), sure, b))
    case Loop(b) => BlockSure(vars, sure, b)
    case While(c, b) => ExprSure(vars, sure, c) && BlockSure(vars, sure, b)
    case UnsafeBlock(b) => BlockSure(vars, sure, b)
    case ExprStmt(e) => ExprSure(vars, sure, e)
    case _ => true
  }

  predicate FnSure(f: FnDecl) {
    BlockSure(Among(ParamNames(f.params)), Among(ParamNames(f.params)), f.body)
  }

  predicate Initialises(fns: seq<FnDecl>) {
    forall f :: f in fns ==> FnSure(f)
  }

  ghost predicate Careful(p: Program) {
    Initialises(p.fns) && Lookup(p.fns, "mem.alloc", 0).None?
  }

  /** No early read; and where control runs on, what the text says has a value does. */
  ghost predicate FlowSure(sure: set<string>, given: set<string>, r: Res<Flow>) {
    && !ReadsEarly(r)
    && (r.Ok? ==>
          match r.v
          case Onward(s) => sure + given <= s.Keys
          case Broke(s) => sure <= s.Keys
          case Continued(s) => sure <= s.Keys
          case Returned(_) => true)
  }

  lemma {:induction false} ExprInitialised(p: Program, cx: Ctx, sure: set<string>, e: Expr, store: Store, sn: nat, d: nat, n: nat)
    requires Careful(p) && sure <= store.Keys && ExprSure(cx.vars, sure, e)
    ensures !ReadsEarly(EvalExpr(p, cx, e, store, sn, d, n))
    decreases d, 0, n, e, 1
  {
    hide EvalArgs, CallFn, Lookup, EvalBinary;
    match e
    case Ident(name) =>
      if name in cx.vars {
        assert name in ExprUses(e) * cx.vars;
      } else if d > 0 {
        CallInitialised(p, cx.residue, name, [], d - 1, n);
      }
    case Unary(_, x) => ExprInitialised(p, cx, sure, x, store, sn, d, n);
    case Binary(_, l, r) =>
      ExprInitialised(p, cx.First(), sure, l, store, sn, d, n);
      ExprInitialised(p, cx.Second(), sure, r, store, sn + |Strings(l)|, d, n);
    case Call(_, _) => CallExprInitialised(p, cx, sure, e, store, sn, d, n);
    case _ =>
  }

  lemma {:induction false} CallExprInitialised(p: Program, cx: Ctx, sure: set<string>, e: Expr, store: Store, sn: nat, d: nat, n: nat)
    requires e.Call?
    requires Careful(p) && sure <= store.Keys && ExprSure(cx.vars, sure, e)
    ensures !ReadsEarly(EvalExpr(p, cx, e, store, sn, d, n))
    decreases d, 0, n, e, 0
  {
    hide EvalArgs, CallFn, Lookup, Initialises;
    if !IsAlloc(e) {
      ArgsInitialised(p, cx.First(), sure, e.args, store, sn, d, n);
      var r := EvalArgs(p, cx.First(), e.args, store, sn, d, n);
      if r.Ok? && d > 0 {
        CallInitialised(p, cx.Second().residue, e.callee.Display(), r.v, d - 1, n);
      }
    }
  }

  lemma {:induction false} ArgsInitialised(p: Program, cx: Ctx, sure: set<string>, args: seq<Expr>, store: Store, sn: nat, d: nat, n: nat)
    requires Careful(p) && sure <= store.Keys && ArgsSure(cx.vars, sure, args)
    ensures !ReadsEarly(EvalArgs(p, cx, args, store, sn, d, n))
    decreases d, 0, n, args
  {
    hide Careful;
    if args != [] {
      ExprInitialised(p, cx.First(), sure, args[0], store, sn, d, n);
      ArgsInitialised(p, cx.Second(), sure, args[1..], store, sn + |Strings(args[0])|, d, n);
    }
  }

  lemma {:induction false} EntryGiven(f: FnDecl, ws: seq<Word>, z: Residue)
    requires |f.params| == |ws|
    ensures Among(ParamNames(f.params)) <= EntryStore(f, ws, z).Keys
  {
    ParamsBound(f.params, ws);
  }

  lemma {:induction false} ParamsBound(params: seq<Param>, ws: seq<Word>)
    requires |params| == |ws|
    ensures Bind(params, ws).Keys == Among(ParamNames(params))
    decreases |params|
  {
    if params != [] {
      var last := |params| - 1;
      ParamsBound(params[..last], ws[..last]);
    }
  }

  lemma {:induction false} CallInitialised(p: Program, z: Residue, name: string, ws: seq<Word>, d: nat, n: nat)
    requires Careful(p)
    ensures !ReadsEarly(CallFn(p, z, name, ws, d, n))
    decreases d, 1
  {
    hide ExecBlock, EntryStore, ParamNames, BlockSure;
    match Lookup(p.fns, name, 0)
    case None =>
    case Some(f) =>
      if |f.decl.params| == |ws| {
        LookupFinds(p.fns, name, 0);
        EntryGiven(f.decl, ws, z);
        assert FnSure(f.decl);
        BlockInitialised(p, EntryCtx(f.decl, z), Among(ParamNames(f.decl.params)), f.decl.body, EntryStore(f.decl, ws, z), f.strBase, d, n);
      }
  }

  lemma {:induction false} BlockInitialised(p: Program, cx: Ctx, sure: set<string>, b: Block, store: Store, sn: nat, d: nat, n: nat)
    requires Careful(p) && sure <= store.Keys && BlockSure(cx.vars, sure, b)
    ensures FlowSure(sure, BlockGives(b), ExecBlock(p, cx, b, store, sn, d, n))
    decreases d, 0, n, b
  {
    hide Careful, ExecStmt, StmtSure, StmtGives, StmtNames, StmtStrings;
    if b != [] {
      StmtInitialised(p, cx.First(), sure, b[0], store, sn, d, n);
      var first := ExecStmt(p, cx.First(), b[0], store, sn, d, n);
      if first.Ok? && first.v.Onward? {
        BlockInitialised(p, cx.Second().Past(StmtNames(b[0])), sure + StmtGives(b[0]), b[1..], first.v.store,
                         sn + |StmtStrings(b[0])|, d, n);
      }
    }
  }

  lemma {:induction false} StmtInitialised(p: Program, cx: Ctx, sure: set<string>, s: Stmt, store: Store, sn: nat, d: nat, n: nat)
    requires Careful(p) && sure <= store.Keys && StmtSure(cx.vars, sure, s)
    ensures FlowSure(sure, StmtGives(s), ExecStmt(p, cx, s, store, sn, d, n))
    decreases d, 0, n, s, 1
  {
    hide Careful, ExecBlock, EvalExpr, BlockSure, ExprSure;
    match s
    case Let(_, _, e) => ExprInitialised(p, cx, sure, e, store, sn, d, n);
    case Mut(_, _, e) => ExprInitialised(p, cx, sure, e, store, sn, d, n);
    case Assign(_, e) => ExprInitialised(p, cx, sure, e, store, sn, d, n);
    case Ret(Some(e)) => ExprInitialised(p, cx, sure, e, store, sn, d, n);
    case ExprStmt(e) => ExprInitialised(p, cx, sure, e, store, sn, d, n);
    case UnsafeBlock(b) => BlockInitialised(p, cx, sure, b, store, sn, d, n);
    case If(_, _, _) => IfInitialised(p, cx, sure, s, store, sn, d, n);
    case Loop(_) => LoopInitialised(p, cx, sure, s, store, sn, d, n);
    case While(_, _) => WhileInitialised(p, cx, sure, s, store, sn, d, n);
    case _ =>
  }

  lemma {:induction false} IfInitialised(p: Program, cx: Ctx, sure: set<string>, s: Stmt, store: Store, sn: nat, d: nat, n: nat)
    requires s.If?
    requires Careful(p) && sure <= store.Keys && StmtSure(cx.vars, sure, s)
    ensures FlowSure(sure, StmtGives(s), ExecStmt(p, cx, s, store, sn, d, n))
    decreases d, 0, n, s, 0
  {
    hide Careful, ExecBlock, EvalExpr, BlockSure, ExprSure, Strings, BlockStrings, BlockNames, BlockGives;
    ExprInitialised(p, cx.First(), sure, s.cond, store, sn, d, n);
    var sn' := sn + |Strings(s.cond)|;
    BlockInitialised(p, cx.Second(), sure, s.thenBlock, store, sn', d, n);
    if s.elseArm.Else? {
      BlockInitialised(p, cx.Second().Past(BlockNames(s.thenBlock)), sure, s.elseArm.block, store, sn' + |BlockStrings(s.thenBlock)|, d, n);
    }
  }

  lemma {:induction false} LoopInitialised(p: Program, cx: Ctx, sure: set<string>, s: Stmt, store: Store, sn: nat, d: nat, n: nat)
    requires s.Loop?
    requires Careful(p) && sure <= store.Keys && StmtSure(cx.vars, sure, s)
    ensures FlowSure(sure, {}, ExecStmt(p, cx, s, store, sn, d, n))
    decreases d, 0, n, s, 0
  {
    hide Careful, ExecBlock, BlockSure, BlockGives;
    BlockInitialised(p, cx.First(), sure, s.body, store, sn, d, n);
    var r := ExecBlock(p, cx.First(), s.body, store, sn, d, n);
    if n > 0 && r.Ok? && (r.v.Onward? || r.v.Continued?) {
      StmtInitialised(p, cx.Second(), sure, s, r.v.store, sn, d, n - 1);
    }
  }

  lemma {:induction false} WhileInitialised(p: Program, cx: Ctx, sure: set<string>, s: Stmt, store: Store, sn: nat, d: nat, n: nat)
    requires s.While?
    requires Careful(p) && sure <= store.Keys && StmtSure(cx.vars, sure, s)
    ensures FlowSure(sure, {}, ExecStmt(p, cx, s, store, sn, d, n))
    decreases d, 0, n, s, 0
  {
    hide Careful, ExecBlock, EvalExpr, BlockSure, ExprSure, BlockGives, Strings;
    ExprInitialised(p, cx.First(), sure, s.cond, store, sn, d, n);
    var sn' := sn + |Strings(s.cond)|;
    BlockInitialised(p, cx.Second().First(), sure, s.body, store, sn', d, n);
    var r := ExecBlock(p, cx.Second().First(), s.body, store, sn', d, n);
    if n > 0 && r.Ok? && (r.v.Onward? || r.v.Continued?) {
      StmtInitialised(p, cx.Second().Second(), sure, s, r.v.store, sn, d, n - 1);
    }
  }
}
