/** A run is the same whatever is found in the frames that it reads no local from early; so one that reads none
    early is the same whatever all its frames hold. */
module Residues {
  import opened Ast
  import opened Words
  import opened Semantics

  ghost predicate Under(store: Store, more: Store) {
    forall x :: x in store ==> x in more && more[x] == store[x]
  }

  predicate ReadsEarly<T>(r: Res<T>) {
    r.Stuck? && r.why.Uninitialised?
  }

  ghost predicate FlowUnder(r: Res<Flow>, q: Res<Flow>) {
    match r
    case Ok(flow, out) =>
      && q.Ok? && q.out == out
      && (match flow
          case Onward(s) => q.v.Onward? && Under(s, q.v.store)
          case Broke(s) => q.v.Broke? && Under(s, q.v.store)
          case Continued(s) => q.v.Continued? && Under(s, q.v.store)
          case Returned(w) => q.v == flow)
    case _ => q == r
  }

  /** Says nothing but what the other one says. */
  predicate Vaguer(z: Residue, more: Residue) {
    match z
    case Unspecified => true
    case Zeros => more.Zeros?
    case Fork(x, y) => more.Fork? && Vaguer(x, more.first) && Vaguer(y, more.second)
    case Frame(words, inner) => more.Frame? && more.words == words && Vaguer(inner, more.inner)
  }

  /** The same place, with less known about the frames. */
  predicate Blank(cx: Ctx, other: Ctx) {
    Vaguer(cx.residue, other.residue) && cx.vars == other.vars
  }

  lemma {:induction false} BlankParts(cx: Ctx, other: Ctx, names: seq<string>)
    requires Blank(cx, other)
    ensures Blank(cx.First(), other.First()) && Blank(cx.Second(), other.Second()) && Blank(cx.Past(names), other.Past(names))
  {}

  lemma {:induction false} ExprSettles(p: Program, cx: Ctx, other: Ctx, e: Expr, store: Store, more: Store, sn: nat, d: nat, n: nat)
    requires Blank(cx, other) && Under(store, more)
    ensures var r := EvalExpr(p, cx, e, store, sn, d, n);
      ReadsEarly(r) || EvalExpr(p, other, e, more, sn, d, n) == r
    decreases d, 0, n, e, 1
  {
    hide EvalArgs, CallFn, Lookup, Apply, Vaguer;
    BlankParts(cx, other, []);
    match e
    case Ident(name) =>
      if name !in cx.vars && Lookup(p.fns, name, 0).Some? && d > 0 {
        CallSettles(p, cx.residue, other.residue, name, [], d - 1, n);
      }
    case Unary(_, x) => ExprSettles(p, cx, other, x, store, more, sn, d, n);
    case Binary(_, l, r) =>
      ExprSettles(p, cx.First(), other.First(), l, store, more, sn, d, n);
      ExprSettles(p, cx.Second(), other.Second(), r, store, more, sn + |Strings(l)|, d, n);
    case Call(_, _) => CallExprSettles(p, cx, other, e, store, more, sn, d, n);
    case _ =>
  }

  lemma {:induction false} CallExprSettles(p: Program, cx: Ctx, other: Ctx, e: Expr, store: Store, more: Store, sn: nat, d: nat, n: nat)
    requires e.Call?
    requires Blank(cx, other) && Under(store, more)
    ensures var r := EvalExpr(p, cx, e, store, sn, d, n);
      ReadsEarly(r) || EvalExpr(p, other, e, more, sn, d, n) == r
    decreases d, 0, n, e, 0
  {
    hide EvalArgs, CallFn, Lookup, Vaguer;
    BlankParts(cx, other, []);
    ArgsSettle(p, cx.First(), other.First(), e.args, store, more, sn, d, n);
    var r := EvalArgs(p, cx.First(), e.args, store, sn, d, n);
    if r.Ok? && d > 0 {
      CallSettles(p, cx.Second().residue, other.Second().residue, e.callee.Display(), r.v, d - 1, n);
    }
  }

  lemma {:induction false} ArgsSettle(p: Program, cx: Ctx, other: Ctx, args: seq<Expr>, store: Store, more: Store, sn: nat, d: nat, n: nat)
    requires Blank(cx, other) && Under(store, more)
    ensures var r := EvalArgs(p, cx, args, store, sn, d, n);
      ReadsEarly(r) || EvalArgs(p, other, args, more, sn, d, n) == r
    decreases d, 0, n, args
  {
    hide Vaguer;
    BlankParts(cx, other, []);
    if args != [] {
      ExprSettles(p, cx.First(), other.First(), args[0], store, more, sn, d, n);
      ArgsSettle(p, cx.Second(), other.Second(), args[1..], store, more, sn + |Strings(args[0])|, d, n);
    }
  }

  lemma {:induction false} EntrySettles(f: FnDecl, ws: seq<Word>, z: Residue, more: Residue)
    requires |f.params| == |ws| && Vaguer(z, more)
    ensures Blank(EntryCtx(f, z), EntryCtx(f, more)) && Under(EntryStore(f, ws, z), EntryStore(f, ws, more))
  {
    hide Bind, DeclaredNames, Among;
  }

  lemma {:induction false} CallSettles(p: Program, z: Residue, more: Residue, name: string, ws: seq<Word>, d: nat, n: nat)
    requires Vaguer(z, more)
    ensures var r := CallFn(p, z, name, ws, d, n);
      ReadsEarly(r) || CallFn(p, more, name, ws, d, n) == r
    decreases d, 1
  {
    hide ExecBlock, EntryStore, EntryCtx, Blank, Under;
    match Lookup(p.fns, name, 0)
    case None =>
    case Some(f) =>
      if |f.decl.params| == |ws| {
        EntrySettles(f.decl, ws, z, more);
        BlockSettles(p, EntryCtx(f.decl, z), EntryCtx(f.decl, more), f.decl.body, EntryStore(f.decl, ws, z),
                     EntryStore(f.decl, ws, more), f.strBase, d, n);
      }
  }

  lemma {:induction false} BlockSettles(p: Program, cx: Ctx, other: Ctx, b: Block, store: Store, more: Store, sn: nat, d: nat, n: nat)
    requires Blank(cx, other) && Under(store, more)
    ensures var r := ExecBlock(p, cx, b, store, sn, d, n);
      ReadsEarly(r) || FlowUnder(r, ExecBlock(p, other, b, more, sn, d, n))
    decreases d, 0, n, b
  {
    hide ExecStmt, StmtNames, StmtStrings, Vaguer;
    BlankParts(cx, other, []);
    if b != [] {
      StmtSettles(p, cx.First(), other.First(), b[0], store, more, sn, d, n);
      var first := ExecStmt(p, cx.First(), b[0], store, sn, d, n);
      if first.Ok? && first.v.Onward? {
        var first' := ExecStmt(p, other.First(), b[0], more, sn, d, n);
        BlankParts(cx.Second(), other.Second(), StmtNames(b[0]));
        BlockSettles(p, cx.Second().Past(StmtNames(b[0])), other.Second().Past(StmtNames(b[0])), b[1..], first.v.store, first'.v.store,
                     sn + |StmtStrings(b[0])|, d, n);
      }
    }
  }

  lemma {:induction false} StmtSettles(p: Program, cx: Ctx, other: Ctx, s: Stmt, store: Store, more: Store, sn: nat, d: nat, n: nat)
    requires Blank(cx, other) && Under(store, more)
    ensures var r := ExecStmt(p, cx, s, store, sn, d, n);
      ReadsEarly(r) || FlowUnder(r, ExecStmt(p, other, s, more, sn, d, n))
    decreases d, 0, n, s, 1
  {
    hide ExecBlock, EvalExpr;
    match s
    case Let(_, _, e) => ExprSettles(p, cx, other, e, store, more, sn, d, n);
    case Mut(_, _, e) => ExprSettles(p, cx, other, e, store, more, sn, d, n);
    case Assign(_, e) => ExprSettles(p, cx, other, e, store, more, sn, d, n);
    case Ret(Some(e)) => ExprSettles(p, cx, other, e, store, more, sn, d, n);
    case ExprStmt(e) => ExprSettles(p, cx, other, e, store, more, sn, d, n);
    case UnsafeBlock(b) => BlockSettles(p, cx, other, b, store, more, sn, d, n);
    case If(_, _, _) => IfSettles(p, cx, other, s, store, more, sn, d, n);
    case Loop(_) => LoopSettles(p, cx, other, s, store, more, sn, d, n);
    case While(_, _) => WhileSettles(p, cx, other, s, store, more, sn, d, n);
    case _ =>
  }

  lemma {:induction false} IfSettles(p: Program, cx: Ctx, other: Ctx, s: Stmt, store: Store, more: Store, sn: nat, d: nat, n: nat)
    requires s.If?
    requires Blank(cx, other) && Under(store, more)
    ensures var r := ExecStmt(p, cx, s, store, sn, d, n);
      ReadsEarly(r) || FlowUnder(r, ExecStmt(p, other, s, more, sn, d, n))
    decreases d, 0, n, s, 0
  {
    hide ExecBlock, EvalExpr, Strings, BlockStrings, BlockNames, Vaguer;
    BlankParts(cx, other, []);
    ExprSettles(p, cx.First(), other.First(), s.cond, store, more, sn, d, n);
    var sn' := sn + |Strings(s.cond)|;
    BlockSettles(p, cx.Second(), other.Second(), s.thenBlock, store, more, sn', d, n);
    if s.elseArm.Else? {
      var names := BlockNames(s.thenBlock);
      BlankParts(cx.Second(), other.Second(), names);
      BlockSettles(p, cx.Second().Past(names), other.Second().Past(names), s.elseArm.block, store, more,
                   sn' + |BlockStrings(s.thenBlock)|, d, n);
    }
  }

  lemma {:induction false} LoopSettles(p: Program, cx: Ctx, other: Ctx, s: Stmt, store: Store, more: Store, sn: nat, d: nat, n: nat)
    requires s.Loop?
    requires Blank(cx, other) && Under(store, more)
    ensures var r := ExecStmt(p, cx, s, store, sn, d, n);
      ReadsEarly(r) || FlowUnder(r, ExecStmt(p, other, s, more, sn, d, n))
    decreases d, 0, n, s, 0
  {
    hide ExecBlock, Vaguer;
    BlankParts(cx, other, []);
    BlockSettles(p, cx.First(), other.First(), s.body, store, more, sn, d, n);
    var r := ExecBlock(p, cx.First(), s.body, store, sn, d, n);
    if n > 0 && r.Ok? && (r.v.Onward? || r.v.Continued?) {
      var q := ExecBlock(p, other.First(), s.body, more, sn, d, n);
      StmtSettles(p, cx.Second(), other.Second(), s, r.v.store, q.v.store, sn, d, n - 1);
    }
  }

  lemma {:induction false} WhileSettles(p: Program, cx: Ctx, other: Ctx, s: Stmt, store: Store, more: Store, sn: nat, d: nat, n: nat)
    requires s.While?
    requires Blank(cx, other) && Under(store, more)
    ensures var r := ExecStmt(p, cx, s, store, sn, d, n);
      ReadsEarly(r) || FlowUnder(r, ExecStmt(p, other, s, more, sn, d, n))
    decreases d, 0, n, s, 0
  {
    hide ExecBlock, EvalExpr, Strings, Vaguer;
    BlankParts(cx, other, []);
    BlankParts(cx.Second(), other.Second(), []);
    ExprSettles(p, cx.First(), other.First(), s.cond, store, more, sn, d, n);
    var sn' := sn + |Strings(s.cond)|;
    BlockSettles(p, cx.Second().First(), other.Second().First(), s.body, store, more, sn', d, n);
    var r := ExecBlock(p, cx.Second().First(), s.body, store, sn', d, n);
    if n > 0 && r.Ok? && (r.v.Onward? || r.v.Continued?) {
      var q := ExecBlock(p, other.Second().First(), s.body, more, sn', d, n);
      StmtSettles(p, cx.Second().Second(), other.Second().Second(), s, r.v.store, q.v.store, sn, d, n - 1);
    }
  }

  /** Unless it reads a local early, the run of `main` has one result for all that its frames may hold. */
  lemma {:induction false} RunSettles(p: Program, z: Residue, d: nat, n: nat)
    ensures var r := RunMain(p, Unspecified, d, n); ReadsEarly(r) || RunMain(p, z, d, n) == r
  {
    CallSettles(p, Unspecified, z, "main", [], d, n);
  }
}
