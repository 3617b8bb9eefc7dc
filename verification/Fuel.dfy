/** The bounds of the evaluator only decide whether a run completes, never what it yields. */
module Fuel {
  import opened Ast
  import opened Words
  import opened Semantics

  /** A run completed under some bounds has the same result under any larger ones. */
  lemma {:induction false} ExprKeepsResult(p: Program, cx: Ctx, e: Expr, store: Store, sn: nat, d: nat, n: nat, d': nat, n': nat)
    requires d <= d' && n <= n'
    requires !EvalExpr(p, cx, e, store, sn, d, n).OutOfFuel?
    ensures EvalExpr(p, cx, e, store, sn, d', n') == EvalExpr(p, cx, e, store, sn, d, n)
    decreases d, 0, n, e, 1
  {
    hide EvalArgs, CallFn, Lookup, Apply;
    match e
    case Ident(name) =>
      if name !in cx.vars && Lookup(p.fns, name, 0).Some? {
        CallKeepsResult(p, cx.residue, name, [], d - 1, n, d' - 1, n');
      }
    case Unary(_, x) =>
      ExprKeepsResult(p, cx, x, store, sn, d, n, d', n');
    case Binary(_, l, r) =>
      ExprKeepsResult(p, cx.First(), l, store, sn, d, n, d', n');
      if EvalExpr(p, cx.First(), l, store, sn, d, n).Ok? {
        ExprKeepsResult(p, cx.Second(), r, store, sn + |Strings(l)|, d, n, d', n');
      }
    case Call(_, _) => CallExprKeepsResult(p, cx, e, store, sn, d, n, d', n');
    case _ =>
  }

  lemma {:induction false} CallExprKeepsResult(p: Program, cx: Ctx, e: Expr, store: Store, sn: nat, d: nat, n: nat, d': nat, n': nat)
    requires e.Call?
    requires d <= d' && n <= n'
    requires !EvalExpr(p, cx, e, store, sn, d, n).OutOfFuel?
    ensures EvalExpr(p, cx, e, store, sn, d', n') == EvalExpr(p, cx, e, store, sn, d, n)
    decreases d, 0, n, e, 0
  {
    var name := e.callee.Display();
    if if name == "io.write" then |e.args| == 3 else Lookup(p.fns, name, 0).Some? {
      ArgsKeepResult(p, cx.First(), e.args, store, sn, d, n, d', n');
      var r := EvalArgs(p, cx.First(), e.args, store, sn, d, n);
      if r.Ok? && name != "io.write" {
        CallKeepsResult(p, cx.Second().residue, name, r.v, d - 1, n, d' - 1, n');
      }
    }
  }

  lemma {:induction false} ArgsKeepResult(p: Program, cx: Ctx, args: seq<Expr>, store: Store, sn: nat, d: nat, n: nat, d': nat, n': nat)
    requires d <= d' && n <= n'
    requires !EvalArgs(p, cx, args, store, sn, d, n).OutOfFuel?
    ensures EvalArgs(p, cx, args, store, sn, d', n') == EvalArgs(p, cx, args, store, sn, d, n)
    decreases d, 0, n, args
  {
    if args != [] {
      ExprKeepsResult(p, cx.First(), args[0], store, sn, d, n, d', n');
      if EvalExpr(p, cx.First(), args[0], store, sn, d, n).Ok? {
        ArgsKeepResult(p, cx.Second(), args[1..], store, sn + |Strings(args[0])|, d, n, d', n');
      }
    }
  }

  lemma {:induction false} CallKeepsResult(p: Program, z: Residue, name: string, ws: seq<Word>, d: nat, n: nat, d': nat, n': nat)
    requires d <= d' && n <= n'
    requires !CallFn(p, z, name, ws, d, n).OutOfFuel?
    ensures CallFn(p, z, name, ws, d', n') == CallFn(p, z, name, ws, d, n)
    decreases d, 1
  {
    match Lookup(p.fns, name, 0)
    case None =>
    case Some(f) =>
      if |f.decl.params| == |ws| {
        BlockKeepsResult(p, EntryCtx(f.decl, z), f.decl.body, EntryStore(f.decl, ws, z), f.strBase, d, n, d', n');
      }
  }

  lemma {:induction false} BlockKeepsResult(p: Program, cx: Ctx, b: Block, store: Store, sn: nat, d: nat, n: nat, d': nat, n': nat)
    requires d <= d' && n <= n'
    requires !ExecBlock(p, cx, b, store, sn, d, n).OutOfFuel?
    ensures ExecBlock(p, cx, b, store, sn, d', n') == ExecBlock(p, cx, b, store, sn, d, n)
    decreases d, 0, n, b
  {
    if b != [] {
      StmtKeepsResult(p, cx.First(), b[0], store, sn, d, n, d', n');
      var first := ExecStmt(p, cx.First(), b[0], store, sn, d, n);
      if first.Ok? && first.v.Onward? {
        BlockKeepsResult(p, cx.Second().Past(StmtNames(b[0])), b[1..], first.v.store, sn + |StmtStrings(b[0])|, d, n, d', n');
      }
    }
  }

  lemma {:induction false} StmtKeepsResult(p: Program, cx: Ctx, s: Stmt, store: Store, sn: nat, d: nat, n: nat, d': nat, n': nat)
    requires d <= d' && n <= n'
    requires !ExecStmt(p, cx, s, store, sn, d, n).OutOfFuel?
    ensures ExecStmt(p, cx, s, store, sn, d', n') == ExecStmt(p, cx, s, store, sn, d, n)
    decreases d, 0, n, s, 1
  {
    match s
    case Let(_, _, e) => ExprKeepsResult(p, cx, e, store, sn, d, n, d', n');
    case Mut(_, _, e) => ExprKeepsResult(p, cx, e, store, sn, d, n, d', n');
    case Assign(_, e) => ExprKeepsResult(p, cx, e, store, sn, d, n, d', n');
    case Ret(Some(e)) => ExprKeepsResult(p, cx, e, store, sn, d, n, d', n');
    case ExprStmt(e) => ExprKeepsResult(p, cx, e, store, sn, d, n, d', n');
    case UnsafeBlock(body) => BlockKeepsResult(p, cx, body, store, sn, d, n, d', n');
    case If(_, _, _) => IfKeepsResult(p, cx, s, store, sn, d, n, d', n');
    case Loop(_) => LoopKeepsResult(p, cx, s, store, sn, d, n, d', n');
    case While(_, _) => WhileKeepsResult(p, cx, s, store, sn, d, n, d', n');
    case _ =>
  }

  lemma {:induction false} IfKeepsResult(p: Program, cx: Ctx, s: Stmt, store: Store, sn: nat, d: nat, n: nat, d': nat, n': nat)
    requires s.If?
    requires d <= d' && n <= n'
    requires !ExecStmt(p, cx, s, store, sn, d, n).OutOfFuel?
    ensures ExecStmt(p, cx, s, store, sn, d', n') == ExecStmt(p, cx, s, store, sn, d, n)
    decreases d, 0, n, s, 0
  {
    ExprKeepsResult(p, cx.First(), s.cond, store, sn, d, n, d', n');
    var c := EvalExpr(p, cx.First(), s.cond, store, sn, d, n);
    if c.Ok? {
      var sn' := sn + |Strings(s.cond)|;
      if c.v != 0 {
        BlockKeepsResult(p, cx.Second(), s.thenBlock, store, sn', d, n, d', n');
      } else if s.elseArm.Else? {
        BlockKeepsResult(p, cx.Second().Past(BlockNames(s.thenBlock)), s.elseArm.block, store, sn' + |BlockStrings(s.thenBlock)|, d, n, d', n');
      }
    }
  }

  lemma {:induction false} LoopKeepsResult(p: Program, cx: Ctx, s: Stmt, store: Store, sn: nat, d: nat, n: nat, d': nat, n': nat)
    requires s.Loop?
    requires d <= d' && n <= n'
    requires !ExecStmt(p, cx, s, store, sn, d, n).OutOfFuel?
    ensures ExecStmt(p, cx, s, store, sn, d', n') == ExecStmt(p, cx, s, store, sn, d, n)
    decreases d, 0, n, s, 0
  {
    BlockKeepsResult(p, cx.First(), s.body, store, sn, d, n, d', n');
    var r := ExecBlock(p, cx.First(), s.body, store, sn, d, n);
    if r.Ok? && (r.v.Onward? || r.v.Continued?) {
      StmtKeepsResult(p, cx.Second(), s, r.v.store, sn, d, n - 1, d', n' - 1);
    }
  }

  lemma {:induction false} WhileKeepsResult(p: Program, cx: Ctx, s: Stmt, store: Store, sn: nat, d: nat, n: nat, d': nat, n': nat)
    requires s.While?
    requires d <= d' && n <= n'
    requires !ExecStmt(p, cx, s, store, sn, d, n).OutOfFuel?
    ensures ExecStmt(p, cx, s, store, sn, d', n') == ExecStmt(p, cx, s, store, sn, d, n)
    decreases d, 0, n, s, 0
  {
    ExprKeepsResult(p, cx.First(), s.cond, store, sn, d, n, d', n');
    var c := EvalExpr(p, cx.First(), s.cond, store, sn, d, n);
    if c.Ok? && c.v != 0 {
      var sn' := sn + |Strings(s.cond)|;
      BlockKeepsResult(p, cx.Second().First(), s.body, store, sn', d, n, d', n');
      var r := ExecBlock(p, cx.Second().First(), s.body, store, sn', d, n);
      if r.Ok? && (r.v.Onward? || r.v.Continued?) {
        StmtKeepsResult(p, cx.Second().Second(), s, r.v.store, sn, d, n - 1, d', n' - 1);
      }
    }
  }

  /** Two completed runs of one program agree, whatever bounds each was given. */
  lemma {:induction false} RunsAgree(p: Program, z: Residue, d: nat, n: nat, d': nat, n': nat)
    requires !RunMain(p, z, d, n).OutOfFuel? && !RunMain(p, z, d', n').OutOfFuel?
    ensures RunMain(p, z, d, n) == RunMain(p, z, d', n')
  {
    var D, N := if d <= d' then d' else d, if n <= n' then n' else n;
    CallKeepsResult(p, z, "main", [], d, n, D, N);
    CallKeepsResult(p, z, "main", [], d', n', D, N);
  }
}
