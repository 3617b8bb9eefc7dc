/** The return analysis and the loop-depth check, by themselves: they need no types and no side conditions. */
module Returns {
  import opened Ast
  import opened Semantics
  import opened Checking
  import opened Acceptance

  ghost predicate RunsOn(r: Res<Flow>) {
    r.Ok? && r.v.Onward?
  }

  /** A block that the analysis says returns never runs off its end. */
  lemma {:induction false} BlockReturnsSound(p: Program, cx: Ctx, b: Block, store: Store, sn: nat, d: nat, n: nat)
    requires BlockReturns(b)
    ensures !RunsOn(ExecBlock(p, cx, b, store, sn, d, n))
    decreases b
  {
    hide ExecStmt, StmtNames, StmtStrings;
    if StmtReturns(b[0]) {
      StmtReturnsSound(p, cx.First(), b[0], store, sn, d, n);
    } else {
      var first := ExecStmt(p, cx.First(), b[0], store, sn, d, n);
      if RunsOn(first) {
        BlockReturnsSound(p, cx.Second().Past(StmtNames(b[0])), b[1..], first.v.store, sn + |StmtStrings(b[0])|, d, n);
      }
    }
  }

  lemma {:induction false} StmtReturnsSound(p: Program, cx: Ctx, s: Stmt, store: Store, sn: nat, d: nat, n: nat)
    requires StmtReturns(s)
    ensures !RunsOn(ExecStmt(p, cx, s, store, sn, d, n))
    decreases s
  {
    if s.If? {
      var sn' := sn + |Strings(s.cond)|;
      BlockReturnsSound(p, cx.Second(), s.thenBlock, store, sn', d, n);
      BlockReturnsSound(p, cx.Second().Past(BlockNames(s.thenBlock)), s.elseArm.block, store, sn' + |BlockStrings(s.thenBlock)|, d, n);
    }
  }

  ghost predicate Escapes(r: Res<Flow>) {
    r.Ok? && (r.v.Broke? || r.v.Continued?)
  }

  /** A block checked outside every loop lets no break or continue escape. */
  lemma {:induction false} NothingEscapes(p: Program, cx: Ctx, g: Globals, sc: Scope, b: Block, store: Store, sn: nat, d: nat, n: nat)
    requires CheckBlock(g, sc, b).diags == [] && sc.loops == 0
    ensures !Escapes(ExecBlock(p, cx, b, store, sn, d, n))
    decreases b
  {
    hide ExecStmt, CheckStmt, StmtNames, StmtStrings;
    if b != [] {
      var checked := CheckStmt(g, sc, b[0]);
      NoneJoined(checked.diags, CheckBlock(g, sc.(vars := checked.vars), b[1..]).diags);
      StmtContained(p, cx.First(), g, sc, b[0], store, sn, d, n);
      var first := ExecStmt(p, cx.First(), b[0], store, sn, d, n);
      if RunsOn(first) {
        NothingEscapes(p, cx.Second().Past(StmtNames(b[0])), g, sc.(vars := checked.vars), b[1..], first.v.store, sn + |StmtStrings(b[0])|, d, n);
      }
    }
  }

  lemma {:induction false} StmtContained(p: Program, cx: Ctx, g: Globals, sc: Scope, s: Stmt, store: Store, sn: nat, d: nat, n: nat)
    requires CheckStmt(g, sc, s).diags == [] && sc.loops == 0
    ensures !Escapes(ExecStmt(p, cx, s, store, sn, d, n))
    decreases s, 1
  {
    hide CheckBlock, TypeOf, ExecBlock, EvalExpr, DeclareVar;
    match s
    case If(_, _, _) => IfContained(p, cx, g, sc, s, store, sn, d, n);
    case UnsafeBlock(b) =>
      var inner := sc.(unsafes := sc.unsafes + 1);
      NoneJoined(ErrorIf("unsafe" !in g.capabilities, "E0801"), CheckBlock(g, inner, b).diags);
      NothingEscapes(p, cx, g, inner, b, store, sn, d, n);
    case Loop(_) => LoopContains(p, cx, s, store, sn, d, n);
    case While(_, _) => LoopContains(p, cx, s, store, sn, d, n);
    case _ =>
  }

  lemma {:induction false} IfContained(p: Program, cx: Ctx, g: Globals, sc: Scope, s: Stmt, store: Store, sn: nat, d: nat, n: nat)
    requires s.If?
    requires CheckStmt(g, sc, s).diags == [] && sc.loops == 0
    ensures !Escapes(ExecStmt(p, cx, s, store, sn, d, n))
    decreases s, 0
  {
    hide CheckBlock, TypeOf, ExecBlock, EvalExpr;
    var sn' := sn + |Strings(s.cond)|;
    var thens := CheckBlock(g, sc, s.thenBlock);
    NoneJoined(CondDiags(g, sc, s.cond) + thens.diags, CheckArm(g, sc.(vars := thens.vars), s.elseArm).diags);
    NoneJoined(CondDiags(g, sc, s.cond), thens.diags);
    NothingEscapes(p, cx.Second(), g, sc, s.thenBlock, store, sn', d, n);
    if s.elseArm.Else? {
      NothingEscapes(p, cx.Second().Past(BlockNames(s.thenBlock)), g, sc.(vars := thens.vars), s.elseArm.block, store, sn' + |BlockStrings(s.thenBlock)|, d, n);
    }
  }

  /** A loop absorbs the breaks and continues of its body. */
  lemma {:induction false} LoopContains(p: Program, cx: Ctx, s: Stmt, store: Store, sn: nat, d: nat, n: nat)
    requires s.Loop? || s.While?
    ensures !Escapes(ExecStmt(p, cx, s, store, sn, d, n))
    decreases n
  {
    if n > 0 {
      var inner := if s.While? then cx.Second().First() else cx.First();
      var r := ExecBlock(p, inner, s.body, store, if s.While? then sn + |Strings(s.cond)| else sn, d, n);
      if r.Ok? && (r.v.Onward? || r.v.Continued?) {
        LoopContains(p, if s.While? then cx.Second().Second() else cx.Second(), s, r.v.store, sn, d, n - 1);
      }
    }
  }

  /** Every completed run of a checked function's body ends in a return, or runs off the end of a void function:
      it never falls off the end of a function that returns a value, and no break or continue leaves it. */
  lemma {:induction false} CheckedBodyReturns(p: Program, cx: Ctx, g: Globals, f: FnDecl, store: Store, sn: nat, d: nat, n: nat)
    requires FnDiags(g, f) == []
    ensures var r := ExecBlock(p, cx, f.body, store, sn, d, n);
      r.Ok? ==> r.v.Returned? || (f.ret == "void" && r.v.Onward?)
  {
    var params, body := DeclareParams(f.params).diags, CheckBlock(g, EntryScope(f), f.body).diags;
    NoneJoined(params + body, ErrorIf(f.ret != "void" && !BlockReturns(f.body), "E4101"));
    NoneJoined(params, body);
    NothingEscapes(p, cx, g, EntryScope(f), f.body, store, sn, d, n);
    if f.ret != "void" {
      BlockReturnsSound(p, cx, f.body, store, sn, d, n);
    }
  }
}
