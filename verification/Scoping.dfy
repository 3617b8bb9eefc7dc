/** When the generator resolves a name as the checker does. */
module Scoping {
  import opened Ast
  import opened Semantics
  import opened Emission
  import opened Checking
  import opened Acceptance
  import opened Soundness
  import opened Resolution
  import opened Inspection

  /** In the text of a checked construct every name is that of a local declared before or of a function. */
  ghost predicate Declared(g: Globals, limit: set<string>, os: set<Occurrence>) {
    forall o :: o in os ==> (o.name in o.vars || o.name in g.sigs) && o.vars <= limit
  }

  lemma {:induction false} ExprDeclared(g: Globals, sc: Scope, e: Expr)
    requires TypeOf(g, sc, e).diags == []
    ensures forall x :: x in ExprUses(e) ==> x in sc.vars || x in g.sigs
    decreases e, 1
  {
    match e
    case Ident(_) =>
    case Unary(op, x) =>
      hide TypeOf;
      UnaryPasses(g, sc, op, x);
      ExprDeclared(g, sc, x);
    case Binary(op, l, r) =>
      hide TypeOf;
      BinaryPasses(g, sc, op, l, r);
      ExprDeclared(g, sc, l);
      ExprDeclared(g, sc, r);
    case Call(_, args) =>
      hide TypeOf;
      if !IsAlloc(e) {
        ArgsPass(g, sc, e);
        ArgsDeclared(g, sc, args);
      }
    case _ =>
  }

  lemma {:induction false} ArgsDeclared(g: Globals, sc: Scope, args: seq<Expr>)
    requires AllTyped(g, sc, args)
    ensures forall x :: x in ArgUses(args) ==> x in sc.vars || x in g.sigs
    decreases args
  {
    hide TypeOf;
    if args != [] {
      assert args[0] in args && forall a :: a in args[1..] ==> a in args;
      ExprDeclared(g, sc, args[0]);
      ArgsDeclared(g, sc, args[1..]);
    }
  }

  lemma {:induction false} OwnDeclared(g: Globals, sc: Scope, e: Expr, limit: set<string>)
    requires TypeOf(g, sc, e).diags == [] && sc.vars.Keys <= limit
    ensures Declared(g, limit, Occurring(ExprUses(e), sc.vars.Keys))
  {
    hide TypeOf;
    ExprDeclared(g, sc, e);
  }

  lemma {:induction false} BlockDeclared(g: Globals, sc: Scope, b: Block, limit: set<string>)
    requires CheckBlock(g, sc, b).diags == [] && CheckBlock(g, sc, b).vars.Keys <= limit
    ensures Declared(g, limit, BlockOccurrences(sc.vars.Keys, b))
    decreases b, 2
  {
    if b != [] {
      var first := CheckStmt(g, sc, b[0]);
      var sc' := sc.(vars := first.vars);
      NoneJoined(first.diags, CheckBlock(g, sc', b[1..]).diags);
      StmtDeclares(g, sc, b[0]);
      BlockDeclares(g, sc', b[1..]);
      hide CheckStmt, CheckBlock, StmtOccurrences;
      StmtDeclared(g, sc, b[0], limit);
      BlockDeclared(g, sc', b[1..], limit);
    }
  }

  lemma {:induction false} StmtDeclared(g: Globals, sc: Scope, s: Stmt, limit: set<string>)
    requires CheckStmt(g, sc, s).diags == [] && CheckStmt(g, sc, s).vars.Keys <= limit
    ensures Declared(g, limit, StmtOccurrences(sc.vars.Keys, s))
    decreases s, 1
  {
    StmtDeclares(g, sc, s);
    hide CheckBlock, TypeOf, Declared, RequireType, BlockOccurrences, Occurring;
    Nothing(g, limit);
    match s
    case Let(_, ty, e) =>
      NoneJoined(TypeOf(g, sc, e).diags, RequireType(ty, TypeOf(g, sc, e).ty));
      OwnDeclared(g, sc, e, limit);
    case Mut(_, ty, e) =>
      NoneJoined(TypeOf(g, sc, e).diags, RequireType(ty, TypeOf(g, sc, e).ty));
      OwnDeclared(g, sc, e, limit);
    case Assign(x, e) =>
      var t := TypeOf(g, sc, e);
      NoneJoined(ErrorIf(!sc.vars[x].mutable, "E4201") + t.diags, RequireType(sc.vars[x].ty, t.ty));
      NoneJoined(ErrorIf(!sc.vars[x].mutable, "E4201"), t.diags);
      OwnDeclared(g, sc, e, limit);
    case Ret(Some(e)) =>
      NoneJoined(TypeOf(g, sc, e).diags, RequireType(sc.ret, TypeOf(g, sc, e).ty));
      OwnDeclared(g, sc, e, limit);
    case If(_, _, _) => IfDeclared(g, sc, s, limit);
    case Loop(b) => BlockDeclared(g, sc.(loops := sc.loops + 1), b, limit);
    case While(c, b) =>
      NoneJoined(CondDiags(g, sc, c), CheckBlock(g, sc.(loops := sc.loops + 1), b).diags);
      CondDeclared(g, sc, c, limit);
      BlockDeclared(g, sc.(loops := sc.loops + 1), b, limit);
      Both(g, limit, Occurring(ExprUses(c), sc.vars.Keys), BlockOccurrences(sc.vars.Keys, b));
    case UnsafeBlock(b) =>
      var inner := sc.(unsafes := sc.unsafes + 1);
      NoneJoined(ErrorIf("unsafe" !in g.capabilities, "E0801"), CheckBlock(g, inner, b).diags);
      BlockDeclared(g, inner, b, limit);
    case ExprStmt(e) => OwnDeclared(g, sc, e, limit);
    case _ =>
  }

  lemma {:induction false} Nothing(g: Globals, limit: set<string>)
    ensures Declared(g, limit, {})
  {}

  lemma {:induction false} Both(g: Globals, limit: set<string>, a: set<Occurrence>, b: set<Occurrence>)
    requires Declared(g, limit, a) && Declared(g, limit, b)
    ensures Declared(g, limit, a + b)
  {}

  lemma {:induction false} CondDeclared(g: Globals, sc: Scope, c: Expr, limit: set<string>)
    requires CondDiags(g, sc, c) == [] && sc.vars.Keys <= limit
    ensures Declared(g, limit, Occurring(ExprUses(c), sc.vars.Keys))
  {
    NoneJoined(TypeOf(g, sc, c).diags, ErrorIf(!IsBool(TypeOf(g, sc, c).ty), "E4301"));
    OwnDeclared(g, sc, c, limit);
  }

  lemma {:induction false} IfDeclared(g: Globals, sc: Scope, s: Stmt, limit: set<string>)
    requires s.If?
    requires CheckStmt(g, sc, s).diags == [] && CheckStmt(g, sc, s).vars.Keys <= limit
    ensures Declared(g, limit, StmtOccurrences(sc.vars.Keys, s))
    decreases s, 0
  {
    StmtDeclares(g, sc, s);
    hide CheckBlock, TypeOf, Declared, BlockOccurrences, Occurring, BlockNames;
    var t := CheckBlock(g, sc, s.thenBlock);
    NoneJoined(CondDiags(g, sc, s.cond) + t.diags, CheckArm(g, sc.(vars := t.vars), s.elseArm).diags);
    NoneJoined(CondDiags(g, sc, s.cond), t.diags);
    CondDeclared(g, sc, s.cond, limit);
    BlockDeclares(g, sc, s.thenBlock);
    var vars := sc.vars.Keys;
    if s.elseArm.Else? {
      BlockDeclares(g, sc.(vars := t.vars), s.elseArm.block);
      BlockDeclared(g, sc.(vars := t.vars), s.elseArm.block, limit);
    }
    BlockDeclared(g, sc, s.thenBlock, limit);
    Both(g, limit, Occurring(ExprUses(s.cond), vars), BlockOccurrences(vars, s.thenBlock));
    if s.elseArm.Else? {
      Both(g, limit, Occurring(ExprUses(s.cond), vars) + BlockOccurrences(vars, s.thenBlock),
           BlockOccurrences(t.vars.Keys, s.elseArm.block));
    } else {
      assert StmtOccurrences(vars, s) == Occurring(ExprUses(s.cond), vars) + BlockOccurrences(vars, s.thenBlock);
    }
  }

  /** Every name in an accepted function is that of a local declared before it or of a function, and locals have slots. */
  lemma {:induction false} OccurrencesDeclared(fns: seq<FnDecl>, pkg: Package, f: FnDecl)
    requires Accepts(fns, pkg) && f in fns
    ensures Declared(GlobalsOf(fns, pkg), FnSlots(f).Keys, FnOccurrences(f))
  {
    var g := GlobalsOf(fns, pkg);
    Accepted(fns, pkg);
    FnAccepted(g, f);
    ParamsAreVars(f.params);
    hide FnSlots, CheckBlock, BlockOccurrences, GlobalsOf, Accepts;
    var params, body := DeclareParams(f.params).diags, CheckBlock(g, EntryScope(f), f.body).diags;
    NoneJoined(params + body, ErrorIf(f.ret != "void" && !BlockReturns(f.body), "E4101"));
    NoneJoined(params, body);
    BlockDeclared(g, EntryScope(f), f.body, FnSlots(f).Keys);
  }

  lemma {:induction false} ParamsAreVars(params: seq<Param>)
    ensures DeclareParams(params).vars.Keys == Among(ParamNames(params))
    decreases |params|
  {
    if params != [] {
      ParamsAreVars(params[..|params| - 1]);
    }
  }

  /** The generator takes every name in an accepted function for what the checker takes it for, exactly when no
      function's name is used before a local of that name is declared. */
  lemma {:induction false} ResolvedAlike(fns: seq<FnDecl>, pkg: Package, f: FnDecl)
    requires Accepts(fns, pkg) && f in fns
    ensures FnClear(FnNames(fns), f) <==>
      forall o :: o in FnOccurrences(f) ==>
        CheckerRefers(o.vars, FnNames(fns), o.name) == GeneratorRefers(FnSlots(f).Keys, FnNames(fns), o.name)
  {
    OccurrencesDeclared(fns, pkg, f);
    Accepted(fns, pkg);
    hide Accepts, GlobalsOf, FnNames, FnSlots, BlockOccurrences, FnDiags, SigOf, MainDiags;
    forall o | o in FnOccurrences(f)
      ensures Clashes(FnNames(fns), FnSlots(f).Keys, o) <==>
        CheckerRefers(o.vars, FnNames(fns), o.name) != GeneratorRefers(FnSlots(f).Keys, FnNames(fns), o.name)
    {}
  }
}
