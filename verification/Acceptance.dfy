/** What a program without diagnostics is like: the facts the code generator relies on. */
module Acceptance {
  import opened Ast
  import opened Semantics
  import opened Emission
  import opened Slots
  import opened Labels
  import opened Checking
  import Codegen

  lemma {:induction false} NoneJoined(a: seq<string>, b: seq<string>)
    requires a + b == []
    ensures a == [] && b == []
  {
    assert |a + b| == |a| + |b|;
  }

  // ----- declarations -----

  ghost predicate NoRepeats(names: seq<string>) {
    forall i, j :: 0 <= i < j < |names| ==> names[i] != names[j]
  }

  /** Declaring `names` in order, each new, takes the declared set from `before` to `after`. */
  ghost predicate Declares(before: set<string>, names: seq<string>, after: set<string>) {
    && NoRepeats(names)
    && (forall i :: 0 <= i < |names| ==> names[i] !in before)
    && after == before + (set n | n in names)
  }

  lemma {:induction false} DeclaresThen(before: set<string>, a: seq<string>, mid: set<string>, b: seq<string>, after: set<string>)
    requires Declares(before, a, mid) && Declares(mid, b, after)
    ensures Declares(before, a + b, after)
  {
    var c := a + b;
    forall i, j | 0 <= i < j < |c|
      ensures c[i] != c[j]
    {
      if i < |a| && j >= |a| {
        assert a[i] in mid;
      }
    }
    assert (set n | n in c) == (set n | n in a) + (set n | n in b);
  }

  /** Variables only get added, and keep their types. */
  ghost predicate VarsGrow(before: Vars, after: Vars) {
    before.Keys <= after.Keys && forall x :: x in before ==> after[x] == before[x]
  }

  // ----- blocks -----

  /** An accepted block declares new names only, slots exactly those names, and assigns declared names only. */
  lemma {:induction false} BlockAccepted(g: Globals, sc: Scope, b: Block, locals: map<string, nat>)
    requires CheckBlock(g, sc, b).diags == [] && sc.vars.Keys == locals.Keys
    ensures VarsGrow(sc.vars, CheckBlock(g, sc, b).vars)
    ensures CheckBlock(g, sc, b).vars.Keys == BlockSlots(b, locals).Keys
    ensures Declares(locals.Keys, BlockNames(b), BlockSlots(b, locals).Keys)
    ensures forall names :: BlockSlots(b, locals).Keys <= names ==> Codegen.BlockHasSlots(b, names)
    decreases b
  {
    if b != [] {
      var first := CheckStmt(g, sc, b[0]);
      var sc' := sc.(vars := first.vars);
      NoneJoined(first.diags, CheckBlock(g, sc', b[1..]).diags);
      StmtAccepted(g, sc, b[0], locals);
      BlockAccepted(g, sc', b[1..], StmtSlots(b[0], locals));
      DeclaresThen(locals.Keys, StmtNames(b[0]), StmtSlots(b[0], locals).Keys, BlockNames(b[1..]), BlockSlots(b, locals).Keys);
    }
  }

  lemma {:induction false} StmtAccepted(g: Globals, sc: Scope, s: Stmt, locals: map<string, nat>)
    requires CheckStmt(g, sc, s).diags == [] && sc.vars.Keys == locals.Keys
    ensures StmtFacts(sc.vars, CheckStmt(g, sc, s).vars, s, locals)
    decreases s, 1
  {
    hide CheckStmt, StmtFacts;
    match s
    case If(_, _, _) => IfAccepted(g, sc, s, locals);
    case Loop(_) => NestedAccepted(g, sc, s, locals);
    case While(_, _) => NestedAccepted(g, sc, s, locals);
    case UnsafeBlock(_) => NestedAccepted(g, sc, s, locals);
    case Let(_, _, _) => LetAccepted(g, sc, s, locals);
    case Mut(_, _, _) => LetAccepted(g, sc, s, locals);
    case _ => OtherAccepted(g, sc, s, locals);
  }

  ghost predicate StmtFacts(before: Vars, after: Vars, s: Stmt, locals: map<string, nat>) {
    && VarsGrow(before, after)
    && after.Keys == StmtSlots(s, locals).Keys
    && Declares(locals.Keys, StmtNames(s), StmtSlots(s, locals).Keys)
    && forall names :: StmtSlots(s, locals).Keys <= names ==> Codegen.StmtHasSlots(s, names)
  }

  /** A nested block, checked in the scope that loops and unsafe blocks open for it. */
  function InnerScope(sc: Scope, s: Stmt): Scope {
    if s.UnsafeBlock? then sc.(unsafes := sc.unsafes + 1) else sc.(loops := sc.loops + 1)
  }

  lemma {:induction false} NestedParts(g: Globals, sc: Scope, s: Stmt)
    requires s.Loop? || s.While? || s.UnsafeBlock?
    requires CheckStmt(g, sc, s).diags == []
    ensures CheckBlock(g, InnerScope(sc, s), s.body).diags == []
    ensures CheckStmt(g, sc, s).vars == CheckBlock(g, InnerScope(sc, s), s.body).vars
  {
    hide CheckBlock, TypeOf;
    if s.While? {
      NoneJoined(CondDiags(g, sc, s.cond), CheckBlock(g, InnerScope(sc, s), s.body).diags);
    }
  }

  lemma {:induction false} NestedFacts(before: Vars, after: Vars, s: Stmt, locals: map<string, nat>)
    requires s.Loop? || s.While? || s.UnsafeBlock?
    requires VarsGrow(before, after) && after.Keys == BlockSlots(s.body, locals).Keys
    requires Declares(locals.Keys, BlockNames(s.body), BlockSlots(s.body, locals).Keys)
    requires forall names :: BlockSlots(s.body, locals).Keys <= names ==> Codegen.BlockHasSlots(s.body, names)
    ensures StmtFacts(before, after, s, locals)
  {
    hide VarsGrow, Declares, BlockSlots, BlockNames, Codegen.BlockHasSlots;
  }

  lemma {:induction false} NestedAccepted(g: Globals, sc: Scope, s: Stmt, locals: map<string, nat>)
    requires s.Loop? || s.While? || s.UnsafeBlock?
    requires CheckStmt(g, sc, s).diags == [] && sc.vars.Keys == locals.Keys
    ensures StmtFacts(sc.vars, CheckStmt(g, sc, s).vars, s, locals)
    decreases s, 0
  {
    hide CheckBlock, CheckStmt, StmtFacts, VarsGrow, Declares, BlockSlots, BlockNames, Codegen.BlockHasSlots;
    NestedParts(g, sc, s);
    BlockAccepted(g, InnerScope(sc, s), s.body, locals);
    NestedFacts(sc.vars, CheckStmt(g, sc, s).vars, s, locals);
  }

  lemma {:induction false} LetAccepted(g: Globals, sc: Scope, s: Stmt, locals: map<string, nat>)
    requires s.Let? || s.Mut?
    requires CheckStmt(g, sc, s).diags == [] && sc.vars.Keys == locals.Keys
    ensures StmtFacts(sc.vars, CheckStmt(g, sc, s).vars, s, locals)
  {
    LetParts(g, sc, s);
    hide CheckStmt, CheckBlock, CheckArm, BlockSlots, BlockNames, Codegen.BlockHasSlots, Declares;
    DeclareAccepted(s.name, locals);
    LetFacts(sc.vars, s, locals, CheckStmt(g, sc, s).vars[s.name]);
  }

  lemma {:induction false} LetParts(g: Globals, sc: Scope, s: Stmt)
    requires s.Let? || s.Mut?
    requires CheckStmt(g, sc, s).diags == []
    ensures s.name !in sc.vars && s.name in CheckStmt(g, sc, s).vars
    ensures CheckStmt(g, sc, s).vars == sc.vars[s.name := CheckStmt(g, sc, s).vars[s.name]]
  {
    hide TypeOf, RequireType, CheckBlock, CheckArm;
  }

  lemma {:induction false} LetFacts(before: Vars, s: Stmt, locals: map<string, nat>, info: VarInfo)
    requires s.Let? || s.Mut?
    requires before.Keys == locals.Keys && s.name !in before && Declares(locals.Keys, [s.name], Declare(s.name, locals).Keys)
    ensures StmtFacts(before, before[s.name := info], s, locals)
  {
    hide Declares, BlockSlots, BlockNames, Codegen.BlockHasSlots;
  }

  lemma {:induction false} OtherAccepted(g: Globals, sc: Scope, s: Stmt, locals: map<string, nat>)
    requires s.Assign? || s.Ret? || s.Break? || s.Continue? || s.ExprStmt? || s.ErrorStmt?
    requires CheckStmt(g, sc, s).diags == [] && sc.vars.Keys == locals.Keys
    ensures StmtFacts(sc.vars, CheckStmt(g, sc, s).vars, s, locals)
  {}

  lemma {:induction false} DeclareAccepted(name: string, locals: map<string, nat>)
    requires name !in locals
    ensures Declares(locals.Keys, [name], Declare(name, locals).Keys)
  {}

  lemma {:induction false} IfAccepted(g: Globals, sc: Scope, s: Stmt, locals: map<string, nat>)
    requires s.If?
    requires CheckStmt(g, sc, s).diags == [] && sc.vars.Keys == locals.Keys
    ensures StmtFacts(sc.vars, CheckStmt(g, sc, s).vars, s, locals)
    decreases s, 0
  {
    var t := CheckBlock(g, sc, s.thenBlock);
    NoneJoined(CondDiags(g, sc, s.cond) + t.diags, CheckArm(g, sc.(vars := t.vars), s.elseArm).diags);
    NoneJoined(CondDiags(g, sc, s.cond), t.diags);
    BlockAccepted(g, sc, s.thenBlock, locals);
    var mid := BlockSlots(s.thenBlock, locals);
    if s.elseArm.Else? {
      BlockAccepted(g, sc.(vars := t.vars), s.elseArm.block, mid);
      DeclaresThen(locals.Keys, BlockNames(s.thenBlock), mid.Keys, BlockNames(s.elseArm.block), BlockSlots(s.elseArm.block, mid).Keys);
    }
  }

  // ----- functions -----

  lemma {:induction false} ParamsAccepted(params: seq<Param>)
    requires DeclareParams(params).diags == []
    ensures Distinct(params) && DeclareParams(params).vars.Keys == Names(params)
    ensures forall i :: 0 <= i < |params| ==>
      params[i].name in DeclareParams(params).vars && DeclareParams(params).vars[params[i].name].ty == params[i].ty
    decreases |params|
  {
    if params != [] {
      var last := |params| - 1;
      ParamsAccepted(params[..last]);
      assert forall i :: 0 <= i < last ==> params[..last][i] == params[i];
      forall i, j | 0 <= i < j < |params|
        ensures params[i].name != params[j].name
      {
        if j == last {
          NameAt(params[..last], i);
        } else {
          assert params[..last][i].name != params[..last][j].name;
        }
      }
      forall i | 0 <= i < |params|
        ensures params[i].name in DeclareParams(params).vars && DeclareParams(params).vars[params[i].name].ty == params[i].ty
      {
        if i < last {
          assert params[..last][i].name in DeclareParams(params[..last]).vars;
        }
      }
    }
  }

  lemma {:induction false} ParamsDeclare(params: seq<Param>)
    requires Distinct(params)
    ensures Declares({}, ParamNames(params), Names(params))
    decreases |params|
  {
    if params != [] {
      var last := |params| - 1;
      ParamsDeclare(params[..last]);
      if params[last].name in Names(params[..last]) {
        var i := NameFrom(params[..last], params[last].name);
        assert false;
      }
      DeclaresThen({}, ParamNames(params[..last]), Names(params[..last]), [params[last].name], Names(params));
    }
  }

  /** Names declared without repeats are as many as the set they make. */
  lemma {:induction false} CountDistinct(names: seq<string>)
    requires NoRepeats(names)
    ensures |set n | n in names| == |names|
    decreases |names|
  {
    if names != [] {
      var last := |names| - 1;
      CountDistinct(names[..last]);
      var front := set n | n in names[..last];
      assert (set n | n in names) == front + {names[last]};
      assert names[last] !in front;
    }
  }

  /** In an accepted function every declaration has a slot of its own inside the frame. */
  lemma {:induction false} FnAccepted(g: Globals, f: FnDecl)
    requires FnDiags(g, f) == []
    ensures Distinct(f.params) && Codegen.FnHasSlots(f) && WellSpread(FnSlots(f))
    ensures NoRepeats(DeclaredNames(f)) && |FnSlots(f)| == |DeclaredNames(f)|
    ensures FnSlots(f).Keys == set n | n in DeclaredNames(f)
    ensures CheckBlock(g, EntryScope(f), f.body).vars.Keys == FnSlots(f).Keys
  {
    var p, b := DeclareParams(f.params), CheckBlock(g, EntryScope(f), f.body);
    NoneJoined(p.diags + b.diags, ErrorIf(f.ret != "void" && !BlockReturns(f.body), "E4101"));
    NoneJoined(p.diags, b.diags);
    ParamsAccepted(f.params);
    ParamSlotsSpread(f.params);
    ParamsDeclare(f.params);
    BlockAccepted(g, EntryScope(f), f.body, ParamSlots(f.params));
    FnSlotsSpread(f);
    DeclaresThen({}, ParamNames(f.params), Names(f.params), BlockNames(f.body), FnSlots(f).Keys);
    CountDistinct(DeclaredNames(f));
    assert {} + FnSlots(f).Keys == FnSlots(f).Keys;
    assert |FnSlots(f)| == |FnSlots(f).Keys|;
  }

  // ----- programs -----

  lemma {:induction false} RegisterAccepted(fns: seq<FnDecl>, capabilities: set<string>)
    requires Register(fns, capabilities).diags == []
    ensures DistinctNames(fns) && Register(fns, capabilities).sigs.Keys == FnNames(fns)
    ensures forall f :: f in fns ==> f.name in Register(fns, capabilities).sigs && Register(fns, capabilities).sigs[f.name] == SigOf(f)
    decreases |fns|
  {
    NoNames();
    hide FnNames;
    if fns != [] {
      var last := |fns| - 1;
      var front := fns[..last];
      RegisterAccepted(front, capabilities);
      assert fns == front + [fns[last]];
      assert fns[last].name !in Register(front, capabilities).sigs;
      forall i, j | 0 <= i < j < |fns|
        ensures fns[i].name != fns[j].name
      {
        if j == last {
          assert front[i] in front && fns[i] == front[i];
        } else {
          assert front[i].name != front[j].name;
        }
      }
      NamesSnoc(front, fns[last]);
    }
  }

  lemma {:induction false} NoNames()
    ensures FnNames([]) == {}
  {}

  lemma {:induction false} NamesSnoc(front: seq<FnDecl>, f: FnDecl)
    ensures FnNames(front + [f]) == FnNames(front) + {f.name}
  {
    var all := front + [f];
    forall x | x in FnNames(front) + {f.name}
      ensures x in FnNames(all)
    {
      if x == f.name {
        assert all[|front|] in all;
      } else {
        var h :| h in front && h.name == x;
        assert h in all;
      }
    }
  }

  lemma {:induction false} EachFnAccepted(g: Globals, fns: seq<FnDecl>, f: FnDecl)
    requires AllFnDiags(g, fns) == [] && f in fns
    ensures FnDiags(g, f) == []
    decreases fns
  {
    NoneJoined(FnDiags(g, fns[0]), AllFnDiags(g, fns[1..]));
    if f != fns[0] {
      assert f in fns[1..];
      EachFnAccepted(g, fns[1..], f);
    }
  }

  /** The parts of acceptance. */
  lemma {:induction false} Accepted(fns: seq<FnDecl>, pkg: Package)
    requires Accepts(fns, pkg)
    ensures DistinctNames(fns) && GlobalsOf(fns, pkg).sigs.Keys == FnNames(fns)
    ensures forall f :: f in fns ==>
      f.name in GlobalsOf(fns, pkg).sigs && GlobalsOf(fns, pkg).sigs[f.name] == SigOf(f) && FnDiags(GlobalsOf(fns, pkg), f) == []
    ensures MainDiags(GlobalsOf(fns, pkg).sigs, pkg) == []
  {
    var g := GlobalsOf(fns, pkg);
    NoneJoined(Register(fns, pkg.capabilities).diags + MainDiags(g.sigs, pkg), AllFnDiags(g, fns));
    NoneJoined(Register(fns, pkg.capabilities).diags, MainDiags(g.sigs, pkg));
    RegisterAccepted(fns, pkg.capabilities);
    forall f | f in fns
      ensures FnDiags(g, f) == []
    {
      EachFnAccepted(g, fns, f);
    }
  }

  /** The checker makes the generator total: in an accepted program every assigned name has a slot,
      all declarations of a function have distinct slots, and function names are distinct. */
  lemma {:induction false} CheckerMakesGeneratorTotal(fns: seq<FnDecl>, pkg: Package)
    requires Accepts(fns, pkg)
    ensures DistinctNames(fns)
    ensures forall f :: f in fns ==>
      && Distinct(f.params) && Codegen.FnHasSlots(f) && WellSpread(FnSlots(f)) && 8 * |FnSlots(f)| <= FrameSize(f)
      && NoRepeats(DeclaredNames(f)) && |FnSlots(f)| == |DeclaredNames(f)|
  {
    Accepted(fns, pkg);
    forall f | f in fns
      ensures Distinct(f.params) && Codegen.FnHasSlots(f) && WellSpread(FnSlots(f)) && 8 * |FnSlots(f)| <= FrameSize(f)
      ensures NoRepeats(DeclaredNames(f)) && |FnSlots(f)| == |DeclaredNames(f)|
    {
      FnAccepted(GlobalsOf(fns, pkg), f);
      FnSlotsSpread(f);
    }
  }
}
