/** When the emitted code assembles: every label it mentions is defined in it, once; and no jump is dropped on the way. */
module Assembling {
  import opened Ast
  import opened Machine
  import opened Semantics
  import opened Emission
  import opened Labels
  import opened Checking
  import opened Resolution
  import opened Acceptance
  import opened Inspection

  // ----- calls -----

  const UNDEFINED := {"mem.alloc", "core/io.write"}

  /** A call of a built-in that the checker knows and nothing defines. */
  predicate CallsUndefined(x: Expr) {
    x.Call? && x.callee.Display() in UNDEFINED
  }

  /** It does so somewhere, in the arguments of mem.alloc too. */
  ghost predicate FnCallsUndefined(f: FnDecl) {
    exists top, x :: top in BlockExprs(f.body, UnsafeDepth(f)) && x in Parts(top.0) && CallsUndefined(x)
  }

  function CallArgs(x: Expr): seq<Expr> {
    if x.Call? then x.args else []
  }

  /** Every call that the checker looks at, a bare name among them, goes to a function of the program with as many
      parameters as the call has arguments. */
  lemma {:induction false} CallsMatch(fns: seq<FnDecl>, pkg: Package, f: FnDecl, top: (Expr, nat), x: Expr, l: Label)
    requires Accepts(fns, pkg) && f in fns && top in BlockExprs(f.body, UnsafeDepth(f)) && x in Visited(top.0)
    requires Issues(FnNames(fns), FnSlots(f).Keys, x, CallTo(l)) && !CallsUndefined(x)
    ensures exists u :: u in fns && l == FnLabel(u.name) && |u.params| == |CallArgs(x)|
  {
    FnExprsPass(fns, pkg, f);
    Accepted(fns, pkg);
    hide BlockExprs, Accepts, Visited, Parts, FnSlots, FnDiags, SigOf, GlobalsOf;
    var g := GlobalsOf(fns, pkg);
    var sc: Scope :| sc.unsafes == top.1 && sc.vars.Keys <= FnSlots(f).Keys && TypeOf(g, sc, top.0).diags == [];
    VisitedPass(g, sc, top.0, x);
    var name := CallPasses(g, sc, x, FnNames(fns), FnSlots(f).Keys, l);
    var u :| u in fns && u.name == name;
    SigParams(u);
  }

  lemma {:induction false} SigParams(u: FnDecl)
    ensures |SigOf(u).params| == |u.params|
  {}

  lemma {:induction false} CallPasses(g: Globals, sc: Scope, x: Expr, fns: set<string>, locals: set<string>, l: Label) returns (name: string)
    requires TypeOf(g, sc, x).diags == [] && sc.vars.Keys <= locals && g.sigs.Keys == fns
    requires Issues(fns, locals, x, CallTo(l)) && !CallsUndefined(x)
    ensures name in fns && l == FnLabel(name) && |g.sigs[name].params| == |CallArgs(x)|
  {
    hide ArgDiags;
    name := l.name;
  }

  ghost predicate CallsWithin(code: seq<Instr>, names: set<string>) {
    forall l :: CallTo(l) in code ==> l.FnLabel? && l.name in names
  }

  /** What an accepted function calls is defined, but for the two built-ins. */
  lemma {:induction false} TargetDefined(fns: seq<FnDecl>, pkg: Package, f: FnDecl, l: Label)
    requires Accepts(fns, pkg) && f in fns && !FnCallsUndefined(f)
    requires SomeEmits(FnNames(fns), FnSlots(f).Keys, BlockExprs(f.body, UnsafeDepth(f)), CallTo(l))
    ensures l.FnLabel? && l.name in FnNames(fns)
  {
    hide BlockExprs, Accepts, Visited, Hidden, Parts, FnSlots, Issues, CallsUndefined;
    var top :| top in BlockExprs(f.body, UnsafeDepth(f)) && Emits(FnNames(fns), FnSlots(f).Keys, top.0, CallTo(l));
    var x :| x in Parts(top.0) && Issues(FnNames(fns), FnSlots(f).Keys, x, CallTo(l));
    if x !in Visited(top.0) {
      HiddenUndefined(top.0, x);
    }
    CallsMatch(fns, pkg, f, top, x, l);
  }

  /** What the checker skips is among the arguments of an undefined built-in. */
  lemma {:induction false} HiddenUndefined(e: Expr, x: Expr)
    requires x in Parts(e) && x !in Visited(e)
    ensures exists a :: a in Parts(e) && CallsUndefined(a)
  {
    SeenOrHidden(e);
    hide Parts, Visited, Hidden;
    var a :| a in Visited(e) && IsAlloc(a);
    assert CallsUndefined(a);
  }

  lemma {:induction false} UndefinedIssued(fns: set<string>, locals: set<string>, f: FnDecl, u: nat) returns (l: Label)
    requires u == UnsafeDepth(f) && FnCallsUndefined(f)
    ensures SomeEmits(fns, locals, BlockExprs(f.body, u), CallTo(l)) && l.FnLabel? && l.name in UNDEFINED
  {
    hide BlockExprs, Parts;
    var top, x :| top in BlockExprs(f.body, UnsafeDepth(f)) && x in Parts(top.0) && CallsUndefined(x);
    l := FnLabel(x.callee.Display());
    assert Issues(fns, locals, x, CallTo(l));
    assert Emits(fns, locals, top.0, CallTo(l));
  }

  /** Every call in the emitted functions goes to one of them, exactly when none calls an undefined built-in. */
  lemma {:induction false} CallsDefined(fns: seq<FnDecl>, pkg: Package)
    requires Accepts(fns, pkg) && UNDEFINED !! FnNames(fns)
    ensures CallsWithin(FnsCode(FnNames(fns), fns, 0, 0), FnNames(fns)) <==> forall f :: f in fns ==> !FnCallsUndefined(f)
    ensures (exists f :: f in fns && FnCallsUndefined(f)) ==>
      exists l: Label :: CallTo(l) in FnsCode(FnNames(fns), fns, 0, 0) && l.FnLabel? && l.name in UNDEFINED
  {
    hide Accepts, SomeEmits, FnsCode, FnCallsUndefined, FnSlots, BlockExprs, FnNames;
    var names := FnNames(fns);
    var code := FnsCode(names, fns, 0, 0);
    forall l
      ensures CallTo(l) in code <==>
        exists f :: f in fns && SomeEmits(names, FnSlots(f).Keys, BlockExprs(f.body, UnsafeDepth(f)), CallTo(l))
    {
      FnsEmit(names, fns, 0, 0, CallTo(l));
    }
    if forall f :: f in fns ==> !FnCallsUndefined(f) {
      forall l | CallTo(l) in code
        ensures l.FnLabel? && l.name in names
      {
        var f :| f in fns && SomeEmits(names, FnSlots(f).Keys, BlockExprs(f.body, UnsafeDepth(f)), CallTo(l));
        TargetDefined(fns, pkg, f, l);
      }
    } else {
      var f :| f in fns && FnCallsUndefined(f);
      var l := UndefinedIssued(names, FnSlots(f).Keys, f, UnsafeDepth(f));
      assert CallTo(l) in code;
    }
  }

  // ----- the whole program -----

  /** Every jump and every call goes to a label of the code, and no label is defined twice. */
  ghost predicate Assembles(code: seq<Instr>) {
    && Unique(code) && Resolved(code, {})
    && forall l :: CallTo(l) in code ==> Defines(code, l)
  }

  lemma {:induction false} NothingResolved()
    ensures Resolved([], {})
  {}

  lemma {:induction false} FnsResolved(names: set<string>, fns: seq<FnDecl>, ln: nat, sn: nat)
    ensures Resolved(FnsCode(names, fns, ln, sn), {})
    decreases fns
  {
    hide FnCode, Resolved;
    if fns == [] {
      NothingResolved();
    } else {
      var ln', sn' := ln + 1 + BlockLabels(fns[0].body), sn + |BlockStrings(fns[0].body)|;
      FnResolved(names, fns[0], ln, sn);
      FnsResolved(names, fns[1..], ln', sn');
      ResolvedCat(FnCode(names, fns[0], ln, sn), FnsCode(names, fns[1..], ln', sn'), {});
    }
  }

  lemma {:induction false} DefinesEither(a: seq<Instr>, b: seq<Instr>, l: Label)
    ensures Defines(a + b, l) <==> Defines(a, l) || Defines(b, l)
  {
    if Defines(a, l) || Defines(b, l) {
      DefinesCat(a, b, l);
    }
    if Defines(a + b, l) {
      var i :| 0 <= i < |a + b| && (a + b)[i] == Lab(l);
      assert (a + b)[i] == if i < |a| then a[i] else b[i - |a|];
    }
  }

  /** The labels of functions in a program's code: their names, and the entry point. */
  lemma {:induction false} LabelsDefined(fns: seq<FnDecl>, pkg: Package, name: string)
    ensures Defines(ProgramCode(fns, pkg), FnLabel(name)) <==> name in FnNames(fns) || (pkg.runtime == "tiny" && name == START)
  {
    hide FnsCode, FnNames, Defines, StartCode;
    var start := if pkg.runtime == "tiny" then StartCode() else [];
    FnsDefine(FnNames(fns), fns, 0, 0, name);
    DefinesEither(start, FnsCode(FnNames(fns), fns, 0, 0), FnLabel(name));
    StartDefines(name);
    NothingDefined(FnLabel(name));
  }

  lemma {:induction false} StartDefines(name: string)
    ensures Defines(StartCode(), FnLabel(name)) <==> name == START
  {
    assert StartCode()[0] == Lab(FnLabel(START));
  }

  lemma {:induction false} FnDefines(names: set<string>, f: FnDecl, ln: nat, sn: nat, name: string)
    ensures Defines(FnCode(names, f, ln, sn), FnLabel(name)) <==> name == f.name
  {
    FnNumbered(names, f, ln, sn);
    hide FnCode;
    var c := FnCode(names, f, ln, sn);
    assert c == [c[0]] + c[1..];
    assert [c[0]][0] == Lab(FnLabel(f.name));
    DefinesEither([c[0]], c[1..], FnLabel(name));
  }

  lemma {:induction false} FnsDefine(names: set<string>, fns: seq<FnDecl>, ln: nat, sn: nat, name: string)
    ensures Defines(FnsCode(names, fns, ln, sn), FnLabel(name)) <==> name in FnNames(fns)
    decreases fns
  {
    hide FnCode, Defines;
    if fns == [] {
      NothingDefined(FnLabel(name));
    } else {
      var ln', sn' := ln + 1 + BlockLabels(fns[0].body), sn + |BlockStrings(fns[0].body)|;
      FnDefines(names, fns[0], ln, sn, name);
      FnsDefine(names, fns[1..], ln', sn', name);
      DefinesEither(FnCode(names, fns[0], ln, sn), FnsCode(names, fns[1..], ln', sn'), FnLabel(name));
      assert fns == [fns[0]] + fns[1..];
    }
  }

  lemma {:induction false} NothingDefined(l: Label)
    ensures !Defines([], l)
  {}

  /** Every call of an accepted program goes to a label of its code, exactly when no function calls an undefined
      built-in, and the entry point has a `main` to call. */
  lemma {:induction false} EveryCallDefined(fns: seq<FnDecl>, pkg: Package)
    requires Accepts(fns, pkg) && UNDEFINED !! FnNames(fns)
    ensures (forall l :: CallTo(l) in ProgramCode(fns, pkg) ==> Defines(ProgramCode(fns, pkg), l)) <==>
      && (forall f :: f in fns ==> !FnCallsUndefined(f))
      && (pkg.runtime == "tiny" ==> "main" in FnNames(fns))
  {
    hide Accepts, FnsCode, FnCallsUndefined, FnNames, ProgramCode, CallsWithin;
    CallsDefined(fns, pkg);
    forall l
      ensures CallTo(l) in ProgramCode(fns, pkg) <==>
        CallTo(l) in FnsCode(FnNames(fns), fns, 0, 0) || (pkg.runtime == "tiny" && l == FnLabel("main"))
    {
      CallIn(fns, pkg, l);
    }
    forall name
      ensures Defines(ProgramCode(fns, pkg), FnLabel(name)) <==> name in FnNames(fns) || (pkg.runtime == "tiny" && name == START)
    {
      LabelsDefined(fns, pkg, name);
    }
    DefinedOrUndefined(ProgramCode(fns, pkg), FnsCode(FnNames(fns), fns, 0, 0), FnNames(fns), pkg.runtime == "tiny");
  }

  /** A program's code around the code of its functions, which calls only functions or else an undefined built-in. */
  lemma {:induction false} DefinedOrUndefined(program: seq<Instr>, code: seq<Instr>, names: set<string>, tiny: bool)
    requires forall l :: CallTo(l) in program <==> CallTo(l) in code || (tiny && l == FnLabel("main"))
    requires forall name :: Defines(program, FnLabel(name)) <==> name in names || (tiny && name == START)
    requires UNDEFINED !! names
    requires CallsWithin(code, names) || exists l: Label :: CallTo(l) in code && l.FnLabel? && l.name in UNDEFINED
    ensures (forall l :: CallTo(l) in program ==> Defines(program, l)) <==> CallsWithin(code, names) && (tiny ==> "main" in names)
  {
    hide Defines;
    if CallsWithin(code, names) && (tiny ==> "main" in names) {
      forall l | CallTo(l) in program
        ensures Defines(program, l)
      {
        assert l == FnLabel(l.name);
      }
    } else if !CallsWithin(code, names) {
      var l: Label :| CallTo(l) in code && l.FnLabel? && l.name in UNDEFINED;
      assert l == FnLabel(l.name);
      assert CallTo(l) in program && !Defines(program, l);
    } else {
      assert CallTo(FnLabel("main")) in program && !Defines(program, FnLabel("main"));
    }
  }

  lemma {:induction false} CallIn(fns: seq<FnDecl>, pkg: Package, l: Label)
    ensures CallTo(l) in ProgramCode(fns, pkg) <==>
      CallTo(l) in FnsCode(FnNames(fns), fns, 0, 0) || (pkg.runtime == "tiny" && l == FnLabel("main"))
  {
    hide FnsCode;
    if pkg.runtime == "tiny" {
      assert StartCode()[1] == CallTo(FnLabel("main"));
    }
  }

  lemma {:induction false} ProgramResolved(fns: seq<FnDecl>, pkg: Package)
    ensures Resolved(ProgramCode(fns, pkg), {})
  {
    FnsResolved(FnNames(fns), fns, 0, 0);
    hide FnsCode;
    ResolvedCat(if pkg.runtime == "tiny" then StartCode() else [], FnsCode(FnNames(fns), fns, 0, 0), {});
  }

  /** The code of an accepted program assembles exactly when no function has the name of the entry point, none calls
      an undefined built-in, and the entry point has a `main` to call. */
  lemma {:induction false} AssemblesIff(fns: seq<FnDecl>, pkg: Package)
    requires Accepts(fns, pkg) && UNDEFINED !! FnNames(fns)
    ensures Assembles(ProgramCode(fns, pkg)) <==>
      && StartIsFree(fns, pkg)
      && (forall f :: f in fns ==> !FnCallsUndefined(f))
      && (pkg.runtime == "tiny" ==> "main" in FnNames(fns))
  {
    hide Accepts, ProgramCode, FnCallsUndefined, FnNames, FnDiags, SigOf, MainDiags, Unique, Resolved, Defines, GlobalsOf, DistinctNames;
    Accepted(fns, pkg);
    ProgramLabelsUnique(fns, pkg);
    ProgramResolved(fns, pkg);
    EveryCallDefined(fns, pkg);
  }
}
