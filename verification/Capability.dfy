/** What the capability and unsafe rules of the checker guarantee about the emitted code. */
module Capability {
  import opened Ast
  import opened Machine
  import opened Semantics
  import opened Emission
  import opened Checking
  import opened Resolution
  import opened Acceptance
  import opened Inspection

  ghost predicate HidesWrite(f: FnDecl) {
    exists top, x :: top in BlockExprs(f.body, UnsafeDepth(f)) && x in Hidden(top.0) && IsWrite(x)
  }

  /** Without the syscall capability an accepted function has no io.write but among the arguments of mem.alloc. */
  lemma {:induction false} WritesHide(fns: seq<FnDecl>, pkg: Package, f: FnDecl, top: (Expr, nat), x: Expr)
    requires Accepts(fns, pkg) && f in fns && "syscall" !in pkg.capabilities
    requires top in BlockExprs(f.body, UnsafeDepth(f)) && x in Parts(top.0) && IsWrite(x)
    ensures x in Hidden(top.0)
  {
    FnExprsPass(fns, pkg, f);
    hide BlockExprs, Accepts, FnNames, Hidden, Visited, Parts, FnSlots;
    SeenOrHidden(top.0);
    if x in Visited(top.0) {
      var g := GlobalsOf(fns, pkg);
      var sc: Scope :| sc.unsafes == top.1 && sc.vars.Keys <= FnSlots(f).Keys && TypeOf(g, sc, top.0).diags == [];
      VisitedPass(g, sc, top.0, x);
      WriteArgsPass(g, sc, x);
    }
  }

  lemma {:induction false} HiddenArePart(e: Expr)
    ensures Hidden(e) <= Parts(e)
  {
    SeenOrHidden(e);
  }

  /** Without the syscall capability, the code of an accepted function makes a system call exactly when it
      hides an io.write among the unchecked arguments of mem.alloc. */
  lemma {:induction false} SyscallsNeedCapability(fns: seq<FnDecl>, pkg: Package, f: FnDecl, ln: nat, sn: nat)
    requires Accepts(fns, pkg) && f in fns && "syscall" !in pkg.capabilities
    ensures Syscall in FnCode(FnNames(fns), f, ln, sn) <==> HidesWrite(f)
  {
    FnEmits(FnNames(fns), f, ln, sn, UnsafeDepth(f), Syscall);
    hide FnCode, BlockExprs, Accepts, FnNames, Hidden, Visited, Parts, FnSlots;
    if Syscall in FnCode(FnNames(fns), f, ln, sn) {
      var top :| top in BlockExprs(f.body, UnsafeDepth(f)) && Emits(FnNames(fns), FnSlots(f).Keys, top.0, Syscall);
      var x :| x in Parts(top.0) && Issues(FnNames(fns), FnSlots(f).Keys, x, Syscall);
      WritesHide(fns, pkg, f, top, x);
    }
    if HidesWrite(f) {
      var top, x :| top in BlockExprs(f.body, UnsafeDepth(f)) && x in Hidden(top.0) && IsWrite(x);
      HiddenArePart(top.0);
      assert Emits(FnNames(fns), FnSlots(f).Keys, top.0, Syscall);
    }
  }

  /** Nothing is hidden where the heap capability is missing too. */
  lemma {:induction false} HidingNeedsHeap(fns: seq<FnDecl>, pkg: Package, f: FnDecl)
    requires Accepts(fns, pkg) && f in fns && "heap" !in pkg.capabilities
    ensures !HidesWrite(f)
  {
    FnExprsPass(fns, pkg, f);
    hide BlockExprs, Accepts, FnNames, Hidden, Visited, Parts, FnSlots;
    var g := GlobalsOf(fns, pkg);
    if HidesWrite(f) {
      var top, x :| top in BlockExprs(f.body, UnsafeDepth(f)) && x in Hidden(top.0) && IsWrite(x);
      SeenOrHidden(top.0);
      var a :| a in Visited(top.0) && IsAlloc(a);
      var sc: Scope :| sc.unsafes == top.1 && sc.vars.Keys <= FnSlots(f).Keys && TypeOf(g, sc, top.0).diags == [];
      VisitedPass(g, sc, top.0, a);
      AllocPasses(g, sc, a);
    }
  }

  lemma {:induction false} AllocPasses(g: Globals, sc: Scope, e: Expr)
    requires IsAlloc(e) && TypeOf(g, sc, e).diags == []
    ensures "heap" in g.capabilities && sc.unsafes > 0
  {}

  /** The only system call, if any, is the one that ends the entry point's code. */
  ghost predicate OnlyExit(code: seq<Instr>, pkg: Package) {
    forall i :: 0 <= i < |code| && code[i] == Syscall ==> pkg.runtime == "tiny" && i == 4
  }

  /** Without the syscall capability, the whole program makes no system call but the exit of the entry point,
      exactly when no function hides an io.write. */
  lemma {:induction false} OnlyTheExit(fns: seq<FnDecl>, pkg: Package)
    requires Accepts(fns, pkg) && "syscall" !in pkg.capabilities
    ensures OnlyExit(ProgramCode(fns, pkg), pkg) <==> forall f :: f in fns ==> !HidesWrite(f)
  {
    forall f, ln: nat, sn: nat | f in fns
      ensures Syscall in FnCode(FnNames(fns), f, ln, sn) <==> HidesWrite(f)
    {
      SyscallsNeedCapability(fns, pkg, f, ln, sn);
    }
    hide FnCode, HidesWrite, FnsCode, FnNames, Accepts, OnlyExit;
    FnsSyscalls(FnNames(fns), fns, 0, 0);
    SyscallAfterStart(FnsCode(FnNames(fns), fns, 0, 0), pkg);
  }

  lemma {:induction false} SyscallAfterStart(code: seq<Instr>, pkg: Package)
    ensures OnlyExit((if pkg.runtime == "tiny" then StartCode() else []) + code, pkg) <==> Syscall !in code
  {
    var start := if pkg.runtime == "tiny" then StartCode() else [];
    if Syscall in code {
      var k :| 0 <= k < |code| && code[k] == Syscall;
      assert (start + code)[|start| + k] == Syscall;
    }
  }

  lemma {:induction false} FnsSyscalls(names: set<string>, fns: seq<FnDecl>, ln: nat, sn: nat)
    requires forall f, ln: nat, sn: nat :: f in fns ==> (Syscall in FnCode(names, f, ln, sn) <==> HidesWrite(f))
    ensures Syscall in FnsCode(names, fns, ln, sn) <==> exists f :: f in fns && HidesWrite(f)
    decreases fns
  {
    hide FnCode, HidesWrite;
    if fns != [] {
      FnsSyscalls(names, fns[1..], ln + 1 + BlockLabels(fns[0].body), sn + |BlockStrings(fns[0].body)|);
      assert fns == [fns[0]] + fns[1..];
    }
  }

  /** A use of a function: a call, or its bare name where no local has that name. */
  predicate Uses(e: Expr, locals: set<string>, name: string) {
    (e.Ident? && e.name == name && name !in locals)
    || (e.Call? && e.callee.Display() == name && name !in {"io.write", "core/io.write", "mem.alloc"})
  }

  /** Every use of an unsafe function, and every mem.alloc, is in an unsafe function or an unsafe block, and the
      package has the capability for it; what stands among the arguments of mem.alloc shares the scope of that
      mem.alloc. */
  lemma {:induction false} UnsafeIsEnclosed(fns: seq<FnDecl>, pkg: Package, f: FnDecl, top: (Expr, nat), x: Expr, u: FnDecl)
    requires Accepts(fns, pkg) && f in fns && top in BlockExprs(f.body, UnsafeDepth(f)) && x in Parts(top.0)
    requires IsAlloc(x) || (u in fns && u.isUnsafe && Uses(x, FnSlots(f).Keys, u.name))
    ensures top.1 > 0 && (if IsAlloc(x) then "heap" in pkg.capabilities else "unsafe" in pkg.capabilities)
  {
    FnExprsPass(fns, pkg, f);
    Accepted(fns, pkg);
    SeenOrHidden(top.0);
    hide BlockExprs, Accepts, FnNames, Hidden, Visited, Parts, FnSlots, FnDiags;
    var g := GlobalsOf(fns, pkg);
    var sc: Scope :| sc.unsafes == top.1 && sc.vars.Keys <= FnSlots(f).Keys && TypeOf(g, sc, top.0).diags == [];
    if x in Visited(top.0) && !IsAlloc(x) {
      VisitedPass(g, sc, top.0, x);
      UsePasses(g, sc, x, FnSlots(f).Keys, u);
    } else {
      var a :| a in Visited(top.0) && IsAlloc(a);
      VisitedPass(g, sc, top.0, a);
      AllocPasses(g, sc, a);
    }
    if !IsAlloc(x) {
      UnsafeDeclared(fns, pkg, u);
    }
  }

  lemma {:induction false} UsePasses(g: Globals, sc: Scope, x: Expr, locals: set<string>, u: FnDecl)
    requires TypeOf(g, sc, x).diags == [] && Uses(x, locals, u.name) && sc.vars.Keys <= locals
    requires u.name in g.sigs && g.sigs[u.name] == SigOf(u) && u.isUnsafe
    ensures sc.unsafes > 0
  {
    hide ArgDiags;
  }

  lemma {:induction false} UnsafeDeclared(fns: seq<FnDecl>, pkg: Package, u: FnDecl)
    requires Accepts(fns, pkg) && u in fns && u.isUnsafe
    ensures "unsafe" in pkg.capabilities
  {
    var g := GlobalsOf(fns, pkg);
    NoneJoined(Register(fns, pkg.capabilities).diags + MainDiags(g.sigs, pkg), AllFnDiags(g, fns));
    NoneJoined(Register(fns, pkg.capabilities).diags, MainDiags(g.sigs, pkg));
    UnsafeRegistered(fns, pkg.capabilities, u);
  }

  lemma {:induction false} UnsafeRegistered(fns: seq<FnDecl>, capabilities: set<string>, u: FnDecl)
    requires Register(fns, capabilities).diags == [] && u in fns && u.isUnsafe
    ensures "unsafe" in capabilities
    decreases |fns|
  {
    var last := |fns| - 1;
    if u != fns[last] {
      assert fns == fns[..last] + [fns[last]];
      UnsafeRegistered(fns[..last], capabilities, u);
    }
  }
}
