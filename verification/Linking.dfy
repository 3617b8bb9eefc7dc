/** A program beside its emitted code, and where each function of the program sits in that code. */
module Linking {
  import opened Ast
  import opened Words
  import opened Machine
  import opened Semantics
  import opened Emission
  import opened Labels
  import opened Slots
  import opened Resolution
  import opened SimBase
  import Codegen

  /** At most six arguments and parameters, distinct parameters, a slot for every assigned name,
      and no use of a function's name before a local of that name is declared. */
  ghost predicate Supported(fns: seq<FnDecl>, f: FnDecl) {
    && |f.params| <= MAX_REG_ARGS
    && BlockFits6(f.body)
    && Codegen.FnHasSlots(f)
    && FnClear(FnNames(fns), f)
    && Distinct(f.params)
  }

  /** A program and its emitted code, loaded. */
  datatype World = World(p: Program, pkg: Package, img: Image) {
    function Names(): set<string> {
      FnNames(p.fns)
    }
  }

  ghost predicate Valid(w: World) {
    && w.img.code == ProgramCode(w.p.fns, w.pkg)
    && w.img.stringAt == w.p.stringAt
    && |w.img.code| < TWO64
    && DistinctNames(w.p.fns)
    && StartIsFree(w.p.fns, w.pkg)
    && "mem.alloc" !in w.Names()
    && forall f :: f in w.p.fns ==> Supported(w.p.fns, f)
  }

  lemma {:induction false} LookupFinds(fns: seq<FnDecl>, name: string, strBase: nat)
    ensures Lookup(fns, name, strBase).Some? <==> name in FnNames(fns)
    ensures Lookup(fns, name, strBase).Some? ==>
      Lookup(fns, name, strBase).value.decl in fns && Lookup(fns, name, strBase).value.decl.name == name
    decreases fns
  {
    if fns != [] {
      LookupFinds(fns[1..], name, strBase + |BlockStrings(fns[0].body)|);
      assert fns == [fns[0]] + fns[1..];
      if name in FnNames(fns) && fns[0].name != name {
        var f :| f in fns && f.name == name;
        assert f in fns[1..];
      }
    }
  }

  /** A function found by name is in the emitted code, with its own string constants. */
  lemma {:induction false} FnPlaced(code: seq<Instr>, pc: nat, names: set<string>, fns: seq<FnDecl>, ln: nat, sn: nat, name: string)
    returns (at: nat, ln': nat)
    requires Fits(code, pc, FnsCode(names, fns, ln, sn)) && Lookup(fns, name, sn).Some?
    ensures Fits(code, at, FnCode(names, Lookup(fns, name, sn).value.decl, ln', Lookup(fns, name, sn).value.strBase))
    decreases fns
  {
    var c := FnCode(names, fns[0], ln, sn);
    var ln1, sn1 := ln + 1 + BlockLabels(fns[0].body), sn + |BlockStrings(fns[0].body)|;
    FitsCat(code, pc, c, FnsCode(names, fns[1..], ln1, sn1));
    if fns[0].name == name {
      at, ln' := pc, ln;
    } else {
      at, ln' := FnPlaced(code, pc + |c|, names, fns[1..], ln1, sn1, name);
    }
  }

  /** Where a function starts, and that a call to its name goes there. */
  lemma {:induction false} FnInProgram(w: World, name: string) returns (at: nat, ln: nat)
    requires Valid(w) && Lookup(w.p.fns, name, 0).Some?
    ensures var f := Lookup(w.p.fns, name, 0).value;
      Fits(w.img.code, at, FnCode(w.Names(), f.decl, ln, f.strBase)) && Target(w.img.code, FnLabel(name)) == Some(at)
  {
    var start := if w.pkg.runtime == "tiny" then StartCode() else [];
    assert w.img.code[0..|w.img.code|] == start + FnsCode(w.Names(), w.p.fns, 0, 0);
    FitsCat(w.img.code, 0, start, FnsCode(w.Names(), w.p.fns, 0, 0));
    at, ln := FnPlaced(w.img.code, |start|, w.Names(), w.p.fns, 0, 0, name);
    LookupFinds(w.p.fns, name, 0);
    var f := Lookup(w.p.fns, name, 0).value;
    FnNumbered(w.Names(), f.decl, ln, f.strBase);
    FitsAt(w.img.code, at, FnCode(w.Names(), f.decl, ln, f.strBase), 0);
    ProgramLabelsUnique(w.p.fns, w.pkg);
    TargetIs(w.img.code, at, FnLabel(name));
  }

  lemma {:induction false} LargestCovers(fns: seq<FnDecl>, f: FnDecl)
    requires f in fns
    ensures FrameRoom(f) <= LargestFrame(fns)
    decreases fns
  {
    if f != fns[0] {
      assert f in fns[1..];
      LargestCovers(fns[1..], f);
    }
  }
}
