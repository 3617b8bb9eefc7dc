/** The slots of a function's locals are distinct multiples of eight inside its frame. */
module Slots {
  import opened Ast
  import opened Words
  import opened Semantics
  import opened Emission

  ghost predicate Distinct(params: seq<Param>) {
    forall i, j :: 0 <= i < j < |params| ==> params[i].name != params[j].name
  }

  ghost function Names(params: seq<Param>): set<string> {
    if params == [] then {} else Names(params[..|params| - 1]) + {params[|params| - 1].name}
  }

  lemma {:induction false} NameAt(params: seq<Param>, i: nat)
    requires i < |params|
    ensures params[i].name in Names(params)
    decreases |params|
  {
    if i < |params| - 1 {
      NameAt(params[..|params| - 1], i);
    }
  }

  lemma {:induction false} NameFrom(params: seq<Param>, x: string) returns (i: nat)
    requires x in Names(params)
    ensures i < |params| && params[i].name == x
    decreases |params|
  {
    var last := |params| - 1;
    if params[last].name == x {
      i := last;
    } else {
      i := NameFrom(params[..last], x);
    }
  }

  /** An offset of one of the first n slots. */
  predicate IsSlot(offset: nat, n: nat) {
    offset % 8 == 0 && 8 <= offset <= 8 * n
  }

  ghost predicate WellSpread(locals: map<string, nat>) {
    && (forall x :: x in locals ==> IsSlot(locals[x], |locals|))
    && (forall x, y :: x in locals && y in locals && x != y ==> locals[x] != locals[y])
  }

  lemma {:induction false} NewSlot(n: nat)
    ensures IsSlot((n + 1) * 8, n + 1) && !IsSlot((n + 1) * 8, n)
    ensures forall offset :: IsSlot(offset, n) ==> IsSlot(offset, n + 1)
  {}

  lemma {:induction false} AddSlotSpread(name: string, locals: map<string, nat>)
    requires WellSpread(locals) && name !in locals
    ensures WellSpread(locals[name := (|locals| + 1) * 8])
    ensures |locals[name := (|locals| + 1) * 8]| == |locals| + 1
  {
    NewSlot(|locals|);
    AddOffset(name, locals, (|locals| + 1) * 8);
  }

  lemma {:induction false} AddOffset(name: string, locals: map<string, nat>, offset: nat)
    requires WellSpread(locals) && name !in locals
    requires IsSlot(offset, |locals| + 1) && !IsSlot(offset, |locals|)
    ensures WellSpread(locals[name := offset]) && |locals[name := offset]| == |locals| + 1
  {
    var after := locals[name := offset];
    assert after.Keys == locals.Keys + {name};
    assert |after| == |locals| + 1;
    forall x | x in after
      ensures IsSlot(after[x], |after|)
    {
      if x != name {
        assert IsSlot(locals[x], |locals|);
      }
    }
    forall x, y | x in after && y in after && x != y
      ensures after[x] != after[y]
    {
      if x != name && y != name {
        assert locals[x] != locals[y];
      } else {
        assert x != name ==> IsSlot(locals[x], |locals|);
        assert y != name ==> IsSlot(locals[y], |locals|);
      }
    }
  }

  lemma {:induction false} DeclareSpread(name: string, locals: map<string, nat>)
    requires WellSpread(locals)
    ensures WellSpread(Declare(name, locals)) && Extends(locals, Declare(name, locals))
  {
    if name !in locals {
      AddSlotSpread(name, locals);
    }
  }

  lemma {:induction false} ParamSlotsSpread(params: seq<Param>)
    requires Distinct(params)
    ensures WellSpread(ParamSlots(params)) && |ParamSlots(params)| == |params|
    ensures ParamSlots(params).Keys == Names(params)
    decreases |params|
  {
    if params != [] {
      var last := |params| - 1;
      ParamSlotsSpread(params[..last]);
      if params[last].name in Names(params[..last]) {
        var i := NameFrom(params[..last], params[last].name);
        assert false;
      }
      AddSlotSpread(params[last].name, ParamSlots(params[..last]));
    }
  }

  /** Locals already placed stay where they are. */
  ghost predicate Extends(before: map<string, nat>, after: map<string, nat>) {
    before.Keys <= after.Keys && forall x :: x in before ==> after[x] == before[x]
  }

  lemma {:induction false} BlockSlotsSpread(b: Block, locals: map<string, nat>)
    requires WellSpread(locals)
    ensures WellSpread(BlockSlots(b, locals)) && Extends(locals, BlockSlots(b, locals))
    decreases b
  {
    if b != [] {
      StmtSlotsSpread(b[0], locals);
      BlockSlotsSpread(b[1..], StmtSlots(b[0], locals));
    }
  }

  lemma {:induction false} StmtSlotsSpread(s: Stmt, locals: map<string, nat>)
    requires WellSpread(locals)
    ensures WellSpread(StmtSlots(s, locals)) && Extends(locals, StmtSlots(s, locals))
    decreases s
  {
    hide BlockSlots, WellSpread;
    match s
    case Let(name, _, _) => DeclareSpread(name, locals);
    case Mut(name, _, _) => DeclareSpread(name, locals);
    case If(_, t, arm) =>
      BlockSlotsSpread(t, locals);
      if arm.Else? {
        BlockSlotsSpread(arm.block, BlockSlots(t, locals));
      }
    case Loop(b) => BlockSlotsSpread(b, locals);
    case While(_, b) => BlockSlotsSpread(b, locals);
    case UnsafeBlock(b) => BlockSlotsSpread(b, locals);
    case _ =>
  }

  /** With distinct parameters, every local of a function has its own slot inside the frame. */
  lemma {:induction false} FnSlotsSpread(f: FnDecl)
    requires Distinct(f.params)
    ensures WellSpread(FnSlots(f)) && Extends(ParamSlots(f.params), FnSlots(f))
    ensures 8 * |FnSlots(f)| <= FrameSize(f) && FrameSize(f) % 16 == 0
  {
    ParamSlotsSpread(f.params);
    BlockSlotsSpread(f.body, ParamSlots(f.params));
  }

  /** The i-th parameter's value is what its name means on entry. */
  lemma {:induction false} BindAt(params: seq<Param>, ws: seq<Word>)
    requires |params| == |ws| && Distinct(params)
    ensures Bind(params, ws).Keys == Names(params)
    ensures forall i :: 0 <= i < |params| ==> params[i].name in Bind(params, ws) && Bind(params, ws)[params[i].name] == ws[i]
    decreases |params|
  {
    if params != [] {
      var last := |params| - 1;
      BindAt(params[..last], ws[..last]);
      forall i | 0 <= i < |params|
        ensures params[i].name in Bind(params, ws) && Bind(params, ws)[params[i].name] == ws[i]
      {
        if i < last {
          assert params[..last][i] == params[i] && ws[..last][i] == ws[i];
        }
      }
    }
  }

  // ----- slots and declared names -----

  lemma {:induction false} AmongBoth(a: seq<string>, b: seq<string>)
    ensures Among(a + b) == Among(a) + Among(b)
  {}

  lemma {:induction false} BlockSlotsNames(b: Block, locals: map<string, nat>)
    ensures BlockSlots(b, locals).Keys == locals.Keys + Among(BlockNames(b))
    decreases b
  {
    hide StmtSlots, StmtNames;
    if b != [] {
      StmtSlotsNames(b[0], locals);
      BlockSlotsNames(b[1..], StmtSlots(b[0], locals));
      AmongBoth(StmtNames(b[0]), BlockNames(b[1..]));
    }
  }

  lemma {:induction false} StmtSlotsNames(s: Stmt, locals: map<string, nat>)
    ensures StmtSlots(s, locals).Keys == locals.Keys + Among(StmtNames(s))
    decreases s
  {
    hide BlockSlots, BlockNames;
    match s
    case Let(name, _, _) => DeclareNames(name, locals);
    case Mut(name, _, _) => DeclareNames(name, locals);
    case If(_, t, NoElse) => BlockSlotsNames(t, locals);
    case If(_, t, Else(e)) =>
      BlockSlotsNames(t, locals);
      BlockSlotsNames(e, BlockSlots(t, locals));
      AmongBoth(BlockNames(t), BlockNames(e));
    case Loop(b) => BlockSlotsNames(b, locals);
    case While(_, b) => BlockSlotsNames(b, locals);
    case UnsafeBlock(b) => BlockSlotsNames(b, locals);
    case _ => assert Among([]) == {};
  }

  lemma {:induction false} DeclareNames(name: string, locals: map<string, nat>)
    ensures Declare(name, locals).Keys == locals.Keys + Among([name])
  {}

  lemma {:induction false} ParamsNamed(params: seq<Param>)
    ensures Names(params) == Among(ParamNames(params)) == ParamSlots(params).Keys
    decreases |params|
  {
    if params != [] {
      ParamsNamed(params[..|params| - 1]);
    }
  }

  /** A function has slots for exactly the names it declares. */
  lemma {:induction false} SlotsAreDeclared(f: FnDecl)
    ensures FnSlots(f).Keys == Among(DeclaredNames(f))
  {
    ParamsNamed(f.params);
    BlockSlotsNames(f.body, ParamSlots(f.params));
    hide ParamNames, BlockNames, ParamSlots, BlockSlots;
  }
}
