/** Entering and leaving a function. */
module SimFrame {
  import opened Ast
  import opened Words
  import opened Machine
  import opened Semantics
  import opened Emission
  import opened Slots
  import opened SimBase
  import opened SimOps
  import opened SimCalls

  /** The first i parameters are in their slots. */
  ghost predicate ParamsStored(mem: map<int, Word>, rbp: int, params: seq<Param>, locals: map<string, nat>, ws: seq<Word>, i: nat)
    requires |params| == |ws| && i <= |ws|
    requires forall k :: 0 <= k < |params| ==> params[k].name in locals
  {
    forall k :: 0 <= k < i ==> Peek(mem, rbp - locals[params[k].name]) == ws[k]
  }

  /** The slots of the other locals are as they were. */
  ghost predicate OthersKept(mem: map<int, Word>, after: map<int, Word>, rbp: int, params: seq<Param>, locals: map<string, nat>) {
    forall x :: x in locals && (forall k :: 0 <= k < |params| ==> params[k].name != x) ==>
      Peek(after, rbp - locals[x]) == Peek(mem, rbp - locals[x])
  }

  /** Storing the i-th parameter. */
  lemma {:induction false} SimStoreParam(m: Image, s: State, t: State, params: seq<Param>, locals: map<string, nat>, ws: seq<Word>, i: nat)
    returns (v: State)
    requires |params| == |ws| <= MAX_REG_ARGS && i < |ws| && Distinct(params)
    requires forall k :: 0 <= k < |params| ==> params[k].name in locals
    requires Reaches(m, s, t) && t.status.Running?
    requires t.pc < |m.code| && m.code[t.pc] == Instr.Store(locals[params[i].name], ArgReg(i))
    requires InRegs(t, 0, ws) && PartHolds(locals, map[], t) && ParamsStored(t.mem, t.rbp, params, locals, ws, i)
    ensures Reaches(m, s, v) && v.status.Running? && v.pc == t.pc + 1
    ensures v.rsp == t.rsp && v.rbp == t.rbp && v.trace == t.trace && SameAbove(t, v, t.rbp)
    ensures InRegs(v, 0, ws) && PartHolds(locals, map[], v) && ParamsStored(v.mem, v.rbp, params, locals, ws, i + 1)
    ensures OthersKept(t.mem, v.mem, t.rbp, params, locals)
  {
    var x := params[i].name;
    SlotInFrame(locals, map[], t, x);
    assert IsSlot(locals[x], |locals|);
    v := Then(m, s, t, Instr.Store(locals[x], ArgReg(i)));
    hide Reaches, Step;
    forall k: nat | k < |ws|
      ensures Get(v, ArgReg(k)) == ws[k]
    {
      assert Get(t, ArgReg(k)) == ws[k];
      ArgRegKept(t, v, k);
    }
    forall k | 0 <= k < i + 1
      ensures Peek(v.mem, v.rbp - locals[params[k].name]) == ws[k]
    {
      if k < i {
        assert params[k].name != x;
      }
    }
  }

  lemma {:induction false} SimStoreParams(m: Image, s: State, t: State, params: seq<Param>, locals: map<string, nat>, ws: seq<Word>, i: nat)
    returns (u: State)
    requires |params| == |ws| <= MAX_REG_ARGS && i <= |ws| && Distinct(params)
    requires forall k :: 0 <= k < |params| ==> params[k].name in locals
    requires Reaches(m, s, t) && t.status.Running? && Fits(m.code, t.pc, StoreParams(params, locals, i))
    requires InRegs(t, 0, ws) && PartHolds(locals, map[], t) && ParamsStored(t.mem, t.rbp, params, locals, ws, i)
    ensures Reaches(m, s, u) && u.status.Running? && u.pc == t.pc + |StoreParams(params, locals, i)|
    ensures u.rsp == t.rsp && u.rbp == t.rbp && u.trace == t.trace && SameAbove(t, u, t.rbp)
    ensures ParamsStored(u.mem, u.rbp, params, locals, ws, |ws|) && OthersKept(t.mem, u.mem, t.rbp, params, locals)
    decreases |params| - i
  {
    hide Fits, PartHolds, InRegs, ParamsStored, Reaches, Get;
    if i == |params| {
      u := t;
    } else {
      var store := Instr.Store(locals[params[i].name], ArgReg(i));
      FitsCat(m.code, t.pc, [store], StoreParams(params, locals, i + 1));
      FitsAt(m.code, t.pc, [store], 0);
      var v := SimStoreParam(m, s, t, params, locals, ws, i);
      u := SimStoreParams(m, s, v, params, locals, ws, i + 1);
    }
  }

  lemma {:induction false} ArgRegKept(t: State, v: State, k: nat)
    requires k < MAX_REG_ARGS
    requires t.rdi == v.rdi && t.rsi == v.rsi && t.rdx == v.rdx && t.rcx == v.rcx && t.r8 == v.r8 && t.r9 == v.r9
    ensures Get(v, ArgReg(k)) == Get(t, ArgReg(k))
  {}

  lemma {:induction false} ParamsAreLocals(f: FnDecl)
    requires Distinct(f.params)
    ensures forall k :: 0 <= k < |f.params| ==> f.params[k].name in FnSlots(f)
  {
    FnSlotsSpread(f);
    ParamSlotsSpread(f.params);
    forall k | 0 <= k < |f.params|
      ensures f.params[k].name in FnSlots(f)
    {
      NameAt(f.params, k);
    }
  }

  /** On entry the frame is built below the return address and holds exactly the parameters. */
  lemma {:induction false} SimPrologue(m: Image, s: State, f: FnDecl, ws: seq<Word>) returns (u: State)
    requires |f.params| == |ws| <= MAX_REG_ARGS && Distinct(f.params)
    requires Ready(s, s.pc, 8 + FrameSize(f)) && Fits(m.code, s.pc, Prologue(f)) && InRegs(s, 0, ws)
    ensures Reaches(m, s, u) && Ready(u, s.pc + |Prologue(f)|, 0) && u.trace == s.trace
    ensures u.rbp == s.rsp - 8 && u.rsp == s.rsp - 8 - FrameSize(f) && Peek(u.mem, u.rbp) == s.rbp && SameAbove(s, u, s.rsp)
    ensures PartHolds(FnSlots(f), Bind(f.params, ws), u) && OthersKept(s.mem, u.mem, u.rbp, f.params, FnSlots(f))
  {
    hide FnSlots, Bind, WellSpread, Reaches, Fits;
    var first := [Lab(FnLabel(f.name)), Push(RBP), MovReg(RBP, RSP)];
    var stores := StoreParams(f.params, FnSlots(f), 0);
    FitsCat(m.code, s.pc, first, GrowCode(f) + stores);
    FitsCat(m.code, s.pc + 3, GrowCode(f), stores);
    ParamsAreLocals(f);
    var t := SimPushFrame(m, s, f);
    t := SimGrow(m, s, t, f);
    u := SimStoreParams(m, s, t, f.params, FnSlots(f), ws, 0);
    ParamsHold(f, ws, t, u);
    PushKept(s.mem, t.mem, u.mem, u.rbp, s.rbp, f);
  }

  /** Saving the frame pointer touches no slot. */
  lemma {:induction false} PushKept(mem: map<int, Word>, pushed: map<int, Word>, after: map<int, Word>, rbp: int, saved: Word, f: FnDecl)
    requires Distinct(f.params) && pushed == mem[rbp := saved] && OthersKept(pushed, after, rbp, f.params, FnSlots(f))
    ensures OthersKept(mem, after, rbp, f.params, FnSlots(f))
  {
    FnSlotsSpread(f);
    hide FnSlots;
    assert forall x :: x in FnSlots(f) ==> IsSlot(FnSlots(f)[x], |FnSlots(f)|);
  }

  lemma {:induction false} SimGrow(m: Image, s: State, t: State, f: FnDecl) returns (u: State)
    requires Distinct(f.params)
    requires Reaches(m, s, t) && t.status.Running? && Fits(m.code, t.pc, GrowCode(f))
    requires t.rsp == t.rbp && t.rsp % 8 == 0 && t.rsp >= FrameSize(f)
    ensures Reaches(m, s, u) && u.status.Running? && u.pc == t.pc + |GrowCode(f)| && u.trace == t.trace && u.mem == t.mem
    ensures u.rbp == t.rbp && u.rsp == t.rsp - FrameSize(f) && u.rsp % 8 == 0 && PartHolds(FnSlots(f), map[], u)
    ensures forall k: nat :: k < MAX_REG_ARGS ==> Get(u, ArgReg(k)) == Get(t, ArgReg(k))
  {
    u := t;
    if FrameSize(f) > 0 {
      FitsAt(m.code, t.pc, GrowCode(f), 0);
      u := Then(m, s, t, SubRsp(FrameSize(f)));
      forall k: nat | k < MAX_REG_ARGS
        ensures Get(u, ArgReg(k)) == Get(t, ArgReg(k))
      {
        ArgRegKept(t, u, k);
      }
    }
    FnSlotsSpread(f);
  }

  lemma {:induction false} ParamsHold(f: FnDecl, ws: seq<Word>, t: State, u: State)
    requires |f.params| == |ws| && Distinct(f.params)
    requires forall k :: 0 <= k < |f.params| ==> f.params[k].name in FnSlots(f)
    requires PartHolds(FnSlots(f), map[], t) && u.rsp == t.rsp && u.rbp == t.rbp
    requires ParamsStored(u.mem, u.rbp, f.params, FnSlots(f), ws, |ws|)
    ensures PartHolds(FnSlots(f), Bind(f.params, ws), u)
  {
    hide FnSlots, Bind, WellSpread;
    BindAt(f.params, ws);
    forall x | x in Bind(f.params, ws)
      ensures x in FnSlots(f) && Peek(u.mem, u.rbp - FnSlots(f)[x]) == Bind(f.params, ws)[x]
    {
      var i := NameFrom(f.params, x);
    }
  }

  lemma {:induction false} SimPushFrame(m: Image, s: State, f: FnDecl) returns (t: State)
    requires Ready(s, s.pc, 8) && Fits(m.code, s.pc, [Lab(FnLabel(f.name)), Push(RBP), MovReg(RBP, RSP)])
    ensures Reaches(m, s, t) && t.status.Running? && t.pc == s.pc + 3 && t.trace == s.trace
    ensures t.rbp == t.rsp == s.rsp - 8 && Peek(t.mem, t.rbp) == s.rbp && SameAbove(s, t, s.rsp) && t.mem == s.mem[t.rbp := s.rbp]
    ensures forall k: nat :: k < MAX_REG_ARGS ==> Get(t, ArgReg(k)) == Get(s, ArgReg(k))
  {
    var first := [Lab(FnLabel(f.name)), Push(RBP), MovReg(RBP, RSP)];
    FitsAt(m.code, s.pc, first, 0);
    FitsAt(m.code, s.pc, first, 1);
    FitsAt(m.code, s.pc, first, 2);
    t := Step1(m, s, Lab(FnLabel(f.name)));
    t := Then(m, s, t, Push(RBP));
    t := Then(m, s, t, MovReg(RBP, RSP));
    forall k: nat | k < MAX_REG_ARGS
      ensures Get(t, ArgReg(k)) == Get(s, ArgReg(k))
    {
      ArgRegKept(s, t, k);
    }
  }

  /** The stack pointer back to the frame pointer. */
  lemma {:induction false} SimUnwind(m: Image, s: State, t: State, end: Label) returns (u: State)
    requires Reaches(m, s, t) && t.status.Running? && t.pc + 1 < |m.code|
    requires m.code[t.pc] == Lab(end) && m.code[t.pc + 1] == MovReg(RSP, RBP)
    ensures Reaches(m, s, u) && u == t.(pc := t.pc + 2, rsp := t.rbp)
  {
    hide Reaches, Step;
    u := Then(m, s, t, Lab(end));
    u := Then(m, s, u, MovReg(RSP, RBP));
  }

  /** The frame pointer and the return address from the stack. */
  lemma {:induction false} SimRet(m: Image, s: State, t: State) returns (u: State)
    requires Reaches(m, s, t) && t.status.Running? && t.pc + 1 < |m.code|
    requires m.code[t.pc] == Pop(RBP) && m.code[t.pc + 1] == Return
    requires t.rsp % 8 == 0 && t.rsp + 16 < TWO64
    ensures Reaches(m, s, u) && u.status.Running? && u.pc == Peek(t.mem, t.rsp + 8) && u.rsp == t.rsp + 16
    ensures u.rbp == Peek(t.mem, t.rsp) && u.mem == t.mem && u.trace == t.trace && u.rax == t.rax
  {
    hide Reaches, Step;
    u := Then(m, s, t, Pop(RBP));
    u := Then(m, s, u, Return);
  }

  /** From a function's end label: the frame goes, the caller's frame pointer comes back, control returns. */
  lemma {:induction false} SimReturn(m: Image, s: State, t: State, end: Label) returns (u: State)
    requires Reaches(m, s, t) && t.status.Running? && Fits(m.code, t.pc, [Lab(end), MovReg(RSP, RBP), Pop(RBP), Return])
    requires t.rbp % 8 == 0 && t.rbp + 16 < TWO64
    ensures Reaches(m, s, u) && u.status.Running? && u.pc == Peek(t.mem, t.rbp + 8) && u.rsp == t.rbp + 16
    ensures u.rbp == Peek(t.mem, t.rbp) && u.mem == t.mem && u.trace == t.trace && u.rax == t.rax
  {
    hide Fits, Reaches, Step;
    var back := [Lab(end), MovReg(RSP, RBP), Pop(RBP), Return];
    FitsAt(m.code, t.pc, back, 0);
    FitsAt(m.code, t.pc, back, 1);
    FitsAt(m.code, t.pc, back, 2);
    FitsAt(m.code, t.pc, back, 3);
    u := SimUnwind(m, s, t, end);
    u := SimRet(m, s, u);
  }
}
