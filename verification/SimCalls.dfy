/** Calling conventions: arguments pushed left to right, then popped into registers. */
module SimCalls {
  import opened Words
  import opened Machine
  import opened Emission
  import opened SimBase
  import opened SimOps

  lemma {:induction false} ArgRegsDiffer(i: nat, j: nat)
    requires i < MAX_REG_ARGS && j < MAX_REG_ARGS && i != j
    ensures ArgReg(i) != ArgReg(j) && ArgReg(i) != RSP
  {}

  /** After an expression, its value is pushed: everything from the old top of the stack up is kept. */
  lemma {:induction false} SimPush(m: Image, s: State, t: State) returns (u: State)
    requires Reaches(m, s, t) && t.status.Running? && t.pc < |m.code| && m.code[t.pc] == Push(RAX)
    requires Keeps(s, t) && s.rsp % 8 == 0 && s.rsp >= 8
    ensures Reaches(m, s, u) && u.status.Running? && u.pc == t.pc + 1 && u.rsp == s.rsp - 8 && u.rbp == s.rbp
    ensures Peek(u.mem, u.rsp) == t.rax && SameAbove(s, u, s.rsp) && u.trace == t.trace
  {
    u := Then(m, s, t, Push(RAX));
    forall a: int | a >= s.rsp
      ensures Peek(u.mem, a) == Peek(s.mem, a)
    {
      assert Peek(t.mem, a) == Peek(s.mem, a);
    }
  }

  /** The values pushed below `base`, in order. */
  ghost predicate Pushed(mem: map<int, Word>, base: int, ws: seq<Word>) {
    forall i :: 0 <= i < |ws| ==> Peek(mem, base - 8 * (i + 1)) == ws[i]
  }

  ghost predicate InRegs(s: State, from: nat, ws: seq<Word>)
    requires |ws| <= MAX_REG_ARGS
  {
    forall i: nat :: from <= i < |ws| ==> Get(s, ArgReg(i)) == ws[i]
  }

  /** A pop changes one register and the stack pointer. */
  lemma {:induction false} SimPop(m: Image, s: State, t: State, r: Reg) returns (u: State)
    requires Reaches(m, s, t) && t.status.Running? && t.pc < |m.code| && m.code[t.pc] == Pop(r)
    requires t.rsp % 8 == 0 && t.rsp + 8 < TWO64 && r != RSP && r != RBP
    ensures Reaches(m, s, u) && u.status.Running? && u.pc == t.pc + 1
    ensures u.rsp == t.rsp + 8 && u.rbp == t.rbp && u.mem == t.mem && u.trace == t.trace
    ensures Get(u, r) == Peek(t.mem, t.rsp)
    ensures forall q :: q != r && q != RSP ==> Get(u, q) == Get(t, q)
  {
    u := Then(m, s, t, Pop(r));
  }

  /** How many of `count` pushed arguments the pops leave behind. */
  function Unpopped(count: nat): nat {
    if count <= MAX_REG_ARGS then 0 else count - MAX_REG_ARGS
  }

  /** Popping up to six arguments fills their registers and restores the stack pointer. */
  lemma {:induction false} SimPops(m: Image, s: State, t: State, count: nat, ws: seq<Word>, base: Word) returns (u: State)
    requires count <= |ws| <= MAX_REG_ARGS
    requires Reaches(m, s, t) && t.status.Running? && Fits(m.code, t.pc, PopArgs(count))
    requires t.rsp % 8 == 0 && t.rsp == base - 8 * count
    requires Pushed(t.mem, base, ws) && InRegs(t, count, ws)
    ensures Reaches(m, s, u) && u.status.Running? && u.pc == t.pc + |PopArgs(count)|
    ensures u.rsp == base && u.rbp == t.rbp && u.mem == t.mem && u.trace == t.trace && InRegs(u, 0, ws)
    decreases count
  {
    if count == 0 {
      u := t;
    } else {
      var r := ArgReg(count - 1);
      FitsCat(m.code, t.pc, [Pop(r)], PopArgs(count - 1));
      FitsAt(m.code, t.pc, [Pop(r)], 0);
      var v := SimPop(m, s, t, r);
      assert Peek(t.mem, base - 8 * count) == ws[count - 1];
      forall i: nat | count - 1 <= i < |ws|
        ensures Get(v, ArgReg(i)) == ws[i]
      {
        if i >= count {
          ArgRegsDiffer(i, count - 1);
        }
      }
      u := SimPops(m, s, v, count - 1, ws, base);
    }
  }

  lemma {:induction false} PopsStopAtSix(count: nat)
    requires count > MAX_REG_ARGS
    ensures PopArgs(count) == PopArgs(MAX_REG_ARGS)
  {
    if count - 1 > MAX_REG_ARGS {
      PopsStopAtSix(count - 1);
    }
  }

  /** With more than six arguments the registers get the last six instead of the first,
      and the first ones stay on the stack: the stack pointer ends 8 bytes lower for each. */
  lemma {:induction false} PopsBeyondSix(m: Image, s: State, ws: seq<Word>, base: Word) returns (u: State)
    requires |ws| > MAX_REG_ARGS
    requires s.status.Running? && Fits(m.code, s.pc, PopArgs(|ws|))
    requires s.rsp % 8 == 0 && s.rsp == base - 8 * |ws| && Pushed(s.mem, base, ws)
    ensures Reaches(m, s, u) && u.status.Running? && u.pc == s.pc + |PopArgs(|ws|)|
    ensures u.rsp == base - 8 * Unpopped(|ws|) && InRegs(u, 0, ws[Unpopped(|ws|)..])
  {
    var last := ws[Unpopped(|ws|)..];
    var top: Word := base - 8 * Unpopped(|ws|);
    PopsStopAtSix(|ws|);
    ReachesRefl(m, s);
    forall i | 0 <= i < |last|
      ensures Peek(s.mem, top - 8 * (i + 1)) == last[i]
    {
      assert Peek(s.mem, base - 8 * ((Unpopped(|ws|) + i) + 1)) == ws[Unpopped(|ws|) + i];
    }
    u := SimPops(m, s, s, MAX_REG_ARGS, last, top);
  }

  /** The code of io.write emits one write event and leaves 0. */
  lemma {:induction false} SimWrite(m: Image, s: State, t: State, ws: seq<Word>, base: Word) returns (u: State)
    requires |ws| == 3
    requires Reaches(m, s, t) && t.status.Running? && Fits(m.code, t.pc, WriteCode())
    requires t.rsp % 8 == 0 && t.rsp == base - 24 && Pushed(t.mem, base, ws)
    ensures Reaches(m, s, u) && u.status.Running? && u.pc == t.pc + |WriteCode()|
    ensures u.rsp == base && u.rbp == t.rbp && u.mem == t.mem && u.rax == 0
    ensures u.trace == t.trace + [Write(ws[0], ws[1], ws[2])]
  {
    assert Peek(t.mem, base - 8 * 3) == ws[2] && Peek(t.mem, base - 8 * 2) == ws[1] && Peek(t.mem, base - 8 * 1) == ws[0];
    FitsAt(m.code, t.pc, WriteCode(), 3);
    FitsAt(m.code, t.pc, WriteCode(), 4);
    FitsAt(m.code, t.pc, WriteCode(), 5);
    hide Fits, Reaches, Pushed, Peek;
    var v := SimWritePops(m, s, t, base);
    u := SimWriteTail(m, s, v);
  }

  lemma {:induction false} SimWriteTail(m: Image, s: State, v: State) returns (u: State)
    requires Reaches(m, s, v) && v.status.Running? && v.pc + 2 < |m.code|
    requires m.code[v.pc] == MovImm(RAX, 1) && m.code[v.pc + 1] == Syscall && m.code[v.pc + 2] == XorEax
    ensures Reaches(m, s, u) && u.status.Running? && u.pc == v.pc + 3
    ensures u.rsp == v.rsp && u.rbp == v.rbp && u.mem == v.mem && u.rax == 0
    ensures u.trace == v.trace + [Write(v.rdi, v.rsi, v.rdx)]
  {
    hide Reaches, Peek, PushWord, Idiv, Slot, Compare;
    u := Then(m, s, v, MovImm(RAX, 1));
    u := Then(m, s, u, Syscall);
    u := Then(m, s, u, XorEax);
  }

  lemma {:induction false} SimWritePops(m: Image, s: State, t: State, base: Word) returns (u: State)
    requires Reaches(m, s, t) && t.status.Running? && Fits(m.code, t.pc, WriteCode())
    requires t.rsp % 8 == 0 && t.rsp == base - 24
    ensures Reaches(m, s, u) && u.status.Running? && u.pc == t.pc + 3
    ensures u.rsp == base && u.rbp == t.rbp && u.mem == t.mem && u.trace == t.trace
    ensures u.rdx == Peek(t.mem, base - 24) && u.rsi == Peek(t.mem, base - 16) && u.rdi == Peek(t.mem, base - 8)
  {
    FitsAt(m.code, t.pc, WriteCode(), 0);
    FitsAt(m.code, t.pc, WriteCode(), 1);
    FitsAt(m.code, t.pc, WriteCode(), 2);
    hide Fits, Reaches, Peek;
    var a := SimPop(m, s, t, RDX);
    var b := SimPop(m, s, a, RSI);
    u := SimPop(m, s, b, RDI);
    assert Get(b, RDX) == Get(a, RDX) && Get(u, RDX) == Get(b, RDX) && Get(u, RSI) == Get(b, RSI);
    assert Get(u, RDI) == u.rdi;
  }
}
