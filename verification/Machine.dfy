/** The x86-64 subset that the code generator emits, as a small-step machine.
    Code, string constants and the stack live apart: code addresses are instruction
    indices, the stack is a memory of 8-byte cells addressed by their lowest byte.
    Flags are kept by `cmp` alone, the only instruction after which emitted code reads them. */
module Machine {
  import opened Ast
  import opened Words

  datatype Reg = RAX | RBX | RCX | RDX | RDI | RSI | R8 | R9 | RSP | RBP

  datatype Label =
    | FnLabel(name: string)
    | Local(prefix: string, id: nat)

  datatype Cond = CE | CNE | CL | CLE | CG | CGE

  datatype Instr =
    | Lab(l: Label)
    | Push(reg: Reg)
    | Pop(reg: Reg)
    | MovImm(reg: Reg, imm: nat)
    | MovReg(dst: Reg, src: Reg)
    | MovEdiEax
    | Load(offset: nat)               // mov rax, [rbp-offset]
    | Store(offset: nat, reg: Reg)    // mov [rbp-offset], reg
    | LeaString(index: nat)           // lea rax, [rel .Lstr<index>]
    | SubRsp(bytes: nat)
    | XorEax
    | NegRax
    | CmpRaxImm0
    | CmpRaxRbx
    | SetAl(cond: Cond)
    | MovzxRaxAl
    | AddRaxRbx
    | SubRaxRbx
    | ImulRaxRbx
    | AndRaxRbx
    | OrRaxRbx
    | Cqo
    | IdivRbx
    | Jmp(target: Label)
    | Je(target: Label)
    | CallTo(target: Label)
    | Return
    | Syscall

  datatype Event =
    | Write(fd: Word, buf: Word, len: Word)
    | Exit(code: Word)

  /** Running; ended by the exit system call; stopped by a divide error or by an exhausted stack;
      or in a configuration the subset gives no meaning. */
  datatype Status = Running | Exited | DivideTrap | StackFault | Undefined

  datatype State = State(
    status: Status,
    pc: nat,
    rax: Word, rbx: Word, rcx: Word, rdx: Word, rdi: Word, rsi: Word, r8: Word, r9: Word,
    rsp: Word, rbp: Word,
    zf: bool, sf: bool, of: bool,
    mem: map<int, Word>,
    trace: seq<Event>)

  /** A loaded program: its code and the address at which each string constant was placed. */
  datatype Image = Image(code: seq<Instr>, stringAt: nat -> Word)

  function Peek(mem: map<int, Word>, a: int): Word {
    if a in mem then mem[a] else 0
  }

  function Get(s: State, r: Reg): Word {
    match r
    case RAX => s.rax
    case RBX => s.rbx
    case RCX => s.rcx
    case RDX => s.rdx
    case RDI => s.rdi
    case RSI => s.rsi
    case R8 => s.r8
    case R9 => s.r9
    case RSP => s.rsp
    case RBP => s.rbp
  }

  function Set(s: State, r: Reg, w: Word): State {
    match r
    case RAX => s.(rax := w)
    case RBX => s.(rbx := w)
    case RCX => s.(rcx := w)
    case RDX => s.(rdx := w)
    case RDI => s.(rdi := w)
    case RSI => s.(rsi := w)
    case R8 => s.(r8 := w)
    case R9 => s.(r9 := w)
    case RSP => s.(rsp := w)
    case RBP => s.(rbp := w)
  }

  function Holds(s: State, c: Cond): bool {
    match c
    case CE => s.zf
    case CNE => !s.zf
    case CL => s.sf != s.of
    case CLE => s.zf || s.sf != s.of
    case CG => !s.zf && s.sf == s.of
    case CGE => s.sf == s.of
  }

  /** The flags of `cmp a, b`. */
  function Compare(s: State, a: Word, b: Word): State {
    var diff := (a - b) % TWO64;
    s.(zf := diff == 0, sf := diff >= TWO63,
       of := (a >= TWO63) != (b >= TWO63) && (diff >= TWO63) != (a >= TWO63))
  }

  /** The index of the first definition of a label. */
  function Target(code: seq<Instr>, l: Label): Option<nat> {
    if code == [] then None
    else if code[0] == Lab(l) then Some(0)
    else match Target(code[1..], l) case Some(k) => Some(k + 1) case None => None
  }

  function Next(s: State): State {
    s.(pc := s.pc + 1)
  }

  function Jump(code: seq<Instr>, s: State, l: Label): State {
    match Target(code, l)
    case Some(k) => s.(pc := k)
    case None => s.(status := Undefined)
  }

  /** The effect of a push, without moving on. An unaligned stack access has no meaning here. */
  function PushWord(s: State, w: Word): State {
    if s.rsp < 8 then s.(status := StackFault)
    else if s.rsp % 8 != 0 then s.(status := Undefined)
    else s.(rsp := s.rsp - 8, mem := s.mem[s.rsp - 8 := w])
  }

  function Slot(s: State, offset: nat): Option<int> {
    if s.rbp < offset || (s.rbp - offset) % 8 != 0 then None else Some(s.rbp - offset)
  }

  function Idiv(s: State): State {
    var high := Signed(s.rdx);
    var dividend := high * TWO64 + s.rax;
    if s.rbx == 0 then s.(status := DivideTrap)
    else
      var q := TruncDiv(dividend, Signed(s.rbx));
      if -TWO63 <= q < TWO63 then s.(rax := Wrap(q), rdx := Wrap(TruncRem(dividend, Signed(s.rbx))))
      else s.(status := DivideTrap)
  }

  function SystemCall(s: State): State {
    if s.rax == 1 then
      s.(trace := s.trace + [Write(s.rdi, s.rsi, s.rdx)], rax := s.rdx, rcx := 0)
    else if s.rax == 60 then
      s.(trace := s.trace + [Exit(s.rdi % TWO32)], status := Exited)
    else s.(status := Undefined)
  }

  function Execute(m: Image, i: Instr, s: State): State {
    match i
    case Lab(_) => Next(s)
    case Push(r) => var t := PushWord(s, Get(s, r)); if t.status.Running? then Next(t) else t
    case Pop(r) =>
      if s.rsp % 8 != 0 || s.rsp + 8 >= TWO64 then s.(status := Undefined)
      else Next(Set(s.(rsp := s.rsp + 8), r, Peek(s.mem, s.rsp)))
    case MovImm(r, imm) => if imm < TWO64 then Next(Set(s, r, imm)) else s.(status := Undefined)
    case MovReg(dst, src) => Next(Set(s, dst, Get(s, src)))
    case MovEdiEax => Next(s.(rdi := s.rax % TWO32))
    case Load(offset) =>
      (match Slot(s, offset)
       case Some(a) => Next(s.(rax := Peek(s.mem, a)))
       case None => s.(status := Undefined))
    case Store(offset, r) =>
      (match Slot(s, offset)
       case Some(a) => Next(s.(mem := s.mem[a := Get(s, r)]))
       case None => s.(status := Undefined))
    case LeaString(index) => Next(s.(rax := m.stringAt(index)))
    case SubRsp(n) => if s.rsp < n then s.(status := StackFault) else Next(s.(rsp := s.rsp - n))
    case XorEax => Next(s.(rax := 0))
    case NegRax => Next(s.(rax := (0 - s.rax) % TWO64))
    case CmpRaxImm0 => Next(Compare(s, s.rax, 0))
    case CmpRaxRbx => Next(Compare(s, s.rax, s.rbx))
    case SetAl(c) => Next(s.(rax := s.rax - s.rax % 256 + Bool(Holds(s, c))))
    case MovzxRaxAl => Next(s.(rax := s.rax % 256))
    case AddRaxRbx => Next(s.(rax := (s.rax + s.rbx) % TWO64))
    case SubRaxRbx => Next(s.(rax := (s.rax - s.rbx) % TWO64))
    case ImulRaxRbx => Next(s.(rax := (s.rax * s.rbx) % TWO64))
    case AndRaxRbx => Next(s.(rax := WordAnd(s.rax, s.rbx)))
    case OrRaxRbx => Next(s.(rax := WordOr(s.rax, s.rbx)))
    case Cqo => Next(s.(rdx := if s.rax < TWO63 then 0 else TWO64 - 1))
    case IdivRbx => var t := Idiv(s); if t.status.Running? then Next(t) else t
    case Jmp(l) => Jump(m.code, s, l)
    case Je(l) => if s.zf then Jump(m.code, s, l) else Next(s)
    case CallTo(l) =>
      if s.pc + 1 >= TWO64 then s.(status := Undefined)
      else
        var t := PushWord(s, s.pc + 1);
        if t.status.Running? then Jump(m.code, t, l) else t
    case Return =>
      if s.rsp % 8 != 0 || s.rsp + 8 >= TWO64 then s.(status := Undefined)
      else s.(rsp := s.rsp + 8, pc := Peek(s.mem, s.rsp))
    case Syscall => var t := SystemCall(s); if t.status.Running? then Next(t) else t
  }

  function Step(m: Image, s: State): State {
    if !s.status.Running? then s
    else if s.pc < |m.code| then Execute(m, m.code[s.pc], s)
    else s.(status := Undefined)
  }

  function Run(m: Image, s: State, steps: nat): State
    decreases steps
  {
    if steps == 0 then s else Run(m, Step(m, s), steps - 1)
  }

  ghost predicate Reaches(m: Image, s: State, t: State) {
    exists steps: nat :: Run(m, s, steps) == t
  }

  lemma {:induction false} RunAppend(m: Image, s: State, i: nat, j: nat)
    ensures Run(m, s, i + j) == Run(m, Run(m, s, i), j)
    decreases i
  {
    if i > 0 {
      RunAppend(m, Step(m, s), i - 1, j);
    }
  }

  lemma {:induction false} ReachesRefl(m: Image, s: State)
    ensures Reaches(m, s, s)
  {
    assert Run(m, s, 0) == s;
  }

  lemma {:induction false} ReachesTrans(m: Image, s: State, t: State, u: State)
    requires Reaches(m, s, t) && Reaches(m, t, u)
    ensures Reaches(m, s, u)
  {
    var i: nat :| Run(m, s, i) == t;
    var j: nat :| Run(m, t, j) == u;
    RunAppend(m, s, i, j);
  }

  lemma {:induction false} ReachesStep(m: Image, s: State, t: State)
    requires Reaches(m, s, t)
    ensures Reaches(m, s, Step(m, t))
  {
    assert Run(m, t, 1) == Step(m, t) by {
      assert Run(m, Step(m, t), 0) == Step(m, t);
    }
    assert Reaches(m, t, Step(m, t));
    ReachesTrans(m, s, t, Step(m, t));
  }

  /** The machine is deterministic: a run that stops has only one final state. */
  lemma {:induction false} StoppedIsUnique(m: Image, s: State, t: State, u: State)
    requires Reaches(m, s, t) && Reaches(m, s, u) && !t.status.Running? && !u.status.Running?
    ensures t == u
  {
    var i: nat :| Run(m, s, i) == t;
    var j: nat :| Run(m, s, j) == u;
    if i <= j {
      RunAppend(m, s, i, j - i);
      StoppedStays(m, t, j - i);
    } else {
      RunAppend(m, s, j, i - j);
      StoppedStays(m, u, i - j);
    }
  }

  lemma {:induction false} StoppedStays(m: Image, s: State, steps: nat)
    requires !s.status.Running?
    ensures Run(m, s, steps) == s
    decreases steps
  {
    if steps > 0 {
      StoppedStays(m, s, steps - 1);
    }
  }

  // ----- runs that go on -----

  /** That many steps do not stop the machine. */
  ghost predicate Lasts(m: Image, s: State, steps: nat) {
    Run(m, s, steps).status.Running?
  }

  lemma {:induction false} LastsFewer(m: Image, s: State, steps: nat, fewer: nat)
    requires Lasts(m, s, steps) && fewer <= steps
    ensures Lasts(m, s, fewer)
  {
    RunAppend(m, s, fewer, steps - fewer);
    if !Run(m, s, fewer).status.Running? {
      StoppedStays(m, Run(m, s, fewer), steps - fewer);
    }
  }

  /** What goes on from a state reached goes on as long from before. */
  lemma {:induction false} LastsFrom(m: Image, s: State, t: State, steps: nat)
    requires Reaches(m, s, t) && Lasts(m, t, steps)
    ensures Lasts(m, s, steps)
  {
    var i: nat :| Run(m, s, i) == t;
    RunAppend(m, s, i, steps);
    LastsFewer(m, s, i + steps, steps);
  }

  /** And a step longer, if a step lies between. */
  lemma {:induction false} LastsLonger(m: Image, s: State, t: State, steps: nat)
    requires Reaches(m, Step(m, s), t) && Lasts(m, t, steps)
    ensures Lasts(m, s, steps + 1)
  {
    LastsFrom(m, Step(m, s), t, steps);
  }
}
