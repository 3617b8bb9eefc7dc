/** The scoped symbol table of the assembly compiler: one flat array of symbols, with the symbol count
    and the slot cursor saved at each scope entry and restored at its exit. The parallel arrays of the
    original are one array of records here. */
module SymbolTable {
  import opened Ast

  const SYM_CAP: nat := 64
  const SCOPE_CAP: nat := 32

  /** A name in the source text. */
  datatype Token = Token(start: nat, len: nat)

  datatype Symbol = Symbol(name: Token, mutable: bool, ty: nat, slot: nat)

  /** The source text, and how many slots a value of each type takes. */
  datatype Context = Context(src: string, slotsOf: nat -> nat)

  predicate InSource(c: Context, t: Token) {
    t.start + t.len <= |c.src|
  }

  function Text(c: Context, t: Token): string {
    if InSource(c, t) then c.src[t.start..t.start + t.len] else ""
  }

  function Width(c: Context, ty: nat): nat {
    if c.slotsOf(ty) == 0 then 1 else c.slotsOf(ty)
  }

  // ----- the table as a stack of scopes, innermost last -----

  type Scope = seq<Symbol>

  /** The scopes, and the most slots ever in use. */
  datatype Table = Table(stack: seq<Scope>, high: nat)

  datatype Op = Enter | Leave | Declare(name: Token, mutable: bool, ty: nat)

  function Flat(stack: seq<Scope>): seq<Symbol> {
    if stack == [] then [] else Flat(stack[..|stack| - 1]) + stack[|stack| - 1]
  }

  /** The latest symbol of that name. */
  function Latest(c: Context, syms: seq<Symbol>, name: string): Option<Symbol> {
    if syms == [] then None
    else if Text(c, syms[|syms| - 1].name) == name then Some(syms[|syms| - 1])
    else Latest(c, syms[..|syms| - 1], name)
  }

  /** What a name means: the innermost scope that declares it decides. */
  function Lookup(c: Context, stack: seq<Scope>, name: string): Option<Symbol> {
    if stack == [] then None
    else
      match Latest(c, stack[|stack| - 1], name)
      case Some(s) => Some(s)
      case None => Lookup(c, stack[..|stack| - 1], name)
  }

  function Cursor(stack: seq<Scope>): nat {
    var syms := Flat(stack);
    if syms == [] then 0 else syms[|syms| - 1].slot
  }

  function Max(a: nat, b: nat): nat {
    if a < b then b else a
  }

  function NewSymbol(c: Context, stack: seq<Scope>, name: Token, mutable: bool, ty: nat): Symbol {
    Symbol(name, mutable, ty, Cursor(stack) + Width(c, ty))
  }

  predicate CanAdd(c: Context, stack: seq<Scope>, name: Token)
    requires stack != []
  {
    Latest(c, stack[|stack| - 1], Text(c, name)).None? && |Flat(stack)| < SYM_CAP
  }

  function Step(c: Context, t: Table, op: Op): (r: Table)
    requires t.stack != []
    ensures r.stack != []
  {
    match op
    case Enter => if |t.stack| - 1 < SCOPE_CAP then t.(stack := t.stack + [[]]) else t
    case Leave => if |t.stack| > 1 then t.(stack := t.stack[..|t.stack| - 1]) else t
    case Declare(name, mutable, ty) =>
      if !CanAdd(c, t.stack, name) then t
      else
        var s := NewSymbol(c, t.stack, name, mutable, ty);
        var last := |t.stack| - 1;
        Table(t.stack[last := t.stack[last] + [s]], Max(t.high, s.slot))
  }

  function Run(c: Context, t: Table, ops: seq<Op>): (r: Table)
    requires t.stack != []
    ensures r.stack != []
    decreases ops
  {
    if ops == [] then t else Run(c, Step(c, t, ops[0]), ops[1..])
  }

  const EMPTY := Table([[]], 0)

  // ----- what every run keeps -----

  /** The last slot taken before the i-th symbol. */
  function Before(syms: seq<Symbol>, i: nat): nat
    requires i < |syms|
  {
    if i == 0 then 0 else syms[i - 1].slot
  }

  /** Slots of the symbols follow one another: each symbol owns the slots after those of its predecessor. */
  ghost predicate Contiguous(c: Context, syms: seq<Symbol>) {
    forall i {:trigger Before(syms, i)} :: 0 <= i < |syms| ==> syms[i].slot == Before(syms, i) + Width(c, syms[i].ty)
  }

  ghost predicate NoDuplicates(c: Context, scope: Scope) {
    forall i, j :: 0 <= i < j < |scope| ==> Text(c, scope[i].name) != Text(c, scope[j].name)
  }

  ghost predicate Sound(c: Context, t: Table) {
    && t.stack != [] && |t.stack| - 1 <= SCOPE_CAP && |Flat(t.stack)| <= SYM_CAP
    && Contiguous(c, Flat(t.stack))
    && (forall k :: 0 <= k < |t.stack| ==> NoDuplicates(c, t.stack[k]))
    && Cursor(t.stack) <= t.high
  }

  lemma {:induction false} LatestStart(c: Context, syms: seq<Symbol>, name: string)
    ensures Latest(c, syms[..0], name) == None
  {}

  lemma {:induction false} LatestStep(c: Context, syms: seq<Symbol>, i: nat, name: string)
    requires i < |syms|
    ensures Latest(c, syms[..i + 1], name) == if Text(c, syms[i].name) == name then Some(syms[i]) else Latest(c, syms[..i], name)
  {
    assert syms[..i + 1][..i] == syms[..i];
  }

  lemma {:induction false} LatestNone(c: Context, syms: seq<Symbol>, name: string)
    ensures Latest(c, syms, name).None? <==> forall i :: 0 <= i < |syms| ==> Text(c, syms[i].name) != name
    decreases syms
  {
    if syms != [] {
      LatestNone(c, syms[..|syms| - 1], name);
    }
  }

  lemma {:induction false} FlatLast(stack: seq<Scope>, scope: Scope, s: Symbol)
    requires stack != []
    ensures Flat(stack[|stack| - 1 := stack[|stack| - 1] + [s]]) == Flat(stack) + [s]
  {
    var last := |stack| - 1;
    assert stack[last := stack[last] + [s]][..last] == stack[..last];
  }

  lemma {:induction false} StepSound(c: Context, t: Table, op: Op)
    requires Sound(c, t)
    ensures Sound(c, Step(c, t, op)) && t.high <= Step(c, t, op).high
  {
    match op
    case Enter =>
      if |t.stack| - 1 < SCOPE_CAP {
        EnterFlat(t.stack);
      }
    case Leave =>
      if |t.stack| > 1 {
        PopSound(c, t);
      }
    case Declare(name, mutable, ty) =>
      if CanAdd(c, t.stack, name) {
        AddSound(c, t, name, mutable, ty);
      }
  }

  lemma {:induction false} EnterFlat(stack: seq<Scope>)
    ensures Flat(stack + [[]]) == Flat(stack) && Cursor(stack + [[]]) == Cursor(stack)
  {
    assert (stack + [[]])[..|stack|] == stack;
  }

  lemma {:induction false} PopSound(c: Context, t: Table)
    requires Sound(c, t) && |t.stack| > 1
    ensures Sound(c, Table(t.stack[..|t.stack| - 1], t.high))
  {
    var last := |t.stack| - 1;
    var all, front := Flat(t.stack), Flat(t.stack[..last]);
    assert all == front + t.stack[last];
    assert forall i :: 0 <= i < |front| ==> front[i] == all[i];
    if 0 < |front| < |all| {
      SlotsApart(c, all, |front| - 1, |all| - 1);
    }
    assert forall k :: 0 <= k < last ==> t.stack[..last][k] == t.stack[k];
    assert Contiguous(c, front) by {
      forall i | 0 <= i < |front|
        ensures front[i].slot == Before(front, i) + Width(c, front[i].ty)
      {
        assert all[i].slot == Before(all, i) + Width(c, all[i].ty);
      }
    }
  }

  lemma {:induction false} SlotsApart(c: Context, syms: seq<Symbol>, i: nat, j: nat)
    requires Contiguous(c, syms) && i < j < |syms|
    ensures syms[i].slot + Width(c, syms[j].ty) <= syms[j].slot
    decreases j
  {
    assert syms[j].slot == Before(syms, j) + Width(c, syms[j].ty);
    if i < j - 1 {
      SlotsApart(c, syms, i, j - 1);
    }
  }

  lemma {:induction false} AddSound(c: Context, t: Table, name: Token, mutable: bool, ty: nat)
    requires Sound(c, t) && CanAdd(c, t.stack, name)
    ensures Sound(c, Step(c, t, Declare(name, mutable, ty)))
  {
    var last := |t.stack| - 1;
    var s := NewSymbol(c, t.stack, name, mutable, ty);
    FlatLast(t.stack, t.stack[last], s);
    ContiguousSnoc(c, Flat(t.stack), s);
    LatestNone(c, t.stack[last], Text(c, name));
  }

  lemma {:induction false} ContiguousSnoc(c: Context, syms: seq<Symbol>, s: Symbol)
    requires Contiguous(c, syms) && s.slot == (if syms == [] then 0 else syms[|syms| - 1].slot) + Width(c, s.ty)
    ensures Contiguous(c, syms + [s])
  {
    var all := syms + [s];
    forall i | 0 <= i < |all|
      ensures all[i].slot == Before(all, i) + Width(c, all[i].ty)
    {
      if i < |syms| {
        assert syms[i].slot == Before(syms, i) + Width(c, syms[i].ty);
      }
    }
  }

  lemma {:induction false} RunSound(c: Context, t: Table, ops: seq<Op>)
    requires Sound(c, t)
    ensures Sound(c, Run(c, t, ops)) && t.high <= Run(c, t, ops).high
    decreases ops
  {
    if ops != [] {
      StepSound(c, t, ops[0]);
      RunSound(c, Step(c, t, ops[0]), ops[1..]);
    }
  }

  /** The slots of a symbol. */
  ghost predicate Owns(c: Context, s: Symbol, slot: nat) {
    s.slot - Width(c, s.ty) < slot <= s.slot
  }

  /** After any run, live symbols own disjoint slots, all of them between 1 and the high-water mark. */
  lemma {:induction false} LiveSlotsDisjoint(c: Context, ops: seq<Op>, i: nat, j: nat, slot: nat)
    requires i < j < |Flat(Run(c, EMPTY, ops).stack)|
    ensures var syms := Flat(Run(c, EMPTY, ops).stack);
      && !(Owns(c, syms[i], slot) && Owns(c, syms[j], slot))
      && (Owns(c, syms[j], slot) || Owns(c, syms[i], slot) ==> 1 <= slot <= Run(c, EMPTY, ops).high)
  {
    hide Flat, Run, Sound, Owns, Contiguous;
    EmptySound(c);
    RunSound(c, EMPTY, ops);
    SoundSlots(c, Run(c, EMPTY, ops));
    DisjointIn(c, Flat(Run(c, EMPTY, ops).stack), i, j, slot);
  }

  lemma {:induction false} SoundSlots(c: Context, t: Table)
    requires Sound(c, t)
    ensures Contiguous(c, Flat(t.stack)) && Cursor(t.stack) <= t.high
  {}

  lemma {:induction false} DisjointIn(c: Context, syms: seq<Symbol>, i: nat, j: nat, slot: nat)
    requires Contiguous(c, syms) && i < j < |syms|
    ensures !(Owns(c, syms[i], slot) && Owns(c, syms[j], slot))
    ensures Owns(c, syms[i], slot) || Owns(c, syms[j], slot) ==> 1 <= slot <= syms[|syms| - 1].slot
  {
    SlotsApart(c, syms, i, j);
    assert syms[i].slot == Before(syms, i) + Width(c, syms[i].ty);
    assert syms[j].slot == Before(syms, j) + Width(c, syms[j].ty);
    if j < |syms| - 1 {
      SlotsApart(c, syms, j, |syms| - 1);
    }
  }

  lemma {:induction false} EmptySound(c: Context)
    ensures Sound(c, EMPTY)
  {
    assert EMPTY.stack[..0] == [];
  }

  /** Every slot ever given out is at most the final high-water mark: the frame is large enough for the whole run. */
  lemma {:induction false} HighCoversRun(c: Context, before: seq<Op>, name: Token, mutable: bool, ty: nat, after: seq<Op>)
    requires CanAdd(c, Run(c, EMPTY, before).stack, name)
    ensures NewSymbol(c, Run(c, EMPTY, before).stack, name, mutable, ty).slot
         <= Run(c, EMPTY, before + [Declare(name, mutable, ty)] + after).high
  {
    hide Flat, Run, Sound, Step, CanAdd, NewSymbol;
    var op := Declare(name, mutable, ty);
    var t := Run(c, EMPTY, before);
    EmptySound(c);
    RunSound(c, EMPTY, before);
    StepSound(c, t, op);
    RunSound(c, Step(c, t, op), after);
    RunAppend(c, EMPTY, before, [op] + after);
    assert before + [op] + after == before + ([op] + after);
    RunFirst(c, t, op, after);
    AddRaises(c, t, name, mutable, ty);
  }

  lemma {:induction false} RunFirst(c: Context, t: Table, op: Op, after: seq<Op>)
    requires t.stack != []
    ensures Run(c, t, [op] + after) == Run(c, Step(c, t, op), after)
  {
    hide Step;
    assert ([op] + after)[1..] == after;
  }

  lemma {:induction false} AddRaises(c: Context, t: Table, name: Token, mutable: bool, ty: nat)
    requires t.stack != [] && CanAdd(c, t.stack, name)
    ensures NewSymbol(c, t.stack, name, mutable, ty).slot <= Step(c, t, Declare(name, mutable, ty)).high
  {
    hide CanAdd, NewSymbol;
  }

  lemma {:induction false} RunAppend(c: Context, t: Table, a: seq<Op>, b: seq<Op>)
    requires t.stack != []
    ensures Run(c, t, a + b) == Run(c, Run(c, t, a), b)
    decreases a
  {
    if a == [] {
      assert a + b == b;
    } else {
      RunAppend(c, Step(c, t, a[0]), a[1..], b);
      assert (a + b)[1..] == a[1..] + b;
    }
  }

  // ----- names -----

  ghost predicate DeclaredIn(c: Context, scope: Scope, name: string) {
    exists i :: 0 <= i < |scope| && Text(c, scope[i].name) == name
  }

  /** A name means the symbol of scope k exactly when k is the innermost scope to declare it. */
  lemma {:induction false} InnermostWins(c: Context, stack: seq<Scope>, name: string, k: nat, i: nat)
    requires forall k :: 0 <= k < |stack| ==> NoDuplicates(c, stack[k])
    requires k < |stack| && i < |stack[k]| && Text(c, stack[k][i].name) == name
    requires forall m :: k < m < |stack| ==> !DeclaredIn(c, stack[m], name)
    ensures Lookup(c, stack, name) == Some(stack[k][i])
    decreases stack
  {
    var last := |stack| - 1;
    if k == last {
      LatestIs(c, stack[last], i);
    } else {
      LatestNone(c, stack[last], name);
      assert !DeclaredIn(c, stack[last], name);
      InnermostWins(c, stack[..last], name, k, i);
    }
  }

  lemma {:induction false} LatestIs(c: Context, scope: Scope, i: nat)
    requires NoDuplicates(c, scope) && i < |scope|
    ensures Latest(c, scope, Text(c, scope[i].name)) == Some(scope[i])
    decreases scope
  {
    var last := |scope| - 1;
    if i < last {
      assert Text(c, scope[i].name) != Text(c, scope[last].name);
      LatestIs(c, scope[..last], i);
    }
  }

  lemma {:induction false} Undeclared(c: Context, stack: seq<Scope>, name: string)
    requires forall k :: 0 <= k < |stack| ==> !DeclaredIn(c, stack[k], name)
    ensures Lookup(c, stack, name) == None
    decreases stack
  {
    if stack != [] {
      LatestNone(c, stack[|stack| - 1], name);
      assert !DeclaredIn(c, stack[|stack| - 1], name);
      Undeclared(c, stack[..|stack| - 1], name);
    }
  }

  /** Searching the flat array from its end finds what the scopes say. */
  lemma {:induction false} FlatLookup(c: Context, stack: seq<Scope>, name: string)
    ensures Latest(c, Flat(stack), name) == Lookup(c, stack, name)
    decreases stack
  {
    if stack != [] {
      FlatLookup(c, stack[..|stack| - 1], name);
      LatestAppend(c, Flat(stack[..|stack| - 1]), stack[|stack| - 1], name);
    }
  }

  lemma {:induction false} LatestAppend(c: Context, a: seq<Symbol>, b: seq<Symbol>, name: string)
    ensures Latest(c, a + b, name) == if Latest(c, b, name).Some? then Latest(c, b, name) else Latest(c, a, name)
    decreases b
  {
    if b == [] {
      assert a + b == a;
    } else {
      assert (a + b)[..|a + b| - 1] == a + b[..|b| - 1];
      LatestAppend(c, a, b[..|b| - 1], name);
    }
  }

  /** A declaration is taken exactly when fewer than 64 symbols are live and the innermost scope has none of that name.
      Then the name means a symbol with the declared flag and type, in the slots after the last ones taken, and every
      other name means what it meant. */
  lemma {:induction false} DeclareMeans(c: Context, t: Table, name: Token, mutable: bool, ty: nat) returns (s: Symbol)
    requires Sound(c, t)
    ensures var r := Step(c, t, Declare(name, mutable, ty));
      if |Flat(t.stack)| >= 64 || DeclaredIn(c, t.stack[|t.stack| - 1], Text(c, name)) then r == t
      else
        && Flat(r.stack) == Flat(t.stack) + [s] && |r.stack| == |t.stack|
        && s.name == name && s.mutable == mutable && s.ty == ty && s.slot == Cursor(t.stack) + Width(c, ty)
        && Lookup(c, r.stack, Text(c, name)) == Some(s)
        && (forall other :: other != Text(c, name) ==> Lookup(c, r.stack, other) == Lookup(c, t.stack, other))
        && r.high == if s.slot > t.high then s.slot else t.high
  {
    s := NewSymbol(c, t.stack, name, mutable, ty);
    LatestNone(c, t.stack[|t.stack| - 1], Text(c, name));
    if CanAdd(c, t.stack, name) {
      var r := Step(c, t, Declare(name, mutable, ty));
      var last := |t.stack| - 1;
      FlatLast(t.stack, t.stack[last], s);
      hide Flat, Sound;
      var x := Text(c, name);
      FlatLookup(c, r.stack, x);
      LatestSnoc(c, Flat(t.stack), s, x);
      forall other | other != x
        ensures Lookup(c, r.stack, other) == Lookup(c, t.stack, other)
      {
        FlatLookup(c, r.stack, other);
        FlatLookup(c, t.stack, other);
        LatestSnoc(c, Flat(t.stack), s, other);
      }
    }
  }

  lemma {:induction false} LatestSnoc(c: Context, syms: seq<Symbol>, s: Symbol, name: string)
    ensures Latest(c, syms + [s], name) == if Text(c, s.name) == name then Some(s) else Latest(c, syms, name)
  {
    assert (syms + [s])[..|syms|] == syms;
  }

  /** At most 32 scopes are entered inside the outermost one, and that one is never left. */
  lemma {:induction false} ScopeMeans(c: Context, t: Table)
    requires Sound(c, t)
    ensures Step(c, t, Enter) == if |t.stack| <= 32 then Table(t.stack + [[]], t.high) else t
    ensures Step(c, t, Leave) == if |t.stack| >= 2 then Table(t.stack[..|t.stack| - 1], t.high) else t
  {}

  /** One more symbol, in that slot. */
  predicate Takes(before: Table, after: Table, slot: nat) {
    |Flat(after.stack)| == |Flat(before.stack)| + 1 && Cursor(after.stack) == slot
  }

  /** A declaration of the run was given that slot. */
  ghost predicate GaveSlot(c: Context, ops: seq<Op>, slot: nat) {
    exists i :: 0 <= i < |ops| && ops[i].Declare? && Takes(Run(c, EMPTY, ops[..i]), Run(c, EMPTY, ops[..i + 1]), slot)
  }

  /** The high-water mark is no more than that: it is 0, or a slot that was given out. */
  lemma {:induction false} HighWasGiven(c: Context, ops: seq<Op>)
    ensures Run(c, EMPTY, ops).high == 0 || GaveSlot(c, ops, Run(c, EMPTY, ops).high)
    decreases |ops|
  {
    assert ops[..|ops|] == ops;
    hide Run, Step, Takes, GaveSlot;
    if ops == [] {
      RunNone(c, EMPTY);
    } else {
      var last := |ops| - 1;
      var before := ops[..last];
      assert before + [ops[last]] == ops;
      HighWasGiven(c, before);
      RunAppend(c, EMPTY, before, [ops[last]]);
      var t := Run(c, EMPTY, before);
      RunOne(c, t, ops[last]);
      EmptySound(c);
      RunSound(c, EMPTY, before);
      HighStep(c, t, ops[last]);
      if Run(c, EMPTY, ops).high == t.high {
        if t.high > 0 {
          GaveLater(c, before, ops[last], t.high);
        }
      } else {
        GaveLast(c, ops);
      }
    }
  }

  lemma {:induction false} RunNone(c: Context, t: Table)
    requires t.stack != []
    ensures Run(c, t, []) == t
  {}

  lemma {:induction false} RunOne(c: Context, t: Table, op: Op)
    requires t.stack != []
    ensures Run(c, t, [op]) == Step(c, t, op)
  {
    hide Step;
    assert [op][1..] == [];
  }

  /** Only a declaration that is taken raises the mark, to its own slot. */
  lemma {:induction false} HighStep(c: Context, t: Table, op: Op)
    requires Sound(c, t)
    ensures var r := Step(c, t, op);
      r.high == t.high || (op.Declare? && Takes(t, r, r.high))
  {
    if op.Declare? && CanAdd(c, t.stack, op.name) {
      var s := NewSymbol(c, t.stack, op.name, op.mutable, op.ty);
      FlatLast(t.stack, t.stack[|t.stack| - 1], s);
      hide Flat;
    }
  }

  lemma {:induction false} GaveLast(c: Context, ops: seq<Op>)
    requires ops != [] && ops[|ops| - 1].Declare?
    requires Takes(Run(c, EMPTY, ops[..|ops| - 1]), Run(c, EMPTY, ops), Run(c, EMPTY, ops).high)
    ensures GaveSlot(c, ops, Run(c, EMPTY, ops).high)
  {
    hide Run, Takes;
    assert ops[..|ops| - 1 + 1] == ops;
  }

  lemma {:induction false} GaveLater(c: Context, ops: seq<Op>, op: Op, slot: nat)
    requires GaveSlot(c, ops, slot)
    ensures GaveSlot(c, ops + [op], slot)
  {
    hide Run, Takes;
    var i :| 0 <= i < |ops| && ops[i].Declare? && Takes(Run(c, EMPTY, ops[..i]), Run(c, EMPTY, ops[..i + 1]), slot);
    assert (ops + [op])[..i] == ops[..i] && (ops + [op])[..i + 1] == ops[..i + 1];
  }

  // ----- leaving a scope -----

  /** A run that never leaves the scope it starts in. */
  predicate StaysAbove(c: Context, t: Table, ops: seq<Op>, depth: nat)
    requires t.stack != []
    decreases ops
  {
    |t.stack| > depth && (ops == [] || StaysAbove(c, Step(c, t, ops[0]), ops[1..], depth))
  }

  lemma {:induction false} OuterKept(c: Context, t: Table, ops: seq<Op>, depth: nat)
    requires t.stack != [] && StaysAbove(c, t, ops, depth)
    ensures |Run(c, t, ops).stack| > depth && Run(c, t, ops).stack[..depth] == t.stack[..depth]
    decreases ops
  {
    if ops != [] {
      OuterKept(c, Step(c, t, ops[0]), ops[1..], depth);
    }
  }

  /** Enter a scope, do anything inside it, leave it: every scope is as before, so every name means what it meant,
      and the next slot given out is what it would have been. */
  lemma {:induction false} ScopeRestores(c: Context, t: Table, inside: seq<Op>)
    requires t.stack != [] && |t.stack| - 1 < SCOPE_CAP
    requires StaysAbove(c, Step(c, t, Enter), inside, |t.stack|)
    requires |Run(c, Step(c, t, Enter), inside).stack| == |t.stack| + 1
    ensures var after := Step(c, Run(c, Step(c, t, Enter), inside), Leave);
      && after.stack == t.stack && Cursor(after.stack) == Cursor(t.stack)
      && forall name :: Lookup(c, after.stack, name) == Lookup(c, t.stack, name)
  {
    OuterKept(c, Step(c, t, Enter), inside, |t.stack|);
    assert (t.stack + [[]])[..|t.stack|] == t.stack;
  }

  // ----- the arrays -----

  datatype Base = Base(syms: nat, slots: nat)

  /** What was saved when the scope above the k-th was entered. */
  ghost function BaseAt(stack: seq<Scope>, k: nat): Base
    requires k < |stack|
  {
    Base(|Flat(stack[..k + 1])|, Cursor(stack[..k + 1]))
  }

  lemma {:induction false} BaseKept(a: seq<Scope>, b: seq<Scope>, k: nat)
    requires k < |a| && k < |b| && a[..k + 1] == b[..k + 1]
    ensures BaseAt(a, k) == BaseAt(b, k)
  {}

  lemma {:induction false} FlatSplit(stack: seq<Scope>)
    requires stack != []
    ensures Flat(stack) == Flat(stack[..|stack| - 1]) + stack[|stack| - 1]
    ensures |stack| > 1 ==> BaseAt(stack, |stack| - 2).syms == |Flat(stack[..|stack| - 1])|
    ensures |stack| == 1 ==> Flat(stack) == stack[0]
  {}

  lemma {:induction false} SoundSizes(c: Context, t: Table)
    requires Sound(c, t)
    ensures 0 < |t.stack| <= SCOPE_CAP + 1 && |Flat(t.stack)| <= SYM_CAP
  {}

  lemma {:induction false} StepRefused(c: Context, t: Table, name: Token, mutable: bool, ty: nat)
    requires t.stack != []
    ensures !CanAdd(c, t.stack, name) ==> Step(c, t, Declare(name, mutable, ty)) == t
  {}

  /** What adding a symbol does to what the arrays hold. */
  lemma {:induction false} AddFacts(c: Context, t: Table, name: Token, mutable: bool, ty: nat)
    requires Sound(c, t) && CanAdd(c, t.stack, name)
    ensures var r := Step(c, t, Declare(name, mutable, ty));
      var s := NewSymbol(c, t.stack, name, mutable, ty);
      && Sound(c, r) && |r.stack| == |t.stack| && r.high == Max(t.high, s.slot)
      && Flat(r.stack) == Flat(t.stack) + [s] && Cursor(r.stack) == s.slot
      && forall k :: 0 <= k < |t.stack| - 1 ==> BaseAt(r.stack, k) == BaseAt(t.stack, k)
  {
    var r := Step(c, t, Declare(name, mutable, ty));
    var s := NewSymbol(c, t.stack, name, mutable, ty);
    AddSound(c, t, name, mutable, ty);
    FlatLast(t.stack, t.stack[|t.stack| - 1], s);
    hide Flat, Cursor, Sound, Step;
    forall k | 0 <= k < |t.stack| - 1
      ensures BaseAt(r.stack, k) == BaseAt(t.stack, k)
    {
      assert r.stack == t.stack[|t.stack| - 1 := t.stack[|t.stack| - 1] + [s]] by { StepAdds(c, t, name, mutable, ty); }
      BaseKept(r.stack, t.stack, k);
    }
  }

  lemma {:induction false} StepAdds(c: Context, t: Table, name: Token, mutable: bool, ty: nat)
    requires t.stack != [] && CanAdd(c, t.stack, name)
    ensures var last := |t.stack| - 1;
      Step(c, t, Declare(name, mutable, ty)).stack == t.stack[last := t.stack[last] + [NewSymbol(c, t.stack, name, mutable, ty)]]
  {}

  /** Entering and leaving a scope keep what was saved for the scopes outside. */
  lemma {:induction false} PrefixBases(a: seq<Scope>, b: seq<Scope>, n: nat)
    requires n <= |a| && n <= |b| && a[..n] == b[..n]
    ensures forall k :: 0 <= k < n ==> BaseAt(a, k) == BaseAt(b, k)
  {
    forall k | 0 <= k < n
      ensures BaseAt(a, k) == BaseAt(b, k)
    {
      assert a[..k + 1] == a[..n][..k + 1] == b[..k + 1];
      BaseKept(a, b, k);
    }
  }

  class Symbols {
    const c: Context
    const syms: array<Symbol>
    const bases: array<Base>
    var symCount: nat
    var scopeDepth: nat
    var slotCursor: nat
    var localCount: nat
    ghost var stack: seq<Scope>

    ghost predicate Valid()
      reads this, syms, bases
    {
      && syms.Length == SYM_CAP && bases.Length == SCOPE_CAP
      && Sound(c, View())
      && |stack| == scopeDepth + 1
      && symCount == |Flat(stack)| && syms[..symCount] == Flat(stack)
      && slotCursor == Cursor(stack)
      && forall k :: 0 <= k < scopeDepth ==> bases[k] == BaseAt(stack, k)
    }

    /** The scopes that the arrays represent. */
    ghost function View(): Table
      reads this
    {
      Table(stack, localCount)
    }

    constructor (c: Context)
      ensures Valid() && View() == EMPTY && this.c == c && fresh(syms) && fresh(bases)
    {
      EmptySound(c);
      this.c := c;
      syms := new Symbol[SYM_CAP](_ => Symbol(Token(0, 0), false, 0, 0));
      bases := new Base[SCOPE_CAP](_ => Base(0, 0));
      symCount, scopeDepth, slotCursor, localCount := 0, 0, 0, 0;
      stack := [[]];
      assert EMPTY.stack[..0] == [];
    }

    /** Scans backward from the end of the symbols down to `base`. */
    method Scan(base: nat, name: Token) returns (found: nat)
      requires base <= symCount <= syms.Length
      ensures var m := Latest(c, syms[base..symCount], Text(c, name));
        if found == 0 then m.None? else base < found <= symCount && m == Some(syms[found - 1])
    {
      hide Latest, Text;
      ghost var part := syms[base..symCount];
      var i := symCount;
      assert part[..i - base] == part;
      while i > base
        invariant base <= i <= symCount
        invariant Latest(c, part, Text(c, name)) == Latest(c, part[..i - base], Text(c, name))
      {
        i := i - 1;
        assert syms[i] == part[i - base];
        LatestStep(c, part, i - base, Text(c, name));
        if Text(c, syms[i].name) == Text(c, name) {
          return i + 1;
        }
      }
      LatestStart(c, part, Text(c, name));
      return 0;
    }

    /** One more than the index of the current scope's symbol of that name, or 0. */
    method FindCurrentScope(name: Token) returns (found: nat)
      requires Valid()
      ensures found == 0 <==> Latest(c, stack[scopeDepth], Text(c, name)).None?
      ensures found > 0 ==> found <= symCount && Latest(c, stack[scopeDepth], Text(c, name)) == Some(syms[found - 1])
    {
      SoundSizes(c, View());
      hide Sound, Cursor, Flat, Text, Latest;
      var base := if scopeDepth == 0 then 0 else bases[scopeDepth - 1].syms;
      FlatSplit(stack);
      assert syms[base..symCount] == Flat(stack)[base..] == stack[scopeDepth];
      found := Scan(base, name);
    }

    /** One more than the index of the symbol that a name means, or 0. */
    method Find(name: Token) returns (found: nat)
      requires Valid()
      ensures found == 0 <==> Lookup(c, stack, Text(c, name)).None?
      ensures found > 0 ==> found <= symCount && Lookup(c, stack, Text(c, name)) == Some(syms[found - 1])
    {
      FlatLookup(c, stack, Text(c, name));
      found := Scan(0, name);
    }

    /** The slot of the symbol that a name means, or 0. */
    method SlotForToken(name: Token) returns (slot: nat)
      requires Valid()
      ensures slot == match Lookup(c, stack, Text(c, name)) case Some(s) => s.slot case None => 0
    {
      var found := Find(name);
      return if found == 0 then 0 else syms[found - 1].slot;
    }

    method Add(name: Token, mutable: bool, ty: nat) returns (ok: bool)
      requires Valid()
      modifies this`symCount, this`slotCursor, this`localCount, this`stack, syms
      ensures Valid()
      ensures ok == CanAdd(c, old(stack), name)
      ensures View() == Step(c, old(View()), Declare(name, mutable, ty))
    {
      hide Sound, Cursor, Flat, Text, Step, BaseAt;
      StepRefused(c, View(), name, mutable, ty);
      var found := FindCurrentScope(name);
      if found != 0 || symCount >= SYM_CAP {
        return false;
      }
      AddFacts(c, View(), name, mutable, ty);
      var width := c.slotsOf(ty);
      if width == 0 {
        width := 1;
      }
      var cursor := slotCursor + width;
      ghost var before := syms[..symCount];
      syms[symCount] := Symbol(name, mutable, ty, cursor);
      slotCursor := cursor;
      if cursor > localCount {
        localCount := cursor;
      }
      symCount := symCount + 1;
      assert syms[..symCount] == before + [Symbol(name, mutable, ty, cursor)];
      stack := Step(c, old(View()), Declare(name, mutable, ty)).stack;
      return true;
    }

    method PushScope() returns (ok: bool)
      requires Valid()
      modifies this`scopeDepth, this`stack, bases
      ensures Valid()
      ensures ok == (|old(stack)| - 1 < SCOPE_CAP)
      ensures View() == Step(c, old(View()), Enter)
    {
      hide Sound, Flat, Cursor;
      if scopeDepth >= SCOPE_CAP {
        return false;
      }
      StepSound(c, View(), Enter);
      EnterFlat(stack);
      PrefixBases(stack, stack + [[]], |stack|);
      assert stack[..scopeDepth + 1] == stack == (stack + [[]])[..scopeDepth + 1];
      bases[scopeDepth] := Base(symCount, slotCursor);
      stack := stack + [[]];
      scopeDepth := scopeDepth + 1;
      return true;
    }

    /** Leaving the outermost scope does nothing. */
    method PopScope()
      requires Valid()
      modifies this`scopeDepth, this`symCount, this`slotCursor, this`stack
      ensures Valid()
      ensures View() == Step(c, old(View()), Leave)
    {
      SoundSizes(c, View());
      hide Sound, Flat, Cursor;
      if scopeDepth == 0 {
        return;
      }
      StepSound(c, View(), Leave);
      FlatSplit(stack);
      scopeDepth := scopeDepth - 1;
      ghost var front := stack[..scopeDepth + 1];
      ghost var all := syms[..symCount];
      PrefixBases(stack, front, |front|);
      assert BaseAt(stack, scopeDepth) == Base(|Flat(front)|, Cursor(front));
      symCount := bases[scopeDepth].syms;
      slotCursor := bases[scopeDepth].slots;
      assert syms[..symCount] == all[..symCount] == Flat(front);
      stack := front;
    }
  }
}
