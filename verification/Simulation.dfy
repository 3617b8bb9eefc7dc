/** Forward simulation: running the code of an expression, block or function from a matching state
    does what the source run does. */
module Simulation {
  import opened Ast
  import opened Words
  import opened Machine
  import opened Semantics
  import opened Emission
  import opened Labels
  import opened Slots
  import opened Resolution
  import opened SimBase
  import opened SimOps
  import opened SimCalls
  import opened SimFrame
  import opened Linking
  import opened Frames
  import Codegen

  // ----- results, as states -----

  ghost predicate ArgsDone(m: Image, d: nat, n: nat, s: State, t: State, pc: nat, r: Res<seq<Word>>) {
    match r
    case Ok(ws, out) =>
      && Reaches(m, s, t) && t.status.Running? && t.pc == pc && t.trace == s.trace + out
      && t.rsp == s.rsp - 8 * |ws| && t.rbp == s.rbp && SameAbove(s, t, s.rsp) && Pushed(t.mem, s.rsp, ws)
    case Trap(out) => Reaches(m, s, t) && t.status.DivideTrap? && t.trace == s.trace + out
    case OutOfFuel(deep) => GoesOn(m, d, n, s, deep)
    case Stuck(why) => !why.Uninitialised?
  }

  /** Going on from a state reached is going on. */
  lemma {:induction false} GoesOnFrom(m: Image, d: nat, n: nat, s: State, t: State, deep: bool)
    requires Reaches(m, s, t) && GoesOn(m, d, n, t, deep)
    ensures GoesOn(m, d, n, s, deep)
  {
    LastsFrom(m, s, t, if deep then d else n);
  }

  /** Where a bound was 0 nothing is claimed. */
  lemma {:induction false} StartsOn(m: Image, d: nat, n: nat, s: State)
    requires s.status.Running?
    ensures (d == 0 ==> GoesOn(m, d, n, s, true)) && (n == 0 ==> GoesOn(m, d, n, s, false))
  {}

  lemma {:induction false} DoneTrans(m: Image, d: nat, n: nat, s: State, t: State, u: State, pc: nat, out: seq<Event>, r: Res<Word>)
    requires Reaches(m, s, t) && t.trace == s.trace + out && Keeps(s, t) && ExprDone(m, d, n, t, u, pc, r)
    ensures ExprDone(m, d, n, s, u, pc, After(out, r))
  {
    if r.Ok? || r.Trap? {
      ReachesTrans(m, s, t, u);
      assert s.trace + out + r.out == s.trace + (out + r.out);
    } else if r.OutOfFuel? {
      GoesOnFrom(m, d, n, s, t, r.deep);
    }
  }

  // ----- expressions -----

  lemma {:induction false} SimExpr(w: World, vars: set<string>, locals: map<string, nat>, e: Expr, store: Store, sn: nat, d: nat, n: nat, s: State)
    returns (t: State, z: Residue)
    requires vars <= locals.Keys
    requires Valid(w) && ExprFits6(e) && ExprClear(w.Names(), locals.Keys, vars, e)
    requires Fits(w.img.code, s.pc, ExprCode(w.Names(), locals, e, sn))
    requires Ready(s, s.pc, ExprRoom(e) + CallRoom(w.p.fns, d)) && FrameHolds(locals, store, s)
    ensures Held(w, s, z)
    ensures ExprDone(w.img, d, n, s, t, s.pc + |ExprCode(w.Names(), locals, e, sn)|, EvalExpr(w.p, Ctx(vars, z), e, store, sn, d, n))
    decreases d, 0, n, e, 2
  {
    hide Valid, Fits, FrameHolds, FnNames, CallRoom, ExprCode, EvalExpr, ExprRoom, ExprFits6, Held, GoesOn;
    z := Unspecified;
    HeldNone(w, s);
    match e
    case PathExpr(_) =>
      t := s;
      NotAValueIsStuck(w, Ctx(vars, z), e, store, sn, d, n);
    case ErrorExpr =>
      t := s;
      NotAValueIsStuck(w, Ctx(vars, z), e, store, sn, d, n);
    case Unary(_, _) => t, z := SimUnaryExpr(w, vars, locals, e, store, sn, d, n, s);
    case Binary(_, _, _) => t, z := SimBinaryExpr(w, vars, locals, e, store, sn, d, n, s);
    case Call(callee, _) =>
      if callee.Display() == "io.write" {
        t, z := SimWriteCall(w, vars, locals, e, store, sn, d, n, s);
      } else {
        t, z := SimFnCall(w, vars, locals, e, store, sn, d, n, s);
      }
    case Ident(name) =>
      StringsPlaced(w);
      if name !in vars {
        t, z := SimNamedCall(w, vars, locals, name, store, sn, d, n, s);
      } else {
        StoreIsWhole(locals, store, s);
        t := SimLeaf(w, Ctx(vars, z), locals, e, store, sn, d, n, s);
      }
    case _ =>
      StringsPlaced(w);
      t := SimLeaf(w, Ctx(vars, z), locals, e, store, sn, d, n, s);
  }

  lemma {:induction false} StoreIsWhole(locals: map<string, nat>, store: Store, s: State)
    requires FrameHolds(locals, store, s)
    ensures store.Keys == locals.Keys
  {}

  lemma {:induction false} NotAValueIsStuck(w: World, cx: Ctx, e: Expr, store: Store, sn: nat, d: nat, n: nat)
    requires e.PathExpr? || e.ErrorExpr?
    ensures EvalExpr(w.p, cx, e, store, sn, d, n) == Stuck(NotAValue)
  {}

  lemma {:induction false} UnaryUnfolds(w: World, vars: set<string>, locals: map<string, nat>, e: Expr, sn: nat)
    requires e.Unary?
    ensures ExprCode(w.Names(), locals, e, sn) == ExprCode(w.Names(), locals, e.operand, sn) + UnaryCode(e.uop)
    ensures ExprRoom(e) == ExprRoom(e.operand)
    ensures ExprFits6(e) ==> ExprFits6(e.operand)
    ensures ExprClear(w.Names(), locals.Keys, vars, e) ==> ExprClear(w.Names(), locals.Keys, vars, e.operand)
  {}

  lemma {:induction false} UnaryEvaluates(w: World, cx: Ctx, e: Expr, store: Store, sn: nat, d: nat, n: nat)
    requires e.Unary?
    ensures var r := EvalExpr(w.p, cx, e.operand, store, sn, d, n);
      EvalExpr(w.p, cx, e, store, sn, d, n) == if r.Ok? then Ok(EvalUnary(e.uop, r.v), r.out) else r
  {}

  lemma {:induction false} SimUnaryExpr(w: World, vars: set<string>, locals: map<string, nat>, e: Expr, store: Store, sn: nat, d: nat, n: nat, s: State)
    returns (t: State, z: Residue)
    requires vars <= locals.Keys
    requires e.Unary?
    requires Valid(w) && ExprFits6(e) && ExprClear(w.Names(), locals.Keys, vars, e)
    requires Fits(w.img.code, s.pc, ExprCode(w.Names(), locals, e, sn))
    requires Ready(s, s.pc, ExprRoom(e) + CallRoom(w.p.fns, d)) && FrameHolds(locals, store, s)
    ensures Held(w, s, z)
    ensures ExprDone(w.img, d, n, s, t, s.pc + |ExprCode(w.Names(), locals, e, sn)|, EvalExpr(w.p, Ctx(vars, z), e, store, sn, d, n))
    decreases d, 0, n, e, 0
  {
    hide Valid, Fits, FrameHolds, FnNames, CallRoom, ExprCode, EvalExpr, ExprRoom, ExprFits6, EvalUnary, ExprClear, Held, GoesOn;
    UnaryUnfolds(w, vars, locals, e, sn);
    FitsCat(w.img.code, s.pc, ExprCode(w.Names(), locals, e.operand, sn), UnaryCode(e.uop));
    var u, z' := SimExpr(w, vars, locals, e.operand, store, sn, d, n, s);
    t, z := u, z';
    UnaryEvaluates(w, Ctx(vars, z), e, store, sn, d, n);
    if EvalExpr(w.p, Ctx(vars, z), e.operand, store, sn, d, n).Ok? {
      t := SimUnary(w.img, u, e.uop);
      ReachesTrans(w.img, s, u, t);
    }
  }

  lemma {:induction false} LocalInSlot(locals: map<string, nat>, store: Store, s: State, x: string)
    requires FrameHolds(locals, store, s) && x in store
    ensures x in locals && Slot(s, locals[x]) == Option.Some(s.rbp - locals[x]) && Peek(s.mem, s.rbp - locals[x]) == store[x]
  {
    SlotInFrame(locals, store, s, x);
  }

  lemma {:induction false} StringsPlaced(w: World)
    requires Valid(w)
    ensures w.img.stringAt == w.p.stringAt
  {}

  lemma {:induction false} SimLeaf(w: World, cx: Ctx, locals: map<string, nat>, e: Expr, store: Store, sn: nat, d: nat, n: nat, s: State)
    returns (t: State)
    requires w.img.stringAt == w.p.stringAt && (e.IntLit? || e.BoolLit? || e.StrLit? || (e.Ident? && e.name in cx.vars && e.name in store))
    requires Fits(w.img.code, s.pc, ExprCode(w.Names(), locals, e, sn))
    requires Ready(s, s.pc, 0) && FrameHolds(locals, store, s)
    ensures ExprDone(w.img, d, n, s, t, s.pc + 1, EvalExpr(w.p, cx, e, store, sn, d, n))
    ensures |ExprCode(w.Names(), locals, e, sn)| == 1
  {
    hide Fits, FrameHolds, FnNames;
    var code := ExprCode(w.Names(), locals, e, sn);
    if e.Ident? {
      LocalInSlot(locals, store, s, e.name);
    }
    FitsAt(w.img.code, s.pc, code, 0);
    t := Step1(w.img, s, code[0]);
  }

  lemma {:induction false} BinaryUnfolds(w: World, vars: set<string>, locals: map<string, nat>, e: Expr, sn: nat)
    requires e.Binary?
    ensures ExprCode(w.Names(), locals, e, sn)
         == ExprCode(w.Names(), locals, e.left, sn) + [Push(RAX)]
          + (ExprCode(w.Names(), locals, e.right, sn + |Strings(e.left)|) + [MovReg(RBX, RAX), Pop(RAX)] + BinaryCode(e.op))
    ensures ExprRoom(e) >= ExprRoom(e.left) && ExprRoom(e) >= 8 + ExprRoom(e.right)
    ensures ExprFits6(e) ==> ExprFits6(e.left) && ExprFits6(e.right)
    ensures ExprClear(w.Names(), locals.Keys, vars, e) ==>
      ExprClear(w.Names(), locals.Keys, vars, e.left) && ExprClear(w.Names(), locals.Keys, vars, e.right)
  {
    hide ArgsCode, ArgsRoom, ArgsFit6, BinaryCode, Strings;
  }

  lemma {:induction false} BinaryEvaluates(w: World, vars: set<string>, y: Residue, z: Residue, e: Expr, store: Store, sn: nat, d: nat, n: nat)
    requires e.Binary?
    ensures
      var l := EvalExpr(w.p, Ctx(vars, y), e.left, store, sn, d, n);
      var r := EvalExpr(w.p, Ctx(vars, z), e.right, store, sn + |Strings(e.left)|, d, n);
      EvalExpr(w.p, Ctx(vars, Fork(y, z)), e, store, sn, d, n)
      == if !l.Ok? then l else if !r.Ok? then After(l.out, r) else Apply(e.op, l.v, r.v, l.out + r.out)
  {
    hide EvalArgs, CallFn, Lookup, EvalBinary, Strings;
  }

  lemma {:induction false} SimBinaryExpr(w: World, vars: set<string>, locals: map<string, nat>, e: Expr, store: Store, sn: nat, d: nat, n: nat, s: State)
    returns (t: State, z: Residue)
    requires vars <= locals.Keys
    requires e.Binary?
    requires Valid(w) && ExprFits6(e) && ExprClear(w.Names(), locals.Keys, vars, e)
    requires Fits(w.img.code, s.pc, ExprCode(w.Names(), locals, e, sn))
    requires Ready(s, s.pc, ExprRoom(e) + CallRoom(w.p.fns, d)) && FrameHolds(locals, store, s)
    ensures Held(w, s, z)
    ensures ExprDone(w.img, d, n, s, t, s.pc + |ExprCode(w.Names(), locals, e, sn)|, EvalExpr(w.p, Ctx(vars, z), e, store, sn, d, n))
    decreases d, 0, n, e, 0
  {
    hide Valid, Fits, FrameHolds, ExprCode, EvalExpr, ExprRoom, ExprFits6, FnNames, CallRoom, Strings, EvalBinary, BinaryCode, SameAbove, Keeps,
      ExprClear, Held, GoesOn;
    BinaryUnfolds(w, vars, locals, e, sn);
    var sn' := sn + |Strings(e.left)|;
    var lcode, rcode := ExprCode(w.Names(), locals, e.left, sn), ExprCode(w.Names(), locals, e.right, sn');
    var move := [MovReg(RBX, RAX), Pop(RAX)];
    FitsCat(w.img.code, s.pc, lcode + [Push(RAX)], rcode + move + BinaryCode(e.op));
    FitsCat(w.img.code, s.pc, lcode, [Push(RAX)]);
    FitsCat(w.img.code, s.pc + |lcode| + 1, rcode + move, BinaryCode(e.op));
    FitsCat(w.img.code, s.pc + |lcode| + 1, rcode, move);
    FitsAt(w.img.code, s.pc + |lcode|, [Push(RAX)], 0);
    var a, y := SimExpr(w, vars, locals, e.left, store, sn, d, n, s);
    t, z := a, Unspecified;
    HeldFirst(w, s, y);
    var l := EvalExpr(w.p, Ctx(vars, y), e.left, store, sn, d, n);
    if l.Ok? {
      var b := SimPush(w.img, s, a);
      FrameKept(locals, store, s, b);
      var c;
      c, z := SimExpr(w, vars, locals, e.right, store, sn', d, n, b);
      HeldFork(w, s, y, b, z);
      var r := EvalExpr(w.p, Ctx(vars, z), e.right, store, sn', d, n);
      t := SimCombine(w.img, d, n, s, b, c, e.op, l, r, s.pc + |lcode| + 1 + |rcode|);
    }
    BinaryEvaluates(w, vars, y, z, e, store, sn, d, n);
    z := Fork(y, z);
  }

  /** After both operands: move, pop and operate. b is the state after the left value was pushed. */
  lemma {:induction false} SimCombine(m: Image, d: nat, n: nat, s: State, b: State, c: State, op: BinaryOp, l: Res<Word>, r: Res<Word>, pc: nat) returns (t: State)
    requires l.Ok? && s.rsp % 8 == 0 && s.rsp >= 8
    requires Reaches(m, s, b) && b.trace == s.trace + l.out && b.rsp == s.rsp - 8 && b.rbp == s.rbp
    requires Peek(b.mem, b.rsp) == l.v && SameAbove(s, b, s.rsp) && ExprDone(m, d, n, b, c, pc, r)
    requires Fits(m.code, pc, [MovReg(RBX, RAX), Pop(RAX)]) && Fits(m.code, pc + 2, BinaryCode(op))
    ensures ExprDone(m, d, n, s, t, pc + 2 + |BinaryCode(op)|,
                     if !r.Ok? then After(l.out, r) else Apply(op, l.v, r.v, l.out + r.out))
  {
    t := c;
    if r.Ok? || r.Trap? {
      ReachesTrans(m, s, b, c);
      assert c.trace == s.trace + (l.out + r.out);
    } else if r.OutOfFuel? {
      GoesOnFrom(m, d, n, s, b, r.deep);
    }
    if r.Ok? {
      FitsAt(m.code, pc, [MovReg(RBX, RAX), Pop(RAX)], 0);
      FitsAt(m.code, pc, [MovReg(RBX, RAX), Pop(RAX)], 1);
      var u := Then(m, s, c, MovReg(RBX, RAX));
      u := Then(m, s, u, Pop(RAX));
      t := SimBinary(m, u, op);
      ReachesTrans(m, s, u, t);
    }
  }

  lemma {:induction false} ArgsUnfolds(w: World, vars: set<string>, locals: map<string, nat>, args: seq<Expr>, sn: nat)
    requires args != []
    ensures ArgsCode(w.Names(), locals, args, sn)
         == ExprCode(w.Names(), locals, args[0], sn)
          + ([Push(RAX)] + ArgsCode(w.Names(), locals, args[1..], sn + |Strings(args[0])|))
    ensures ArgsRoom(args) >= ExprRoom(args[0]) && ArgsRoom(args) >= 8 + ArgsRoom(args[1..])
    ensures ArgsFit6(args) ==> ExprFits6(args[0]) && ArgsFit6(args[1..])
    ensures ArgsClear(w.Names(), locals.Keys, vars, args) ==>
      ExprClear(w.Names(), locals.Keys, vars, args[0]) && ArgsClear(w.Names(), locals.Keys, vars, args[1..])
  {}

  lemma {:induction false} ArgsEvaluate(w: World, vars: set<string>, y: Residue, z: Residue, args: seq<Expr>, store: Store, sn: nat, d: nat, n: nat)
    requires args != []
    ensures
      var first := EvalExpr(w.p, Ctx(vars, y), args[0], store, sn, d, n);
      var rest := EvalArgs(w.p, Ctx(vars, z), args[1..], store, sn + |Strings(args[0])|, d, n);
      EvalArgs(w.p, Ctx(vars, Fork(y, z)), args, store, sn, d, n)
      == if !first.Ok? then Failed(first)
         else if rest.Ok? then Ok([first.v] + rest.v, first.out + rest.out) else After(first.out, rest)
  {}

  lemma {:induction false} SimArgs(w: World, vars: set<string>, locals: map<string, nat>, args: seq<Expr>, store: Store, sn: nat, d: nat, n: nat, s: State)
    returns (t: State, z: Residue)
    requires vars <= locals.Keys
    requires Valid(w) && ArgsFit6(args) && ArgsClear(w.Names(), locals.Keys, vars, args)
    requires Fits(w.img.code, s.pc, ArgsCode(w.Names(), locals, args, sn))
    requires Ready(s, s.pc, ArgsRoom(args) + CallRoom(w.p.fns, d)) && FrameHolds(locals, store, s)
    ensures Held(w, s, z)
    ensures ArgsDone(w.img, d, n, s, t, s.pc + |ArgsCode(w.Names(), locals, args, sn)|, EvalArgs(w.p, Ctx(vars, z), args, store, sn, d, n))
    decreases d, 0, n, args, 1
  {
    hide Held, GoesOn;
    if args == [] {
      t, z := s, Unspecified;
      HeldNone(w, s);
      ReachesRefl(w.img, s);
    } else {
      t, z := SimSomeArgs(w, vars, locals, args, store, sn, d, n, s);
    }
  }

  lemma {:induction false} SimSomeArgs(w: World, vars: set<string>, locals: map<string, nat>, args: seq<Expr>, store: Store, sn: nat, d: nat, n: nat, s: State)
    returns (t: State, z: Residue)
    requires vars <= locals.Keys
    requires args != []
    requires Valid(w) && ArgsFit6(args) && ArgsClear(w.Names(), locals.Keys, vars, args)
    requires Fits(w.img.code, s.pc, ArgsCode(w.Names(), locals, args, sn))
    requires Ready(s, s.pc, ArgsRoom(args) + CallRoom(w.p.fns, d)) && FrameHolds(locals, store, s)
    ensures Held(w, s, z)
    ensures ArgsDone(w.img, d, n, s, t, s.pc + |ArgsCode(w.Names(), locals, args, sn)|, EvalArgs(w.p, Ctx(vars, z), args, store, sn, d, n))
    decreases d, 0, n, args, 0
  {
    hide Valid, Fits, FrameHolds, ExprCode, ArgsCode, EvalExpr, EvalArgs, ExprRoom, ArgsRoom, ExprFits6, ArgsFit6, FnNames, CallRoom, Strings,
      SameAbove, Keeps, Pushed, ExprClear, ArgsClear, Held, GoesOn;
    ArgsUnfolds(w, vars, locals, args, sn);
    var sn' := sn + |Strings(args[0])|;
    var code := ExprCode(w.Names(), locals, args[0], sn);
    var rest := ArgsCode(w.Names(), locals, args[1..], sn');
    FitsCat(w.img.code, s.pc, code, [Push(RAX)] + rest);
    FitsCat(w.img.code, s.pc + |code|, [Push(RAX)], rest);
    FitsAt(w.img.code, s.pc + |code|, [Push(RAX)], 0);
    var a, y := SimExpr(w, vars, locals, args[0], store, sn, d, n, s);
    t, z := a, Unspecified;
    HeldFirst(w, s, y);
    var first := EvalExpr(w.p, Ctx(vars, y), args[0], store, sn, d, n);
    if first.Ok? {
      var b := SimPush(w.img, s, a);
      FrameKept(locals, store, s, b);
      t, z := SimArgs(w, vars, locals, args[1..], store, sn', d, n, b);
      HeldFork(w, s, y, b, z);
      ArgsTrans(w.img, d, n, s, b, t, b.pc + |rest|, first, EvalArgs(w.p, Ctx(vars, z), args[1..], store, sn', d, n));
    }
    ArgsEvaluate(w, vars, y, z, args, store, sn, d, n);
    z := Fork(y, z);
  }

  lemma {:induction false} ArgsTrans(m: Image, d: nat, n: nat, s: State, b: State, t: State, pc: nat, first: Res<Word>, rest: Res<seq<Word>>)
    requires first.Ok? && Reaches(m, s, b) && b.trace == s.trace + first.out && b.rsp == s.rsp - 8 && b.rbp == s.rbp
    requires Peek(b.mem, b.rsp) == first.v && SameAbove(s, b, s.rsp) && ArgsDone(m, d, n, b, t, pc, rest)
    ensures ArgsDone(m, d, n, s, t, pc, if rest.Ok? then Ok([first.v] + rest.v, first.out + rest.out) else After(first.out, rest))
  {
    if rest.Ok? || rest.Trap? {
      ReachesTrans(m, s, b, t);
      assert s.trace + first.out + rest.out == s.trace + (first.out + rest.out);
    } else if rest.OutOfFuel? {
      GoesOnFrom(m, d, n, s, b, rest.deep);
    }
    if rest.Ok? {
      var ws := [first.v] + rest.v;
      forall i | 0 <= i < |ws|
        ensures Peek(t.mem, s.rsp - 8 * (i + 1)) == ws[i]
      {
        if i > 0 {
          assert Peek(t.mem, b.rsp - 8 * ((i - 1) + 1)) == rest.v[i - 1];
        } else {
          assert Peek(t.mem, b.rsp) == Peek(b.mem, b.rsp);
        }
      }
    }
  }

  lemma {:induction false} WriteEvaluates(w: World, vars: set<string>, z: Residue, e: Expr, store: Store, sn: nat, d: nat, n: nat)
    requires e.Call? && e.callee.Display() == "io.write"
    ensures
      var r := EvalArgs(w.p, Ctx(vars, z), e.args, store, sn, d, n);
      EvalExpr(w.p, Ctx(vars, Fork(z, Unspecified)), e, store, sn, d, n)
      == if |e.args| != 3 then Stuck(WrongArity)
         else if !r.Ok? then Failed(r)
         else Ok(0, r.out + [Write(r.v[0], r.v[1], r.v[2])])
  {}

  lemma {:induction false} WriteUnfolds(w: World, vars: set<string>, locals: map<string, nat>, e: Expr, sn: nat)
    requires e.Call? && e.callee.Display() == "io.write"
    ensures ExprCode(w.Names(), locals, e, sn) == ArgsCode(w.Names(), locals, e.args, sn) + WriteCode()
    ensures ExprRoom(e) == ArgsRoom(e.args) && (ExprFits6(e) ==> ArgsFit6(e.args))
    ensures ExprClear(w.Names(), locals.Keys, vars, e) ==> ArgsClear(w.Names(), locals.Keys, vars, e.args)
  {}

  lemma {:induction false} SameMemory(s: State, a: State, t: State)
    requires SameAbove(s, a, s.rsp) && t.mem == a.mem
    ensures SameAbove(s, t, s.rsp)
  {}

  lemma {:induction false} SimWriteCall(w: World, vars: set<string>, locals: map<string, nat>, e: Expr, store: Store, sn: nat, d: nat, n: nat, s: State)
    returns (t: State, z: Residue)
    requires vars <= locals.Keys
    requires e.Call? && e.callee.Display() == "io.write"
    requires Valid(w) && ExprFits6(e) && ExprClear(w.Names(), locals.Keys, vars, e)
    requires Fits(w.img.code, s.pc, ExprCode(w.Names(), locals, e, sn))
    requires Ready(s, s.pc, ExprRoom(e) + CallRoom(w.p.fns, d)) && FrameHolds(locals, store, s)
    ensures Held(w, s, z)
    ensures ExprDone(w.img, d, n, s, t, s.pc + |ExprCode(w.Names(), locals, e, sn)|, EvalExpr(w.p, Ctx(vars, z), e, store, sn, d, n))
    decreases d, 0, n, e, 0
  {
    hide Valid, Fits, FrameHolds, EvalExpr, EvalArgs, Held, GoesOn, ExprCode, ArgsCode, WriteCode, ExprRoom, ArgsRoom, ExprFits6, ArgsFit6,
      ExprClear, ArgsClear, FnNames, CallRoom, Pushed, SameAbove;
    WriteUnfolds(w, vars, locals, e, sn);
    var code := ArgsCode(w.Names(), locals, e.args, sn);
    FitsCat(w.img.code, s.pc, code, WriteCode());
    var a, y := SimArgs(w, vars, locals, e.args, store, sn, d, n, s);
    t, z := a, Fork(y, Unspecified);
    HeldFirst(w, s, y);
    WriteEvaluates(w, vars, y, e, store, sn, d, n);
    var r := EvalArgs(w.p, Ctx(vars, y), e.args, store, sn, d, n);
    if r.Ok? && |e.args| == 3 {
      t := SimWrite(w.img, s, a, r.v, s.rsp);
      SameMemory(s, a, t);
      assert s.trace + r.out + [Write(r.v[0], r.v[1], r.v[2])] == s.trace + (r.out + [Write(r.v[0], r.v[1], r.v[2])]);
    }
  }

  lemma {:induction false} FnCallUnfolds(w: World, vars: set<string>, locals: map<string, nat>, e: Expr, sn: nat)
    requires e.Call? && e.callee.Display() != "io.write"
    ensures ExprCode(w.Names(), locals, e, sn)
         == ArgsCode(w.Names(), locals, e.args, sn) + (PopArgs(|e.args|) + [CallTo(FnLabel(e.callee.Display()))])
    ensures ExprRoom(e) == ArgsRoom(e.args)
    ensures ExprFits6(e) ==> |e.args| <= MAX_REG_ARGS && ArgsFit6(e.args)
    ensures ExprClear(w.Names(), locals.Keys, vars, e) && !IsAlloc(e) ==> ArgsClear(w.Names(), locals.Keys, vars, e.args)
  {}

  lemma {:induction false} FnCallEvaluates(w: World, vars: set<string>, y: Residue, z: Residue, e: Expr, store: Store, sn: nat, d: nat, n: nat)
    requires e.Call? && e.callee.Display() != "io.write"
    ensures
      var r := EvalArgs(w.p, Ctx(vars, y), e.args, store, sn, d, n);
      EvalExpr(w.p, Ctx(vars, Fork(y, z)), e, store, sn, d, n)
      == if Lookup(w.p.fns, e.callee.Display(), 0).None? then Stuck(NoFunction(e.callee.Display()))
         else if !r.Ok? then Failed(r)
         else if d == 0 then OutOfFuel(true)
         else After(r.out, CallFn(w.p, z, e.callee.Display(), r.v, d - 1, n))
  {}

  lemma {:induction false} SimFnCall(w: World, vars: set<string>, locals: map<string, nat>, e: Expr, store: Store, sn: nat, d: nat, n: nat, s: State)
    returns (t: State, z: Residue)
    requires vars <= locals.Keys
    requires e.Call? && e.callee.Display() != "io.write"
    requires Valid(w) && ExprFits6(e) && ExprClear(w.Names(), locals.Keys, vars, e)
    requires Fits(w.img.code, s.pc, ExprCode(w.Names(), locals, e, sn))
    requires Ready(s, s.pc, ExprRoom(e) + CallRoom(w.p.fns, d)) && FrameHolds(locals, store, s)
    ensures Held(w, s, z)
    ensures ExprDone(w.img, d, n, s, t, s.pc + |ExprCode(w.Names(), locals, e, sn)|, EvalExpr(w.p, Ctx(vars, z), e, store, sn, d, n))
    decreases d, 0, n, e, 1
  {
    hide Valid, Fits, FrameHolds, ExprCode, ArgsCode, PopArgs, EvalExpr, EvalArgs, CallFn, ExprRoom, ArgsRoom, ExprFits6, ArgsFit6, FnNames,
      Strings, Lookup, ExprClear, ArgsClear, Held, GoesOn;
    FnCallUnfolds(w, vars, locals, e, sn);
    var name := e.callee.Display();
    if Lookup(w.p.fns, name, 0).None? {
      t, z := s, Fork(Unspecified, Unspecified);
      HeldNone(w, s);
      HeldFirst(w, s, Unspecified);
      FnCallEvaluates(w, vars, Unspecified, Unspecified, e, store, sn, d, n);
    } else {
      AllocIsNoFunction(w);
      t, z := SimDefinedCall(w, vars, locals, e, store, sn, d, n, s);
    }
  }

  lemma {:induction false} AllocIsNoFunction(w: World)
    requires Valid(w)
    ensures Lookup(w.p.fns, "mem.alloc", 0).None?
  {
    LookupFinds(w.p.fns, "mem.alloc", 0);
  }

  /** Where the arguments, the pops and the call of a call's code are. */
  lemma {:induction false} CallPlaced(w: World, locals: map<string, nat>, e: Expr, sn: nat, pc: nat)
    requires e.Call? && e.callee.Display() != "io.write" && Fits(w.img.code, pc, ExprCode(w.Names(), locals, e, sn))
    ensures var code, pops := ArgsCode(w.Names(), locals, e.args, sn), PopArgs(|e.args|);
      && Fits(w.img.code, pc, code) && Fits(w.img.code, pc + |code|, pops)
      && pc + |code| + |pops| < |w.img.code| && w.img.code[pc + |code| + |pops|] == CallTo(FnLabel(e.callee.Display()))
      && |ExprCode(w.Names(), locals, e, sn)| == |code| + |pops| + 1
  {
    hide Fits, ArgsCode, PopArgs;
    var code, pops, last := ArgsCode(w.Names(), locals, e.args, sn), PopArgs(|e.args|), [CallTo(FnLabel(e.callee.Display()))];
    FitsCat(w.img.code, pc, code, pops + last);
    FitsCat(w.img.code, pc + |code|, pops, last);
    FitsAt(w.img.code, pc + |code| + |pops|, last, 0);
  }

  lemma {:induction false} SimDefinedCall(w: World, vars: set<string>, locals: map<string, nat>, e: Expr, store: Store, sn: nat, d: nat, n: nat, s: State)
    returns (t: State, z: Residue)
    requires vars <= locals.Keys
    requires e.Call? && e.callee.Display() != "io.write" && !IsAlloc(e) && Lookup(w.p.fns, e.callee.Display(), 0).Some?
    requires Valid(w) && ExprFits6(e) && ExprClear(w.Names(), locals.Keys, vars, e)
    requires Fits(w.img.code, s.pc, ExprCode(w.Names(), locals, e, sn))
    requires Ready(s, s.pc, ExprRoom(e) + CallRoom(w.p.fns, d)) && FrameHolds(locals, store, s)
    ensures Held(w, s, z)
    ensures ExprDone(w.img, d, n, s, t, s.pc + |ExprCode(w.Names(), locals, e, sn)|, EvalExpr(w.p, Ctx(vars, z), e, store, sn, d, n))
    decreases d, 0, n, e, 0
  {
    hide Valid, Fits, FrameHolds, ExprCode, ArgsCode, PopArgs, EvalExpr, EvalArgs, CallFn, ExprRoom, ArgsRoom, ExprFits6, ArgsFit6, FnNames,
      Strings, Lookup, ExprClear, ArgsClear, Held, GoesOn;
    FnCallUnfolds(w, vars, locals, e, sn);
    CallPlaced(w, locals, e, sn, s.pc);
    var name := e.callee.Display();
    var a, y := SimArgs(w, vars, locals, e.args, store, sn, d, n, s);
    t, z := a, Unspecified;
    HeldFirst(w, s, y);
    StartsOn(w.img, d, n, s);
    var r := EvalArgs(w.p, Ctx(vars, y), e.args, store, sn, d, n);
    if r.Ok? && d > 0 {
      var b := SimPops(w.img, s, a, |e.args|, r.v, s.rsp);
      t, z := SimCallSite(w, name, r.v, d - 1, n, b);
      HeldFork(w, s, y, b, z);
      DoneTrans(w.img, d, n, s, b, t, b.pc + 1, r.out, CallFn(w.p, z, name, r.v, d - 1, n));
    }
    FnCallEvaluates(w, vars, y, z, e, store, sn, d, n);
    z := Fork(y, z);
  }

  lemma {:induction false} SimNamedCall(w: World, vars: set<string>, locals: map<string, nat>, name: string, store: Store, sn: nat, d: nat, n: nat, s: State)
    returns (t: State, z: Residue)
    requires vars <= locals.Keys
    requires name !in vars
    requires Valid(w) && ExprClear(w.Names(), locals.Keys, vars, Ident(name))
    requires Fits(w.img.code, s.pc, ExprCode(w.Names(), locals, Ident(name), sn))
    requires Ready(s, s.pc, CallRoom(w.p.fns, d)) && FrameHolds(locals, store, s)
    ensures Held(w, s, z)
    ensures ExprDone(w.img, d, n, s, t, s.pc + |ExprCode(w.Names(), locals, Ident(name), sn)|, EvalExpr(w.p, Ctx(vars, z), Ident(name), store, sn, d, n))
    decreases d, 0, n, Ident(name), 0
  {
    hide Valid, Fits, FrameHolds, CallFn, Held, GoesOn;
    t, z := s, Unspecified;
    HeldNone(w, s);
    StartsOn(w.img, d, n, s);
    LookupFinds(w.p.fns, name, 0);
    if name in w.Names() && d > 0 {
      assert name in ExprUses(Ident(name));
      FitsAt(w.img.code, s.pc, [CallTo(FnLabel(name))], 0);
      t, z := SimCallSite(w, name, [], d - 1, n, s);
    }
  }

  // ----- calls -----

  /** A call instruction with its arguments in registers: the first frame described is that of the call. */
  lemma {:induction false} SimCallSite(w: World, name: string, ws: seq<Word>, d: nat, n: nat, s: State) returns (t: State, z: Residue)
    requires Valid(w) && |ws| <= MAX_REG_ARGS && InRegs(s, 0, ws)
    requires s.pc < |w.img.code| && w.img.code[s.pc] == CallTo(FnLabel(name))
    requires Ready(s, s.pc, CallRoom(w.p.fns, d + 1))
    ensures Held(w, s, z) && FramedFirst(w, name, ws, s, z)
    ensures ExprDone(w.img, d + 1, n, s, t, s.pc + 1, CallFn(w.p, z, name, ws, d, n))
    decreases d, 2
  {
    hide Fits, ExecBlock, FrameSize, BlockRoom, FnNames, FnCode, EntryStore, EntryCtx, FnResult, FrameBelow, Held, GoesOn;
    t, z := s, Unspecified;
    HeldNone(w, s);
    if Lookup(w.p.fns, name, 0).Some? && |Lookup(w.p.fns, name, 0).value.decl.params| == |ws| {
      var f := Lookup(w.p.fns, name, 0).value;
      var at, ln := FnInProgram(w, name);
      LookupFinds(w.p.fns, name, 0);
      LargestCovers(w.p.fns, f.decl);
      var a := SimEnter(w.img, s, FnLabel(name), at, ws);
      var words, inner := FrameBelow(f.decl, s), Unspecified;
      EnterKeepsFrame(f.decl, s, a);
      t, inner := SimFn(w, f, ws, words, d, n, a, ln);
      z := Frame(words, inner);
      HeldFrame(w, s, f.decl, a, inner);
      FnReturns(w.img, d, n, s, a, t, CallFn(w.p, z, name, ws, d, n));
    }
  }

  /** From the call to the callee's first instruction is a step, and then as the callee does. */
  lemma {:induction false} FnReturns(m: Image, d: nat, n: nat, s: State, a: State, t: State, r: Res<Word>)
    requires s.status.Running? && a == Step(m, s) && a.rsp == s.rsp - 8 && a.rbp == s.rbp && a.trace == s.trace
    requires Peek(a.mem, a.rsp) == s.pc + 1 && SameAbove(s, a, s.rsp) && FnDone(m, d, n, a, t, r)
    ensures ExprDone(m, d + 1, n, s, t, s.pc + 1, r)
  {
    hide Step;
    ReachesRefl(m, s);
    ReachesStep(m, s, s);
    if r.Ok? || r.Trap? {
      ReachesTrans(m, s, a, t);
    } else if r.OutOfFuel? {
      ReachesRefl(m, a);
      LastsLonger(m, s, a, if r.deep then d else n);
      LastsFewer(m, s, if r.deep then d + 1 else n + 1, if r.deep then d + 1 else n);
    }
  }

  lemma {:induction false} SimEnter(m: Image, s: State, target: Label, at: nat, ws: seq<Word>) returns (a: State)
    requires |ws| <= MAX_REG_ARGS && InRegs(s, 0, ws) && |m.code| < TWO64
    requires s.pc < |m.code| && m.code[s.pc] == CallTo(target) && Target(m.code, target) == Some(at)
    requires Ready(s, s.pc, 8)
    ensures Reaches(m, s, a) && a == Step(m, s) && Ready(a, at, 0) && a.rsp == s.rsp - 8 && a.rbp == s.rbp && a.trace == s.trace
    ensures a.mem == s.mem[a.rsp := s.pc + 1] && SameAbove(s, a, s.rsp) && InRegs(a, 0, ws)
  {
    a := Step1(m, s, CallTo(target));
    forall i: nat | i < |ws|
      ensures Get(a, ArgReg(i)) == ws[i]
    {
      ArgRegKept(s, a, i);
    }
  }

  /** Below the return address memory is as the caller left it. */
  lemma {:induction false} EnterKeepsFrame(f: FnDecl, s: State, a: State)
    requires Distinct(f.params) && a.rsp == s.rsp - 8 && s.pc + 1 < TWO64 && a.mem == s.mem[a.rsp := s.pc + 1]
    ensures FrameUnder(f, a) == FrameBelow(f, s)
  {
    hide FnSlots, WellSpread, FrameSize, Distinct, Extends, Peek;
    FnSlotsSpread(f);
    forall x | x in FnSlots(f)
      ensures Peek(a.mem, a.rsp - 8 - FnSlots(f)[x]) == Peek(s.mem, s.rsp - 16 - FnSlots(f)[x])
    {
      PeekPast(s.mem, a.rsp, s.pc + 1, a.rsp - 8 - FnSlots(f)[x]);
    }
  }

  lemma {:induction false} PeekPast(mem: map<int, Word>, at: int, w: Word, p: int)
    requires p < at
    ensures Peek(mem[at := w], p) == Peek(mem, p)
  {
  }

  /** The same words, seen from the callee's first instruction. */
  function FrameUnder(f: FnDecl, a: State): Store {
    map x | x in FnSlots(f) :: Peek(a.mem, a.rsp - 8 - FnSlots(f)[x])
  }

  /** From a function's first instruction, just called. */
  ghost predicate FnDone(m: Image, d: nat, n: nat, s: State, t: State, r: Res<Word>) {
    match r
    case Ok(v, out) =>
      && Reaches(m, s, t) && t.status.Running? && t.pc == Peek(s.mem, s.rsp) && t.rax == v && t.trace == s.trace + out
      && t.rsp == s.rsp + 8 && t.rbp == s.rbp && SameAbove(s, t, s.rsp)
    case Trap(out) => Reaches(m, s, t) && t.status.DivideTrap? && t.trace == s.trace + out
    case OutOfFuel(deep) => GoesOn(m, d, n, s, deep)
    case Stuck(why) => !why.Uninitialised?
  }

  lemma {:induction false} SimFn(w: World, f: Linked, ws: seq<Word>, words: Store, d: nat, n: nat, s: State, ln: nat)
    returns (t: State, inner: Residue)
    requires Valid(w) && f.decl in w.p.fns && |f.decl.params| == |ws| <= MAX_REG_ARGS && InRegs(s, 0, ws)
    requires Fits(w.img.code, s.pc, FnCode(w.Names(), f.decl, ln, f.strBase)) && words == FrameUnder(f.decl, s)
    requires Ready(s, s.pc, FrameRoom(f.decl) - 8 + CallRoom(w.p.fns, d)) && s.rsp + 8 < TWO64
    ensures Held(w, s, inner)
    ensures var z := Frame(words, inner);
      FnDone(w.img, d, n, s, t,
             FnResult(f.decl.ret, ExecBlock(w.p, EntryCtx(f.decl, z), f.decl.body, EntryStore(f.decl, ws, z), f.strBase, d, n)))
    decreases d, 1
  {
    hide Fits, CallRoom, ExecBlock, BlockCode, Prologue, FrameHolds, PartHolds, EntryStore, FnSlots, FnNames, Valid, Epilogue, FrameSize, ParamNames,
      BlockClear, Held, OthersKept, FrameUnder, GoesOn;
    var env := FnEnv(f.decl, ln);
    var body := BlockCode(w.Names(), env, f.decl.body, ln + 1, f.strBase);
    FitsCat(w.img.code, s.pc, Prologue(f.decl), body + Epilogue(f.decl.ret, FnEnd(ln)));
    FitsCat(w.img.code, s.pc + |Prologue(f.decl)|, body, Epilogue(f.decl.ret, FnEnd(ln)));
    FnSupported(w, f.decl);
    var a := SimPrologue(w.img, s, f.decl, ws);
    EndPlaced(w, f.decl, ln, a.pc + |body|);
    EntryHolds(f.decl, ws, s, a, words, Unspecified);
    var store := EntryStore(f.decl, ws, Frame(words, Unspecified));
    var b;
    b, inner := SimBlock(w, Among(ParamNames(f.decl.params)), env, f.decl.body, store, ln + 1, f.strBase, d, n, a);
    EntryForgets(f.decl, ws, words, inner);
    HeldEarlier(w, s, a, inner);
    var z := Frame(words, inner);
    var r := ExecBlock(w.p, EntryCtx(f.decl, z), f.decl.body, EntryStore(f.decl, ws, z), f.strBase, d, n);
    t := SimLeave(w.img, d, n, s, a, b, f.decl, env, r, a.pc + |body|);
  }

  /** What the frame of a call holds on entry does not depend on what the frames of later calls hold. */
  lemma {:induction false} EntryForgets(f: FnDecl, ws: seq<Word>, words: Store, z: Residue)
    requires |f.params| == |ws|
    ensures EntryStore(f, ws, Frame(words, z)) == EntryStore(f, ws, Frame(words, Unspecified))
  {}

  lemma {:induction false} EntryHolds(f: FnDecl, ws: seq<Word>, s: State, a: State, words: Store, z: Residue)
    requires |f.params| == |ws| && Distinct(f.params) && PartHolds(FnSlots(f), Bind(f.params, ws), a)
    requires words == FrameUnder(f, s) && a.rbp == s.rsp - 8 && OthersKept(s.mem, a.mem, a.rbp, f.params, FnSlots(f))
    ensures FrameHolds(FnSlots(f), EntryStore(f, ws, Frame(words, z)), a)
  {
    hide FnSlots, Bind, DeclaredNames, FrameHolds, PartHolds, Peek, OthersKept, FrameUnder, Distinct, Among, EntryStore;
    SlotsAreDeclared(f);
    PartKeys(FnSlots(f), Bind(f.params, ws), a);
    forall x | x in FnSlots(f) && x !in Bind(f.params, ws)
      ensures x in words && Peek(a.mem, a.rbp - FnSlots(f)[x]) == words[x]
    {
      OtherSlot(f, ws, s, a, x);
    }
    EntryStoreIs(f, ws, words, z);
    MergedHolds(FnSlots(f), words, Bind(f.params, ws), EntryStore(f, ws, Frame(words, z)), a);
  }

  lemma {:induction false} PartKeys(locals: map<string, nat>, store: Store, a: State)
    requires PartHolds(locals, store, a)
    ensures store.Keys <= locals.Keys
  {}

  lemma {:induction false} EntryStoreIs(f: FnDecl, ws: seq<Word>, words: Store, z: Residue)
    requires |f.params| == |ws|
    ensures var bound, store := Bind(f.params, ws), EntryStore(f, ws, Frame(words, z));
      store.Keys == Among(DeclaredNames(f)) + bound.Keys
      && forall x :: x in store ==> store[x] == if x in bound then bound[x] else if x in words then words[x] else 0
  {
    hide Bind, DeclaredNames, Among;
  }

  lemma {:induction false} MergedHolds(locals: map<string, nat>, words: Store, bound: Store, store: Store, a: State)
    requires PartHolds(locals, bound, a) && store.Keys == locals.Keys
    requires forall x :: x in store ==> store[x] == if x in bound then bound[x] else if x in words then words[x] else 0
    requires forall x :: x in locals && x !in bound ==> x in words && Peek(a.mem, a.rbp - locals[x]) == words[x]
    ensures FrameHolds(locals, store, a)
  {
    hide WellSpread, Peek;
  }

  lemma {:induction false} OtherSlot(f: FnDecl, ws: seq<Word>, s: State, a: State, x: string)
    requires |f.params| == |ws| && Distinct(f.params) && x in FnSlots(f) && x !in Bind(f.params, ws)
    requires a.rbp == s.rsp - 8 && OthersKept(s.mem, a.mem, a.rbp, f.params, FnSlots(f))
    ensures x in FrameUnder(f, s) && Peek(a.mem, a.rbp - FnSlots(f)[x]) == FrameUnder(f, s)[x]
  {
    hide FnSlots, Bind, Peek;
    NotAParam(f.params, ws, x);
  }

  lemma {:induction false} NotAParam(params: seq<Param>, ws: seq<Word>, x: string)
    requires |params| == |ws| && Distinct(params) && x !in Bind(params, ws)
    ensures forall k :: 0 <= k < |params| ==> params[k].name != x
  {
    BindAt(params, ws);
  }

  lemma {:induction false} FnSupported(w: World, f: FnDecl)
    requires Valid(w) && f in w.p.fns
    ensures Distinct(f.params) && BlockFits6(f.body) && Codegen.BlockHasSlots(f.body, FnSlots(f).Keys)
    ensures BlockClear(w.Names(), FnSlots(f).Keys, Among(ParamNames(f.params)), f.body)
    ensures Among(ParamNames(f.params)) <= FnSlots(f).Keys
  {
    ParamsNamed(f.params);
    FnSlotsSpread(f);
  }

  lemma {:induction false} EndPlaced(w: World, f: FnDecl, ln: nat, at: nat)
    requires Valid(w) && Fits(w.img.code, at, Epilogue(f.ret, FnEnd(ln)))
    ensures EnvPlaced(w.img.code, FnEnv(f, ln))
    ensures Target(w.img.code, FnEnd(ln)) == Option.Some(if f.ret == "void" then at + 1 else at)
  {
    var k := if f.ret == "void" then 1 else 0;
    FitsAt(w.img.code, at, Epilogue(f.ret, FnEnd(ln)), k);
    ProgramLabelsUnique(w.p.fns, w.pkg);
    TargetIs(w.img.code, at + k, FnEnd(ln));
  }

  /** From the end of the body, or from a return inside it, to the end label. */
  lemma {:induction false} SimToEnd(m: Image, d: nat, n: nat, env: Env, a: State, b: State, ret: string, r: Res<Flow>, at: nat) returns (u: State)
    requires Fits(m.code, at, Epilogue(ret, env.end))
    requires Target(m.code, env.end) == Option.Some(if ret == "void" then at + 1 else at)
    requires FlowDone(m, d, n, env, a, b, at, r) && r.Ok? && (r.v.Returned? || (r.v.Onward? && ret == "void"))
    ensures Reaches(m, a, u) && u.status.Running? && u.trace == a.trace + r.out && SameFrame(a, u)
    ensures Fits(m.code, u.pc, [Lab(env.end), MovReg(RSP, RBP), Pop(RBP), Return])
    ensures u.rax == if r.v.Returned? then r.v.w else 0
  {
    hide FrameHolds;
    var back := [Lab(env.end), MovReg(RSP, RBP), Pop(RBP), Return];
    u := b;
    if ret == "void" {
      FitsCat(m.code, at, [XorEax], back);
      if r.v.Onward? {
        FitsAt(m.code, at, [XorEax], 0);
        u := Then(m, a, b, XorEax);
      }
    } else {
      assert Epilogue(ret, env.end) == back;
    }
  }

  /** Back to the caller. a is the state after the prologue. */
  lemma {:induction false} SimLeave(m: Image, d: nat, n: nat, s: State, a: State, b: State, f: FnDecl, env: Env, r: Res<Flow>, at: nat) returns (t: State)
    requires env.breaks == [] && env.continues == []
    requires Reaches(m, s, a) && a.trace == s.trace && a.rbp == s.rsp - 8 && s.rsp % 8 == 0 && s.rsp + 8 < TWO64
    requires Peek(a.mem, a.rbp) == s.rbp && SameAbove(s, a, s.rsp)
    requires Fits(m.code, at, Epilogue(f.ret, env.end))
    requires Target(m.code, env.end) == Option.Some(if f.ret == "void" then at + 1 else at)
    requires FlowDone(m, d, n, env, a, b, at, r)
    ensures FnDone(m, d, n, s, t, FnResult(f.ret, r))
  {
    t := b;
    if r.Trap? {
      ReachesTrans(m, s, a, b);
    } else if r.OutOfFuel? {
      GoesOnFrom(m, d, n, s, a, r.deep);
    } else if r.Ok? && (r.v.Returned? || (r.v.Onward? && f.ret == "void")) {
      var u := SimToEnd(m, d, n, env, a, b, f.ret, r, at);
      hide Fits, FlowDone, Epilogue;
      ReachesTrans(m, s, a, u);
      assert Peek(u.mem, u.rbp) == Peek(a.mem, a.rbp) && Peek(u.mem, u.rbp + 8) == Peek(a.mem, a.rbp + 8);
      t := SimReturn(m, s, u, env.end);
    }
  }

  // ----- statements -----

  /** The labels a statement may jump to outside itself are in the code. */
  ghost predicate EnvPlaced(code: seq<Instr>, env: Env) {
    && Target(code, env.end).Some?
    && (env.breaks != [] ==> Target(code, env.breaks[|env.breaks| - 1]).Some?)
    && (env.continues != [] ==> Target(code, env.continues[|env.continues| - 1]).Some?)
  }

  /** Same frame and stack pointer; the stack above the frame pointer is untouched. */
  ghost predicate SameFrame(s: State, t: State) {
    t.rsp == s.rsp && t.rbp == s.rbp && SameAbove(s, t, s.rbp)
  }

  ghost predicate LandsAt(code: seq<Instr>, labels: seq<Label>, pc: nat) {
    labels != [] && Target(code, labels[|labels| - 1]) == Option.Some(pc)
  }

  /** The machine has done what a statement's or block's result says, ending at pc when control runs on. */
  ghost predicate FlowDone(m: Image, d: nat, n: nat, env: Env, s: State, t: State, pc: nat, r: Res<Flow>) {
    match r
    case Ok(flow, out) =>
      (match flow
       case Broke(_) => env.breaks != []
       case Continued(_) => env.continues != []
       case _ => true)
      ==>
      && Reaches(m, s, t) && t.status.Running? && t.trace == s.trace + out && SameFrame(s, t)
      && (match flow
          case Onward(store) => t.pc == pc && FrameHolds(env.locals, store, t)
          case Broke(store) => LandsAt(m.code, env.breaks, t.pc) && FrameHolds(env.locals, store, t)
          case Continued(store) => LandsAt(m.code, env.continues, t.pc) && FrameHolds(env.locals, store, t)
          case Returned(w) => Target(m.code, env.end) == Option.Some(t.pc) && t.rax == w)
    case Trap(out) => Reaches(m, s, t) && t.status.DivideTrap? && t.trace == s.trace + out
    case OutOfFuel(deep) => GoesOn(m, d, n, s, deep)
    case Stuck(why) => !why.Uninitialised?
  }

  lemma {:induction false} FlowTrans(m: Image, d: nat, n: nat, env: Env, s: State, t: State, u: State, pc: nat, out: seq<Event>, r: Res<Flow>)
    requires Reaches(m, s, t) && t.trace == s.trace + out && SameFrame(s, t) && FlowDone(m, d, n, env, t, u, pc, r)
    ensures FlowDone(m, d, n, env, s, u, pc, After(out, r))
  {
    if r.Ok? || r.Trap? {
      assert s.trace + out + r.out == s.trace + (out + r.out);
      if Reaches(m, t, u) {
        ReachesTrans(m, s, t, u);
      }
    } else if r.OutOfFuel? {
      GoesOnFrom(m, d, n, s, t, r.deep);
    }
  }

  ghost predicate Fit(w: World, env: Env) {
    Valid(w) && EnvPlaced(w.img.code, env)
  }

  /** If the source result runs on, the machine may run on as well, here to pc'. */
  lemma {:induction false} FlowOn(m: Image, d: nat, n: nat, env: Env, s: State, t: State, u: State, pc: nat, pc': nat, r: Res<Flow>)
    requires FlowDone(m, d, n, env, s, t, pc, r)
    requires if r.Ok? && r.v.Onward? then Reaches(m, s, u) && u == t.(pc := pc') else u == t
    ensures FlowDone(m, d, n, env, s, u, pc', r)
  {}

  lemma {:induction false} SimBlock(w: World, vars: set<string>, env: Env, b: Block, store: Store, ln: nat, sn: nat, d: nat, n: nat, s: State)
    returns (t: State, z: Residue)
    requires vars <= env.locals.Keys
    requires Fit(w, env) && BlockFits6(b) && Codegen.BlockHasSlots(b, env.locals.Keys) && BlockClear(w.Names(), env.locals.Keys, vars, b)
    requires Fits(w.img.code, s.pc, BlockCode(w.Names(), env, b, ln, sn))
    requires Ready(s, s.pc, BlockRoom(b) + CallRoom(w.p.fns, d)) && FrameHolds(env.locals, store, s)
    ensures Held(w, s, z)
    ensures FlowDone(w.img, d, n, env, s, t, s.pc + |BlockCode(w.Names(), env, b, ln, sn)|, ExecBlock(w.p, Ctx(vars, z), b, store, sn, d, n))
    decreases d, 0, n, b, 1
  {
    hide Held, GoesOn;
    if b == [] {
      t, z := s, Unspecified;
      HeldNone(w, s);
      ReachesRefl(w.img, s);
    } else {
      t, z := SimSomeBlock(w, vars, env, b, store, ln, sn, d, n, s);
    }
  }

  lemma {:induction false} BlockUnfolds(w: World, env: Env, b: Block, ln: nat, sn: nat)
    requires b != []
    ensures BlockCode(w.Names(), env, b, ln, sn)
         == StmtCode(w.Names(), env, b[0], ln, sn)
          + BlockCode(w.Names(), env, b[1..], ln + StmtLabels(b[0]), sn + |StmtStrings(b[0])|)
    ensures BlockRoom(b) >= StmtRoom(b[0]) && BlockRoom(b) >= BlockRoom(b[1..])
    ensures BlockFits6(b) ==> StmtFits6(b[0]) && BlockFits6(b[1..])
    ensures forall names :: Codegen.BlockHasSlots(b, names) ==> Codegen.StmtHasSlots(b[0], names) && Codegen.BlockHasSlots(b[1..], names)
  {}

  lemma {:induction false} BlockExecutes(w: World, vars: set<string>, y: Residue, z: Residue, b: Block, store: Store, sn: nat, d: nat, n: nat)
    requires b != []
    ensures
      var first := ExecStmt(w.p, Ctx(vars, y), b[0], store, sn, d, n);
      var later := Ctx(vars + Among(StmtNames(b[0])), z);
      ExecBlock(w.p, Ctx(vars, Fork(y, z)), b, store, sn, d, n)
      == if first.Ok? && first.v.Onward? then
           After(first.out, ExecBlock(w.p, later, b[1..], first.v.store, sn + |StmtStrings(b[0])|, d, n))
         else first
  {}

  lemma {:induction false} SimSomeBlock(w: World, vars: set<string>, env: Env, b: Block, store: Store, ln: nat, sn: nat, d: nat, n: nat, s: State)
    returns (t: State, z: Residue)
    requires vars <= env.locals.Keys
    requires b != []
    requires Fit(w, env) && BlockFits6(b) && Codegen.BlockHasSlots(b, env.locals.Keys) && BlockClear(w.Names(), env.locals.Keys, vars, b)
    requires Fits(w.img.code, s.pc, BlockCode(w.Names(), env, b, ln, sn))
    requires Ready(s, s.pc, BlockRoom(b) + CallRoom(w.p.fns, d)) && FrameHolds(env.locals, store, s)
    ensures Held(w, s, z)
    ensures FlowDone(w.img, d, n, env, s, t, s.pc + |BlockCode(w.Names(), env, b, ln, sn)|, ExecBlock(w.p, Ctx(vars, z), b, store, sn, d, n))
    decreases d, 0, n, b, 0
  {
    hide Fit, Fits, FrameHolds, BlockCode, StmtCode, ExecBlock, ExecStmt, BlockRoom, StmtRoom, BlockFits6, StmtFits6, FnNames, CallRoom,
      StmtStrings, StmtLabels, StmtNames, BlockClear, StmtClear, Codegen.BlockHasSlots, Codegen.StmtHasSlots, Held, GoesOn;
    BlockUnfolds(w, env, b, ln, sn);
    ClearBlock(w.Names(), env.locals.Keys, vars, b);
    var ln', sn', vars' := ln + StmtLabels(b[0]), sn + |StmtStrings(b[0])|, vars + Among(StmtNames(b[0]));
    var code, rest := StmtCode(w.Names(), env, b[0], ln, sn), BlockCode(w.Names(), env, b[1..], ln', sn');
    FitsCat(w.img.code, s.pc, code, rest);
    var a, y := SimStmt(w, vars, env, b[0], store, ln, sn, d, n, s);
    t, z := a, Unspecified;
    HeldFirst(w, s, y);
    SlottedNames(b[0], env.locals.Keys);
    var first := ExecStmt(w.p, Ctx(vars, y), b[0], store, sn, d, n);
    if first.Ok? && first.v.Onward? {
      t, z := SimBlock(w, vars', env, b[1..], first.v.store, ln', sn', d, n, a);
      HeldFork(w, s, y, a, z);
      FlowTrans(w.img, d, n, env, s, a, t, s.pc + |code| + |rest|, first.out, ExecBlock(w.p, Ctx(vars', z), b[1..], first.v.store, sn', d, n));
    }
    BlockExecutes(w, vars, y, z, b, store, sn, d, n);
    z := Fork(y, z);
  }

  /** What is declared has a slot. */
  lemma {:induction false} SlottedNames(c: Stmt, names: set<string>)
    requires Codegen.StmtHasSlots(c, names)
    ensures Among(StmtNames(c)) <= names
    decreases c
  {
    hide BlockNames, Codegen.BlockHasSlots;
    match c
    case If(_, t, NoElse) => SlottedBlock(t, names);
    case If(_, t, Else(e)) =>
      SlottedBlock(t, names);
      SlottedBlock(e, names);
    case Loop(b) => SlottedBlock(b, names);
    case While(_, b) => SlottedBlock(b, names);
    case UnsafeBlock(b) => SlottedBlock(b, names);
    case _ =>
  }

  lemma {:induction false} SlottedBlock(b: Block, names: set<string>)
    requires Codegen.BlockHasSlots(b, names)
    ensures Among(BlockNames(b)) <= names
    decreases b
  {
    hide StmtNames, Codegen.StmtHasSlots;
    if b != [] {
      SlottedNames(b[0], names);
      SlottedBlock(b[1..], names);
    }
  }

  lemma {:induction false} SimStmt(w: World, vars: set<string>, env: Env, c: Stmt, store: Store, ln: nat, sn: nat, d: nat, n: nat, s: State)
    returns (t: State, z: Residue)
    requires vars <= env.locals.Keys
    requires Fit(w, env) && StmtFits6(c) && Codegen.StmtHasSlots(c, env.locals.Keys) && StmtClear(w.Names(), env.locals.Keys, vars, c)
    requires Fits(w.img.code, s.pc, StmtCode(w.Names(), env, c, ln, sn))
    requires Ready(s, s.pc, StmtRoom(c) + CallRoom(w.p.fns, d)) && FrameHolds(env.locals, store, s)
    ensures Held(w, s, z)
    ensures FlowDone(w.img, d, n, env, s, t, s.pc + |StmtCode(w.Names(), env, c, ln, sn)|, ExecStmt(w.p, Ctx(vars, z), c, store, sn, d, n))
    decreases d, 0, n, c, 3
  {
    hide Fit, Fits, FrameHolds, BlockCode, ExprCode, EvalExpr, ExecBlock, BlockRoom, FnNames, CallRoom, FlowDone, Valid, ExprClear, Held, GoesOn;
    match c
    case Let(x, _, e) => t, z := SimAssign(w, vars, env, c, x, e, store, ln, sn, d, n, s);
    case Mut(x, _, e) => t, z := SimAssign(w, vars, env, c, x, e, store, ln, sn, d, n, s);
    case Assign(x, e) => t, z := SimAssign(w, vars, env, c, x, e, store, ln, sn, d, n, s);
    case Ret(_) => t, z := SimRet(w, vars, env, c, store, ln, sn, d, n, s);
    case If(_, _, _) => t, z := SimIf(w, vars, env, c, store, ln, sn, d, n, s);
    case Loop(_) => t, z := SimLoop(w, vars, env, c, store, ln, sn, d, n, s);
    case While(_, _) => t, z := SimWhile(w, vars, env, c, store, ln, sn, d, n, s);
    case Break => t, z := SimJump(w, vars, env, c, store, ln, sn, d, n, s);
    case Continue => t, z := SimJump(w, vars, env, c, store, ln, sn, d, n, s);
    case UnsafeBlock(body) => t, z := SimBlock(w, vars, env, body, store, ln, sn, d, n, s);
    case ExprStmt(e) => t, z := SimExprStmt(w, vars, env, c, store, ln, sn, d, n, s);
    case ErrorStmt => t, z := SimError(w, vars, env, c, store, ln, sn, d, n, s);
  }

  lemma {:induction false} SimError(w: World, vars: set<string>, env: Env, c: Stmt, store: Store, ln: nat, sn: nat, d: nat, n: nat, s: State)
    returns (t: State, z: Residue)
    requires vars <= env.locals.Keys
    requires c.ErrorStmt?
    ensures Held(w, s, z)
    ensures FlowDone(w.img, d, n, env, s, t, s.pc + |StmtCode(w.Names(), env, c, ln, sn)|, ExecStmt(w.p, Ctx(vars, z), c, store, sn, d, n))
  {
    hide Held, GoesOn;
    t, z := s, Unspecified;
    HeldNone(w, s);
  }

  lemma {:induction false} SimJump(w: World, vars: set<string>, env: Env, c: Stmt, store: Store, ln: nat, sn: nat, d: nat, n: nat, s: State)
    returns (t: State, z: Residue)
    requires vars <= env.locals.Keys
    requires c.Break? || c.Continue?
    requires Fit(w, env)
    requires Fits(w.img.code, s.pc, StmtCode(w.Names(), env, c, ln, sn))
    requires Ready(s, s.pc, 0) && FrameHolds(env.locals, store, s)
    ensures Held(w, s, z)
    ensures FlowDone(w.img, d, n, env, s, t, s.pc + |StmtCode(w.Names(), env, c, ln, sn)|, ExecStmt(w.p, Ctx(vars, z), c, store, sn, d, n))
  {
    hide Valid, FnNames, FrameHolds, Fits, Held, GoesOn;
    t, z := s, Unspecified;
    HeldNone(w, s);
    var labels := if c.Break? then env.breaks else env.continues;
    if labels != [] {
      FitsAt(w.img.code, s.pc, JumpToLast(labels), 0);
      t := Step1(w.img, s, Jmp(labels[|labels| - 1]));
      FrameKept(env.locals, store, s, t);
    }
  }

  lemma {:induction false} SimExprStmt(w: World, vars: set<string>, env: Env, c: Stmt, store: Store, ln: nat, sn: nat, d: nat, n: nat, s: State)
    returns (t: State, z: Residue)
    requires vars <= env.locals.Keys
    requires c.ExprStmt?
    requires Fit(w, env) && ExprFits6(c.expr) && StmtClear(w.Names(), env.locals.Keys, vars, c)
    requires Fits(w.img.code, s.pc, ExprCode(w.Names(), env.locals, c.expr, sn))
    requires Ready(s, s.pc, ExprRoom(c.expr) + CallRoom(w.p.fns, d)) && FrameHolds(env.locals, store, s)
    ensures Held(w, s, z)
    ensures FlowDone(w.img, d, n, env, s, t, s.pc + |StmtCode(w.Names(), env, c, ln, sn)|, ExecStmt(w.p, Ctx(vars, z), c, store, sn, d, n))
    decreases d, 0, n, c, 0
  {
    hide Valid, Fits, FrameHolds, ExprCode, EvalExpr, ExprRoom, ExprFits6, FnNames, CallRoom, ExprClear, StmtClear, Held, GoesOn;
    ClearSimple(w.Names(), env.locals.Keys, vars, c);
    t, z := SimExpr(w, vars, env.locals, c.expr, store, sn, d, n, s);
    if EvalExpr(w.p, Ctx(vars, z), c.expr, store, sn, d, n).Ok? {
      FrameKept(env.locals, store, s, t);
      KeepsFrame(env.locals, store, s, t);
    }
  }

  lemma {:induction false} KeepsFrame(locals: map<string, nat>, store: Store, s: State, t: State)
    requires FrameHolds(locals, store, s) && Keeps(s, t)
    ensures SameFrame(s, t)
  {}

  lemma {:induction false} SimAssign(w: World, vars: set<string>, env: Env, c: Stmt, x: string, e: Expr, store: Store, ln: nat, sn: nat, d: nat, n: nat, s: State)
    returns (t: State, z: Residue)
    requires vars <= env.locals.Keys
    requires c == Assign(x, e) || (c.Let? && c.name == x && c.init == e) || (c.Mut? && c.name == x && c.init == e)
    requires Fit(w, env) && ExprFits6(e) && x in env.locals && StmtClear(w.Names(), env.locals.Keys, vars, c)
    requires Fits(w.img.code, s.pc, StmtCode(w.Names(), env, c, ln, sn))
    requires Ready(s, s.pc, ExprRoom(e) + CallRoom(w.p.fns, d)) && FrameHolds(env.locals, store, s)
    ensures Held(w, s, z)
    ensures FlowDone(w.img, d, n, env, s, t, s.pc + |StmtCode(w.Names(), env, c, ln, sn)|, ExecStmt(w.p, Ctx(vars, z), c, store, sn, d, n))
    decreases d, 0, n, c, 0
  {
    hide Valid, Fits, FrameHolds, ExprCode, EvalExpr, ExprRoom, ExprFits6, FnNames, CallRoom, ExprClear, StmtClear, Held, GoesOn;
    ClearSimple(w.Names(), env.locals.Keys, vars, c);
    var code := ExprCode(w.Names(), env.locals, e, sn);
    FitsCat(w.img.code, s.pc, code, StoreTo(env.locals, x));
    var a;
    a, z := SimExpr(w, vars, env.locals, e, store, sn, d, n, s);
    t := a;
    if EvalExpr(w.p, Ctx(vars, z), e, store, sn, d, n).Ok? {
      FitsAt(w.img.code, s.pc + |code|, StoreTo(env.locals, x), 0);
      t := SimStore(w.img, env.locals, store, s, a, x);
    }
  }

  /** Storing an expression's value in a local's slot. */
  lemma {:induction false} SimStore(m: Image, locals: map<string, nat>, store: Store, s: State, a: State, x: string) returns (t: State)
    requires Reaches(m, s, a) && a.status.Running? && Keeps(s, a) && FrameHolds(locals, store, s) && x in locals
    requires a.pc < |m.code| && m.code[a.pc] == Instr.Store(locals[x], RAX)
    ensures Reaches(m, s, t) && t.status.Running? && t.pc == a.pc + 1 && t.trace == a.trace
    ensures FrameHolds(locals, store[x := a.rax], t) && SameFrame(s, t)
  {
    FrameKept(locals, store, s, a);
    SlotInFrame(locals, store, a, x);
    hide FrameHolds, Reaches, SameFrame, Keeps;
    t := Then(m, s, a, Instr.Store(locals[x], RAX));
    AssignKept(locals, store, s, a, t, x);
  }

  /** No two locals share a slot, so storing to one leaves the others. */
  lemma {:induction false} SlotSet(locals: map<string, nat>, store: Store, mem: map<int, Word>, rbp: int, x: string, w: Word)
    requires WellSpread(locals) && x in locals && store.Keys <= locals.Keys
    requires forall y :: y in store ==> Peek(mem, rbp - locals[y]) == store[y]
    ensures forall y :: y in store[x := w] ==> Peek(mem[rbp - locals[x] := w], rbp - locals[y]) == store[x := w][y]
  {
    forall y | y in store[x := w]
      ensures Peek(mem[rbp - locals[x] := w], rbp - locals[y]) == store[x := w][y]
    {
      if y != x {
        assert y in store && locals[y] != locals[x];
      }
    }
  }

  /** Storing to a slot updates that local and nothing else of the frame, nor anything above it. */
  lemma {:induction false} AssignKept(locals: map<string, nat>, store: Store, s: State, a: State, t: State, x: string)
    requires x in locals && FrameHolds(locals, store, s) && FrameHolds(locals, store, a) && Keeps(s, a)
    requires t.rsp == a.rsp && t.rbp == a.rbp && t.mem == a.mem[a.rbp - locals[x] := a.rax]
    ensures FrameHolds(locals, store[x := a.rax], t) && SameFrame(s, t)
  {
    hide WellSpread, Peek;
    SlotInFrame(locals, store, a, x);
    SlotSet(locals, store, a.mem, a.rbp, x, a.rax);
    assert store[x := a.rax].Keys == store.Keys + {x};
    AboveKept(s, a, t, locals[x]);
  }

  lemma {:induction false} AboveKept(s: State, a: State, t: State, offset: nat)
    requires Keeps(s, a) && offset > 0 && s.rsp <= s.rbp
    requires t.mem == a.mem[a.rbp - offset := a.rax]
    ensures SameAbove(s, t, s.rbp)
  {
    forall p: int | p >= s.rbp
      ensures Peek(t.mem, p) == Peek(s.mem, p)
    {
      assert Peek(a.mem, p) == Peek(s.mem, p);
    }
  }

  lemma {:induction false} SimRet(w: World, vars: set<string>, env: Env, c: Stmt, store: Store, ln: nat, sn: nat, d: nat, n: nat, s: State)
    returns (t: State, z: Residue)
    requires vars <= env.locals.Keys
    requires c.Ret?
    requires Fit(w, env) && StmtFits6(c) && StmtClear(w.Names(), env.locals.Keys, vars, c)
    requires Fits(w.img.code, s.pc, StmtCode(w.Names(), env, c, ln, sn))
    requires Ready(s, s.pc, StmtRoom(c) + CallRoom(w.p.fns, d)) && FrameHolds(env.locals, store, s)
    ensures Held(w, s, z)
    ensures FlowDone(w.img, d, n, env, s, t, s.pc + |StmtCode(w.Names(), env, c, ln, sn)|, ExecStmt(w.p, Ctx(vars, z), c, store, sn, d, n))
    decreases d, 0, n, c, 0
  {
    hide Valid, Fits, FrameHolds, ExprCode, EvalExpr, ExprRoom, ExprFits6, FnNames, CallRoom, ExprClear, StmtClear, Held, GoesOn;
    match c.result
    case None =>
      FitsAt(w.img.code, s.pc, [XorEax, Jmp(env.end)], 0);
      FitsAt(w.img.code, s.pc, [XorEax, Jmp(env.end)], 1);
      z := Unspecified;
      HeldNone(w, s);
      t := Step1(w.img, s, XorEax);
      t := Then(w.img, s, t, Jmp(env.end));
    case Some(e) =>
      ClearSimple(w.Names(), env.locals.Keys, vars, c);
      t, z := SimRetValue(w, vars, env, e, store, ln, sn, d, n, s);
  }

  lemma {:induction false} SimRetValue(w: World, vars: set<string>, env: Env, e: Expr, store: Store, ln: nat, sn: nat, d: nat, n: nat, s: State)
    returns (t: State, z: Residue)
    requires vars <= env.locals.Keys
    requires Fit(w, env) && ExprFits6(e) && ExprClear(w.Names(), env.locals.Keys, vars, e)
    requires Fits(w.img.code, s.pc, ExprCode(w.Names(), env.locals, e, sn) + [Jmp(env.end)])
    requires Ready(s, s.pc, ExprRoom(e) + CallRoom(w.p.fns, d)) && FrameHolds(env.locals, store, s)
    ensures Held(w, s, z)
    ensures FlowDone(w.img, d, n, env, s, t, s.pc + |ExprCode(w.Names(), env.locals, e, sn)| + 1,
                     ExecStmt(w.p, Ctx(vars, z), Ret(Option.Some(e)), store, sn, d, n))
    decreases d, 0, n, e, 3
  {
    hide Valid, Fits, FrameHolds, ExprCode, EvalExpr, ExprRoom, ExprFits6, FnNames, CallRoom, ExprClear, StmtClear, Held, GoesOn;
    var code := ExprCode(w.Names(), env.locals, e, sn);
    FitsCat(w.img.code, s.pc, code, [Jmp(env.end)]);
    FitsAt(w.img.code, s.pc + |code|, [Jmp(env.end)], 0);
    var a;
    a, z := SimExpr(w, vars, env.locals, e, store, sn, d, n, s);
    t := a;
    if EvalExpr(w.p, Ctx(vars, z), e, store, sn, d, n).Ok? {
      KeepsFrame(env.locals, store, s, a);
      t := Then(w.img, s, a, Jmp(env.end));
    }
  }

  /** A condition: a non-zero value runs on, zero goes to the target. */
  lemma {:induction false} SimGuard(w: World, vars: set<string>, env: Env, cond: Expr, target: Label, at: nat, store: Store, sn: nat, d: nat, n: nat, s: State)
    returns (t: State, z: Residue)
    requires vars <= env.locals.Keys
    requires Fit(w, env) && ExprFits6(cond) && ExprClear(w.Names(), env.locals.Keys, vars, cond) && Target(w.img.code, target) == Option.Some(at)
    requires Fits(w.img.code, s.pc, GuardCode(w.Names(), env.locals, cond, target, sn))
    requires Ready(s, s.pc, ExprRoom(cond) + CallRoom(w.p.fns, d)) && FrameHolds(env.locals, store, s)
    ensures Held(w, s, z)
    ensures GuardDone(w.img, d, n, env, store, s, t, s.pc + |GuardCode(w.Names(), env.locals, cond, target, sn)|, at,
                      EvalExpr(w.p, Ctx(vars, z), cond, store, sn, d, n))
    decreases d, 0, n, cond, 3
  {
    hide Valid, Fits, FrameHolds, ExprCode, EvalExpr, ExprRoom, ExprFits6, FnNames, CallRoom, ExprClear, StmtClear, Held, GoesOn;
    var code := ExprCode(w.Names(), env.locals, cond, sn);
    FitsCat(w.img.code, s.pc, code, [CmpRaxImm0, Je(target)]);
    var a;
    a, z := SimExpr(w, vars, env.locals, cond, store, sn, d, n, s);
    t := a;
    if EvalExpr(w.p, Ctx(vars, z), cond, store, sn, d, n).Ok? {
      t := SimTest(w.img, s, a, target, at);
      FrameKept(env.locals, store, s, t);
      KeepsFrame(env.locals, store, s, t);
    }
  }

  /** Compare with zero, and jump if it is. */
  lemma {:induction false} SimTest(m: Image, s: State, a: State, target: Label, at: nat) returns (t: State)
    requires Reaches(m, s, a) && a.status.Running? && Fits(m.code, a.pc, [CmpRaxImm0, Je(target)])
    requires Target(m.code, target) == Option.Some(at)
    ensures Reaches(m, s, t) && t.status.Running? && t.pc == (if a.rax != 0 then a.pc + 2 else at)
    ensures t.rsp == a.rsp && t.rbp == a.rbp && t.mem == a.mem && t.trace == a.trace
  {
    FitsAt(m.code, a.pc, [CmpRaxImm0, Je(target)], 0);
    FitsAt(m.code, a.pc, [CmpRaxImm0, Je(target)], 1);
    hide Fits, Reaches;
    FlagsCompare(a, a.rax, 0);
    t := Then(m, s, a, CmpRaxImm0);
    t := Then(m, s, t, Je(target));
  }

  ghost predicate GuardDone(m: Image, d: nat, n: nat, env: Env, store: Store, s: State, t: State, pc: nat, at: nat, r: Res<Word>) {
    match r
    case Ok(v, out) =>
      && Reaches(m, s, t) && t.status.Running? && t.pc == (if v != 0 then pc else at) && t.trace == s.trace + out
      && SameFrame(s, t) && FrameHolds(env.locals, store, t)
    case Trap(out) => Reaches(m, s, t) && t.status.DivideTrap? && t.trace == s.trace + out
    case OutOfFuel(deep) => GoesOn(m, d, n, s, deep)
    case Stuck(why) => !why.Uninitialised?
  }

  /** The labels of a generated loop or branch are where its code defines them. */
  lemma {:induction false} LabelAt(w: World, at: nat, l: Label)
    requires Valid(w) && Fits(w.img.code, at, [Lab(l)])
    ensures Target(w.img.code, l) == Option.Some(at) && at < |w.img.code| && w.img.code[at] == Lab(l)
  {
    FitsAt(w.img.code, at, [Lab(l)], 0);
    ProgramLabelsUnique(w.p.fns, w.pkg);
    TargetIs(w.img.code, at, l);
  }

  // ----- branches -----

  lemma {:induction false} IfUnfolds(w: World, env: Env, c: Stmt, ln: nat, sn: nat)
    requires c.If?
    ensures
      var sn' := sn + |Strings(c.cond)|;
      StmtCode(w.Names(), env, c, ln, sn)
      == GuardCode(w.Names(), env.locals, c.cond, FalseTarget(c.elseArm, ln), sn)
       + (BlockCode(w.Names(), env, c.thenBlock, ln + 2, sn') + [Jmp(IfEnd(ln))]
          + (ElseCode(w.Names(), env, c.elseArm, IfElse(ln), ln + 2 + BlockLabels(c.thenBlock), sn' + |BlockStrings(c.thenBlock)|)
             + [Lab(IfEnd(ln))]))
    ensures StmtRoom(c) >= ExprRoom(c.cond) && StmtRoom(c) >= BlockRoom(c.thenBlock) && StmtRoom(c) >= ArmRoom(c.elseArm)
    ensures StmtFits6(c) ==> ExprFits6(c.cond) && BlockFits6(c.thenBlock) && (c.elseArm.Else? ==> BlockFits6(c.elseArm.block))
    ensures forall names :: Codegen.StmtHasSlots(c, names) ==>
      Codegen.BlockHasSlots(c.thenBlock, names) && (c.elseArm.Else? ==> Codegen.BlockHasSlots(c.elseArm.block, names))
  {}

  lemma {:induction false} IfExecutes(w: World, vars: set<string>, y: Residue, z: Residue, c: Stmt, store: Store, sn: nat, d: nat, n: nat)
    requires c.If?
    ensures
      var r := EvalExpr(w.p, Ctx(vars, y), c.cond, store, sn, d, n);
      var sn' := sn + |Strings(c.cond)|;
      var past := Ctx(vars + Among(BlockNames(c.thenBlock)), z);
      ExecStmt(w.p, Ctx(vars, Fork(y, z)), c, store, sn, d, n)
      == if !r.Ok? then Failed(r)
         else if r.v != 0 then After(r.out, ExecBlock(w.p, Ctx(vars, z), c.thenBlock, store, sn', d, n))
         else if c.elseArm.NoElse? then After(r.out, Ok(Onward(store), []))
         else After(r.out, ExecBlock(w.p, past, c.elseArm.block, store, sn' + |BlockStrings(c.thenBlock)|, d, n))
  {
    hide EvalExpr, ExecBlock, Strings, BlockStrings, BlockNames;
    assert forall out: seq<Event> :: out + [] == out;
  }

  /** Where the parts of an `if` are. */
  ghost predicate IfPlaced(code: seq<Instr>, pc: nat, g: seq<Instr>, t: seq<Instr>, e: seq<Instr>, end: Label) {
    && Fits(code, pc, g) && Fits(code, pc + |g|, t) && Fits(code, pc + |g| + |t|, [Jmp(end)])
    && Fits(code, pc + |g| + |t| + 1, e) && Fits(code, pc + |g| + |t| + 1 + |e|, [Lab(end)])
  }

  lemma {:induction false} IfParts(code: seq<Instr>, pc: nat, g: seq<Instr>, t: seq<Instr>, e: seq<Instr>, end: Label)
    requires Fits(code, pc, g + (t + [Jmp(end)] + (e + [Lab(end)])))
    ensures IfPlaced(code, pc, g, t, e, end)
  {
    FitsCat(code, pc, g, t + [Jmp(end)] + (e + [Lab(end)]));
    FitsCat(code, pc + |g|, t + [Jmp(end)], e + [Lab(end)]);
    FitsCat(code, pc + |g|, t, [Jmp(end)]);
    FitsCat(code, pc + |g| + |t| + 1, e, [Lab(end)]);
  }

  /** Where a false condition and the end of the then-block lead. */
  lemma {:induction false} IfTargets(w: World, env: Env, arm: ElseArm, l: nat, ln: nat, sn: nat, at: nat)
    requires Valid(w) && Fits(w.img.code, at, ElseCode(w.Names(), env, arm, IfElse(l), ln, sn))
    requires Fits(w.img.code, at + |ElseCode(w.Names(), env, arm, IfElse(l), ln, sn)|, [Lab(IfEnd(l))])
    ensures Target(w.img.code, FalseTarget(arm, l)) == Option.Some(at)
    ensures var exit := at + |ElseCode(w.Names(), env, arm, IfElse(l), ln, sn)|;
      Target(w.img.code, IfEnd(l)) == Option.Some(exit) && exit < |w.img.code| && w.img.code[exit] == Lab(IfEnd(l))
  {
    hide Valid, Fits, BlockCode, Target;
    var code := ElseCode(w.Names(), env, arm, IfElse(l), ln, sn);
    LabelAt(w, at + |code|, IfEnd(l));
    if arm.Else? {
      FitsCat(w.img.code, at, [Lab(IfElse(l))], code[1..]);
      LabelAt(w, at, IfElse(l));
    }
  }

  lemma {:induction false} SimIf(w: World, vars: set<string>, env: Env, c: Stmt, store: Store, ln: nat, sn: nat, d: nat, n: nat, s: State)
    returns (t: State, z: Residue)
    requires vars <= env.locals.Keys
    requires c.If?
    requires Fit(w, env) && StmtFits6(c) && Codegen.StmtHasSlots(c, env.locals.Keys) && StmtClear(w.Names(), env.locals.Keys, vars, c)
    requires Fits(w.img.code, s.pc, StmtCode(w.Names(), env, c, ln, sn))
    requires Ready(s, s.pc, StmtRoom(c) + CallRoom(w.p.fns, d)) && FrameHolds(env.locals, store, s)
    ensures Held(w, s, z)
    ensures FlowDone(w.img, d, n, env, s, t, s.pc + |StmtCode(w.Names(), env, c, ln, sn)|, ExecStmt(w.p, Ctx(vars, z), c, store, sn, d, n))
    decreases d, 0, n, c, 0
  {
    hide Fits, Valid, FrameHolds, BlockCode, StmtCode, ExprCode, GuardCode, ExecBlock, ExecStmt, EvalExpr, BlockRoom, ExprRoom, StmtRoom,
      BlockFits6, StmtFits6, ExprFits6, FnNames, CallRoom, Strings, BlockStrings, BlockNames, BlockLabels, BlockClear, StmtClear, ExprClear,
      Codegen.BlockHasSlots, Codegen.StmtHasSlots, FlowDone, Held, GoesOn,
      ElseCode, FalseTarget, Target, Among;
    IfUnfolds(w, env, c, ln, sn);
    ClearIf(w.Names(), env.locals.Keys, vars, c);
    var sn' := sn + |Strings(c.cond)|;
    var ln'', sn'' := ln + 2 + BlockLabels(c.thenBlock), sn' + |BlockStrings(c.thenBlock)|;
    var g := GuardCode(w.Names(), env.locals, c.cond, FalseTarget(c.elseArm, ln), sn);
    var tc := BlockCode(w.Names(), env, c.thenBlock, ln + 2, sn');
    var ec := ElseCode(w.Names(), env, c.elseArm, IfElse(ln), ln'', sn'');
    IfParts(w.img.code, s.pc, g, tc, ec, IfEnd(ln));
    var elseAt := s.pc + |g| + |tc| + 1;
    IfTargets(w, env, c.elseArm, ln, ln'', sn'', elseAt);
    var a, y := SimGuard(w, vars, env, c.cond, FalseTarget(c.elseArm, ln), elseAt, store, sn, d, n, s);
    t, z := a, Unspecified;
    HeldFirst(w, s, y);
    SlottedBlock(c.thenBlock, env.locals.Keys);
    var r := EvalExpr(w.p, Ctx(vars, y), c.cond, store, sn, d, n);
    if r.Ok? && r.v != 0 {
      t, z := SimThen(w, vars, env, c.thenBlock, store, ln + 2, sn', d, n, s, a, r.out, IfEnd(ln), elseAt + |ec|);
      HeldFork(w, s, y, a, z);
    } else if r.Ok? {
      t, z := SimOtherwise(w, vars + Among(BlockNames(c.thenBlock)), env, c.elseArm, store, ln, ln'', sn'', d, n, s, a, r.out);
      HeldFork(w, s, y, a, z);
    } else {
      GuardFailed(w.img, d, n, env, store, s, a, s.pc + |g|, elseAt, r, elseAt + |ec| + 1);
    }
    IfExecutes(w, vars, y, z, c, store, sn, d, n);
    z := Fork(y, z);
  }

  /** The then-block, from state a. */
  lemma {:induction false} SimThen(w: World, vars: set<string>, env: Env, b: Block, store: Store, ln: nat, sn: nat, d: nat, n: nat,
                                   s: State, a: State, out: seq<Event>, end: Label, at: nat)
    returns (t: State, z: Residue)
    requires vars <= env.locals.Keys
    requires Fit(w, env) && BlockFits6(b) && Codegen.BlockHasSlots(b, env.locals.Keys) && BlockClear(w.Names(), env.locals.Keys, vars, b)
    requires Fits(w.img.code, a.pc, BlockCode(w.Names(), env, b, ln, sn))
    requires Fits(w.img.code, a.pc + |BlockCode(w.Names(), env, b, ln, sn)|, [Jmp(end)])
    requires Target(w.img.code, end) == Option.Some(at) && at < |w.img.code| && w.img.code[at] == Lab(end)
    requires Ready(a, a.pc, BlockRoom(b) + CallRoom(w.p.fns, d)) && FrameHolds(env.locals, store, a)
    requires Reaches(w.img, s, a) && a.trace == s.trace + out && SameFrame(s, a)
    ensures Held(w, a, z)
    ensures FlowDone(w.img, d, n, env, s, t, at + 1, After(out, ExecBlock(w.p, Ctx(vars, z), b, store, sn, d, n)))
    decreases d, 0, n, b, 2
  {
    hide Fit, Fits, FrameHolds, BlockCode, ExecBlock, BlockRoom, BlockFits6, FnNames, CallRoom, BlockClear, Codegen.BlockHasSlots, FlowDone, SameFrame, Held, GoesOn;
    var code := BlockCode(w.Names(), env, b, ln, sn);
    var u;
    u, z := SimBlock(w, vars, env, b, store, ln, sn, d, n, a);
    var q := ExecBlock(w.p, Ctx(vars, z), b, store, sn, d, n);
    FlowTrans(w.img, d, n, env, s, a, u, a.pc + |code|, out, q);
    t := SimThenEnd(w.img, d, n, env, s, u, end, a.pc + |code|, at, After(out, q));
  }

  /** The else-branch, if any, from state a. */
  lemma {:induction false} SimOtherwise(w: World, vars: set<string>, env: Env, arm: ElseArm, store: Store, l: nat, ln: nat, sn: nat, d: nat, n: nat,
                                        s: State, a: State, out: seq<Event>)
    returns (t: State, z: Residue)
    requires vars <= env.locals.Keys
    requires Fit(w, env) && (arm.Else? ==>
      BlockFits6(arm.block) && Codegen.BlockHasSlots(arm.block, env.locals.Keys) && BlockClear(w.Names(), env.locals.Keys, vars, arm.block))
    requires Fits(w.img.code, a.pc, ElseCode(w.Names(), env, arm, IfElse(l), ln, sn))
    requires Fits(w.img.code, a.pc + |ElseCode(w.Names(), env, arm, IfElse(l), ln, sn)|, [Lab(IfEnd(l))])
    requires Ready(a, a.pc, ArmRoom(arm) + CallRoom(w.p.fns, d)) && FrameHolds(env.locals, store, a)
    requires Reaches(w.img, s, a) && a.trace == s.trace + out && SameFrame(s, a)
    ensures Held(w, a, z)
    ensures FlowDone(w.img, d, n, env, s, t, a.pc + |ElseCode(w.Names(), env, arm, IfElse(l), ln, sn)| + 1,
                     After(out, if arm.NoElse? then Ok(Onward(store), []) else ExecBlock(w.p, Ctx(vars, z), arm.block, store, sn, d, n)))
    decreases d, 0, n, arm, 1
  {
    hide Fit, Fits, FrameHolds, ElseCode, ExecBlock, ArmRoom, BlockFits6, FnNames, CallRoom, BlockClear, Codegen.BlockHasSlots, FlowDone, SameFrame, Held, GoesOn;
    var code := ElseCode(w.Names(), env, arm, IfElse(l), ln, sn);
    var u;
    u, z := SimElse(w, vars, env, arm, store, l, ln, sn, d, n, a);
    var q := if arm.NoElse? then Ok(Onward(store), []) else ExecBlock(w.p, Ctx(vars, z), arm.block, store, sn, d, n);
    FlowTrans(w.img, d, n, env, s, a, u, a.pc + |code|, out, q);
    FitsAt(w.img.code, a.pc + |code|, [Lab(IfEnd(l))], 0);
    t := SimLabel(w.img, d, n, env, s, u, IfEnd(l), a.pc + |code|, After(out, q));
  }

  lemma {:induction false} GuardFailed(m: Image, d: nat, n: nat, env: Env, store: Store, s: State, t: State, pc: nat, at: nat, r: Res<Word>, pc': nat)
    requires !r.Ok? && GuardDone(m, d, n, env, store, s, t, pc, at, r)
    ensures FlowDone(m, d, n, env, s, t, pc', Failed(r))
  {}

  /** Past a label. */
  lemma {:induction false} SimLabel(m: Image, d: nat, n: nat, env: Env, s: State, b: State, l: Label, pc: nat, r: Res<Flow>) returns (t: State)
    requires FlowDone(m, d, n, env, s, b, pc, r) && pc < |m.code| && m.code[pc] == Lab(l)
    ensures FlowDone(m, d, n, env, s, t, pc + 1, r)
  {
    t := b;
    if r.Ok? && r.v.Onward? {
      t := Then(m, s, b, Lab(l));
      FlowOn(m, d, n, env, s, b, t, pc, pc + 1, r);
    }
  }

  /** After the then-block: over the else-block, past the end label. */
  lemma {:induction false} SimThenEnd(m: Image, d: nat, n: nat, env: Env, s: State, b: State, end: Label, pc: nat, at: nat, r: Res<Flow>) returns (t: State)
    requires FlowDone(m, d, n, env, s, b, pc, r) && Fits(m.code, pc, [Jmp(end)])
    requires Target(m.code, end) == Option.Some(at) && at < |m.code| && m.code[at] == Lab(end)
    ensures FlowDone(m, d, n, env, s, t, at + 1, r)
  {
    t := b;
    if r.Ok? && r.v.Onward? {
      FitsAt(m.code, pc, [Jmp(end)], 0);
      t := Then(m, s, b, Jmp(end));
      t := Then(m, s, t, Lab(end));
      FlowOn(m, d, n, env, s, b, t, pc, at + 1, r);
    }
  }

  lemma {:induction false} SimElse(w: World, vars: set<string>, env: Env, arm: ElseArm, store: Store, l: nat, ln: nat, sn: nat, d: nat, n: nat, s: State)
    returns (t: State, z: Residue)
    requires vars <= env.locals.Keys
    requires Fit(w, env) && (arm.Else? ==>
      BlockFits6(arm.block) && Codegen.BlockHasSlots(arm.block, env.locals.Keys) && BlockClear(w.Names(), env.locals.Keys, vars, arm.block))
    requires Fits(w.img.code, s.pc, ElseCode(w.Names(), env, arm, IfElse(l), ln, sn))
    requires Ready(s, s.pc, ArmRoom(arm) + CallRoom(w.p.fns, d)) && FrameHolds(env.locals, store, s)
    ensures Held(w, s, z)
    ensures FlowDone(w.img, d, n, env, s, t, s.pc + |ElseCode(w.Names(), env, arm, IfElse(l), ln, sn)|,
                     if arm.NoElse? then Ok(Onward(store), []) else ExecBlock(w.p, Ctx(vars, z), arm.block, store, sn, d, n))
    decreases d, 0, n, arm, 0
  {
    hide Fits, Valid, FrameHolds, BlockCode, ExecBlock, BlockRoom, BlockFits6, FnNames, CallRoom, BlockClear, Codegen.BlockHasSlots, Held, GoesOn;
    match arm
    case NoElse =>
      t, z := s, Unspecified;
      HeldNone(w, s);
      ReachesRefl(w.img, s);
    case Else(b) =>
      var code := BlockCode(w.Names(), env, b, ln, sn);
      FitsCat(w.img.code, s.pc, [Lab(IfElse(l))], code);
      FitsAt(w.img.code, s.pc, [Lab(IfElse(l))], 0);
      var a := Step1(w.img, s, Lab(IfElse(l)));
      FrameKept(env.locals, store, s, a);
      t, z := SimBlock(w, vars, env, b, store, ln, sn, d, n, a);
      HeldEarlier(w, s, a, z);
      FlowTrans(w.img, d, n, env, s, a, t, s.pc + 1 + |code|, [], ExecBlock(w.p, Ctx(vars, z), b, store, sn, d, n));
      AfterNothing(ExecBlock(w.p, Ctx(vars, z), b, store, sn, d, n));
  }

  lemma {:induction false} AfterNothing<T>(r: Res<T>)
    ensures After([], r) == r
  {
    if r.Ok? || r.Trap? {
      assert [] + r.out == r.out;
    }
  }

  // ----- loops -----

  /** Where the parts of a loop are: its head, what precedes the body, the body, and its end. */
  ghost predicate LoopPlaced(code: seq<Instr>, pc: nat, start: Label, g: seq<Instr>, body: seq<Instr>, end: Label) {
    && Fits(code, pc, [Lab(start)]) && Fits(code, pc + 1, g) && Fits(code, pc + 1 + |g|, body)
    && Fits(code, pc + 1 + |g| + |body|, [Jmp(start)]) && Fits(code, pc + 2 + |g| + |body|, [Lab(end)])
  }

  lemma {:induction false} LoopParts(code: seq<Instr>, pc: nat, start: Label, g: seq<Instr>, body: seq<Instr>, end: Label)
    requires Fits(code, pc, [Lab(start)] + (g + (body + [Jmp(start), Lab(end)])))
    ensures LoopPlaced(code, pc, start, g, body, end)
  {
    FitsCat(code, pc, [Lab(start)], g + (body + [Jmp(start), Lab(end)]));
    FitsCat(code, pc + 1, g, body + [Jmp(start), Lab(end)]);
    FitsCat(code, pc + 1 + |g|, body, [Jmp(start), Lab(end)]);
    assert [Jmp(start)] + [Lab(end)] == [Jmp(start), Lab(end)];
    FitsCat(code, pc + 1 + |g| + |body|, [Jmp(start)], [Lab(end)]);
  }

  lemma {:induction false} InsideFits(w: World, env: Env, start: Label, end: Label, at: nat, exit: nat)
    requires Fit(w, env) && Fits(w.img.code, at, [Lab(start)]) && Fits(w.img.code, exit, [Lab(end)])
    ensures Fit(w, Inside(env, start, end))
    ensures Target(w.img.code, start) == Option.Some(at) && Target(w.img.code, end) == Option.Some(exit)
  {
    LabelAt(w, at, start);
    LabelAt(w, exit, end);
  }

  /** A turn of a loop: if the source goes round, the machine is back at the head;
      otherwise the loop has ended as the source says, with a break going past its end. */
  ghost predicate TurnDone(m: Image, d: nat, n: nat, env: Env, s: State, t: State, head: nat, exit: nat, r: Res<Flow>) {
    if r.Ok? && (r.v.Onward? || r.v.Continued?) then
      Reaches(m, s, t) && Ready(t, head, 0) && t.trace == s.trace + r.out && SameFrame(s, t) && FrameHolds(env.locals, r.v.store, t)
    else FlowDone(m, d, n, env, s, t, exit + 1, AfterLoop(r))
  }

  /** After the body of a loop. */
  lemma {:induction false} SimTurn(m: Image, d: nat, n: nat, env: Env, s: State, b: State, start: Label, end: Label, pc: nat, head: nat, exit: nat, r: Res<Flow>)
    returns (t: State)
    requires s.rsp % 8 == 0 && FlowDone(m, d, n + 1, Inside(env, start, end), s, b, pc, r)
    requires Fits(m.code, pc, [Jmp(start)]) && Fits(m.code, exit, [Lab(end)])
    requires Target(m.code, start) == Option.Some(head) && Target(m.code, end) == Option.Some(exit)
    ensures TurnDone(m, d, n, env, s, t, head, exit, r)
  {
    hide FrameHolds, Fits;
    t := b;
    if r.OutOfFuel? {
      LastsFewer(m, s, if r.deep then d else n + 1, if r.deep then d else n);
    } else if r.Ok? && r.v.Onward? {
      FitsAt(m.code, pc, [Jmp(start)], 0);
      t := Then(m, s, b, Jmp(start));
      SameCellsSameFrame(env.locals, r.v.store, s, b, t);
    } else if r.Ok? && r.v.Broke? {
      FitsAt(m.code, exit, [Lab(end)], 0);
      t := Then(m, s, b, Lab(end));
      SameCellsSameFrame(env.locals, r.v.store, s, b, t);
    }
  }

  lemma {:induction false} SameCellsSameFrame(locals: map<string, nat>, store: Store, s: State, b: State, t: State)
    requires FrameHolds(locals, store, b) && SameFrame(s, b) && t.mem == b.mem && t.rsp == b.rsp && t.rbp == b.rbp
    ensures FrameHolds(locals, store, t) && SameFrame(s, t)
  {}

  lemma {:induction false} LoopUnfolds(w: World, env: Env, c: Stmt, ln: nat, sn: nat)
    requires c.Loop?
    ensures
      var start, end := Local("loop_start", ln), Local("loop_end", ln + 1);
      StmtCode(w.Names(), env, c, ln, sn)
      == [Lab(start)] + ([] + (BlockCode(w.Names(), Inside(env, start, end), c.body, ln + 2, sn) + [Jmp(start), Lab(end)]))
    ensures StmtRoom(c) == BlockRoom(c.body) && (StmtFits6(c) ==> BlockFits6(c.body))
    ensures forall names :: Codegen.StmtHasSlots(c, names) ==> Codegen.BlockHasSlots(c.body, names)
  {
    var start, end := Local("loop_start", ln), Local("loop_end", ln + 1);
    var rest := BlockCode(w.Names(), Inside(env, start, end), c.body, ln + 2, sn) + [Jmp(start), Lab(end)];
    assert [] + rest == rest;
  }

  lemma {:induction false} LoopExecutes(w: World, vars: set<string>, y: Residue, z: Residue, c: Stmt, store: Store, sn: nat, d: nat, n: nat)
    requires c.Loop?
    ensures n > 0 ==>
      var r := ExecBlock(w.p, Ctx(vars, y), c.body, store, sn, d, n);
      ExecStmt(w.p, Ctx(vars, Fork(y, z)), c, store, sn, d, n)
      == if r.Ok? && (r.v.Onward? || r.v.Continued?) then After(r.out, ExecStmt(w.p, Ctx(vars, z), c, r.v.store, sn, d, n - 1)) else AfterLoop(r)
    ensures n == 0 ==> ExecStmt(w.p, Ctx(vars, Fork(y, z)), c, store, sn, d, n) == OutOfFuel(false)
  {}

  lemma {:induction false} SimLoop(w: World, vars: set<string>, env: Env, c: Stmt, store: Store, ln: nat, sn: nat, d: nat, n: nat, s: State)
    returns (t: State, z: Residue)
    requires vars <= env.locals.Keys
    requires c.Loop?
    requires Fit(w, env) && StmtFits6(c) && Codegen.StmtHasSlots(c, env.locals.Keys) && StmtClear(w.Names(), env.locals.Keys, vars, c)
    requires Fits(w.img.code, s.pc, StmtCode(w.Names(), env, c, ln, sn))
    requires Ready(s, s.pc, StmtRoom(c) + CallRoom(w.p.fns, d)) && FrameHolds(env.locals, store, s)
    ensures Held(w, s, z)
    ensures FlowDone(w.img, d, n, env, s, t, s.pc + |StmtCode(w.Names(), env, c, ln, sn)|, ExecStmt(w.p, Ctx(vars, z), c, store, sn, d, n))
    decreases d, 0, n, c, 1
  {
    hide Fit, Fits, FrameHolds, BlockCode, StmtCode, ExecBlock, ExecStmt, BlockRoom, StmtRoom, BlockFits6, StmtFits6,
      FnNames, CallRoom, BlockClear, StmtClear, Codegen.BlockHasSlots, Codegen.StmtHasSlots, FlowDone, Held, GoesOn;
    LoopUnfolds(w, env, c, ln, sn);
    var start, end := Local("loop_start", ln), Local("loop_end", ln + 1);
    var body := BlockCode(w.Names(), Inside(env, start, end), c.body, ln + 2, sn);
    LoopParts(w.img.code, s.pc, start, [], body, end);
    if n == 0 {
      t, z := s, Fork(Unspecified, Unspecified);
      HeldNone(w, s);
      HeldFirst(w, s, Unspecified);
      LoopExecutes(w, vars, Unspecified, Unspecified, c, store, sn, d, n);
      NoFuelNoClaim(w.img, d, n, env, s, s.pc + |StmtCode(w.Names(), env, c, ln, sn)|, ExecStmt(w.p, Ctx(vars, z), c, store, sn, d, n));
    } else {
      var exit := s.pc + 2 + |body|;
      InsideFits(w, env, start, end, s.pc, exit);
      FitsAt(w.img.code, s.pc, [Lab(start)], 0);
      var a := Step1(w.img, s, Lab(start));
      SameCellsSameFrame(env.locals, store, s, s, a);
      var y;
      ReachesRefl(w.img, a);
      ClearLoop(w.Names(), env.locals.Keys, vars, c);
      t, y, z := SimRound(w, vars, env, c, c.body, store, ln, sn, sn, d, n, s, a, [], start, end, exit);
      LoopExecutes(w, vars, y, z, c, store, sn, d, n);
      z := Fork(y, z);
      HeldEarlier(w, s, a, z);
      AfterNothing(ExecStmt(w.p, Ctx(vars, z), c, store, sn, d, n));
    }
  }

  lemma {:induction false} NoFuelNoClaim(m: Image, d: nat, n: nat, env: Env, s: State, pc: nat, r: Res<Flow>)
    requires r == OutOfFuel(false) && n == 0 && s.status.Running?
    ensures FlowDone(m, d, n, env, s, s, pc, r)
  {
    StartsOn(m, d, n, s);
  }

  /** From the start of a loop's body, at state a, through the body and, if the source goes round, the rest of the loop.
      `out` is what the source has written since the head of the loop. */
  lemma {:induction false} SimRound(w: World, vars: set<string>, env: Env, c: Stmt, body: Block, store: Store, ln: nat, sn: nat, sb: nat, d: nat, n: nat,
                                    s: State, a: State, out: seq<Event>, start: Label, end: Label, exit: nat)
    returns (t: State, y: Residue, z: Residue)
    requires vars <= env.locals.Keys
    requires (c.Loop? && c.body == body) || (c.While? && c.body == body)
    requires n > 0
    requires Fit(w, env) && StmtFits6(c) && Codegen.StmtHasSlots(c, env.locals.Keys) && StmtClear(w.Names(), env.locals.Keys, vars, c)
    requires BlockClear(w.Names(), env.locals.Keys, vars, body)
    requires BlockFits6(body) && Codegen.BlockHasSlots(body, env.locals.Keys) && BlockRoom(body) <= StmtRoom(c)
    requires Fits(w.img.code, s.pc, StmtCode(w.Names(), env, c, ln, sn))
    requires exit + 1 == s.pc + |StmtCode(w.Names(), env, c, ln, sn)|
    requires Ready(s, s.pc, StmtRoom(c) + CallRoom(w.p.fns, d))
    requires Fit(w, Inside(env, start, end))
    requires Fits(w.img.code, a.pc, BlockCode(w.Names(), Inside(env, start, end), body, ln + 2, sb))
    requires Fits(w.img.code, a.pc + |BlockCode(w.Names(), Inside(env, start, end), body, ln + 2, sb)|, [Jmp(start)])
    requires Fits(w.img.code, exit, [Lab(end)])
    requires Target(w.img.code, start) == Option.Some(s.pc) && Target(w.img.code, end) == Option.Some(exit)
    requires Reaches(w.img, Step(w.img, s), a) && a.status.Running? && SameFrame(s, a) && a.trace == s.trace + out && FrameHolds(env.locals, store, a)
    ensures Held(w, a, Fork(y, z))
    ensures
      var r := ExecBlock(w.p, Ctx(vars, y), body, store, sb, d, n);
      FlowDone(w.img, d, n, env, s, t, exit + 1,
               After(out, if r.Ok? && (r.v.Onward? || r.v.Continued?) then After(r.out, ExecStmt(w.p, Ctx(vars, z), c, r.v.store, sn, d, n - 1))
                          else AfterLoop(r)))
    decreases d, 0, n, c, 0
  {
    hide Fit, Fits, FrameHolds, BlockCode, StmtCode, ExecBlock, ExecStmt, BlockRoom, StmtRoom, BlockFits6, StmtFits6,
      FnNames, CallRoom, BlockClear, StmtClear, Codegen.BlockHasSlots, Codegen.StmtHasSlots, FlowDone, SameAbove, Held, GoesOn;
    var code := BlockCode(w.Names(), Inside(env, start, end), body, ln + 2, sb);
    z := Unspecified;
    var b;
    b, y := SimBlock(w, vars, Inside(env, start, end), body, store, ln + 2, sb, d, n, a);
    HeldFirst(w, a, y);
    var r := ExecBlock(w.p, Ctx(vars, y), body, store, sb, d, n);
    t := SimTurn(w.img, d, n - 1, env, a, b, start, end, a.pc + |code|, s.pc, exit, r);
    var result := AfterLoop(r);
    if r.Ok? && (r.v.Onward? || r.v.Continued?) {
      var u := t;
      t, z := SimStmt(w, vars, env, c, r.v.store, ln, sn, d, n - 1, u);
      HeldFork(w, a, y, u, z);
      FlowTrans(w.img, d, n - 1, env, a, u, t, exit + 1, r.out, ExecStmt(w.p, Ctx(vars, z), c, r.v.store, sn, d, n - 1));
      result := After(r.out, ExecStmt(w.p, Ctx(vars, z), c, r.v.store, sn, d, n - 1));
    }
    FlowRound(w.img, d, n, env, s, a, t, exit + 1, out, result);
  }

  /** A step and then on: one turn more. */
  lemma {:induction false} FlowRound(m: Image, d: nat, n: nat, env: Env, s: State, t: State, u: State, pc: nat, out: seq<Event>, r: Res<Flow>)
    requires n > 0 && s.status.Running? && Reaches(m, Step(m, s), t)
    requires t.trace == s.trace + out && SameFrame(s, t) && FlowDone(m, d, n - 1, env, t, u, pc, r)
    ensures FlowDone(m, d, n, env, s, u, pc, After(out, r))
  {
    hide Step, FrameHolds;
    ReachesRefl(m, s);
    ReachesStep(m, s, s);
    ReachesTrans(m, s, Step(m, s), t);
    if r.OutOfFuel? {
      LastsLonger(m, s, t, if r.deep then d else n - 1);
      LastsFewer(m, s, if r.deep then d + 1 else n, if r.deep then d else n);
    } else {
      FlowEnds(m, d, n - 1, n, env, t, u, pc, r);
      FlowTrans(m, d, n, env, s, t, u, pc, out, r);
    }
  }

  lemma {:induction false} FlowEnds(m: Image, d: nat, n: nat, n': nat, env: Env, s: State, t: State, pc: nat, r: Res<Flow>)
    requires !r.OutOfFuel? && FlowDone(m, d, n, env, s, t, pc, r)
    ensures FlowDone(m, d, n', env, s, t, pc, r)
  {}

  lemma {:induction false} WhileUnfolds(w: World, env: Env, c: Stmt, ln: nat, sn: nat)
    requires c.While?
    ensures
      var start, end := Local("while_start", ln), Local("while_end", ln + 1);
      StmtCode(w.Names(), env, c, ln, sn)
      == [Lab(start)] + (GuardCode(w.Names(), env.locals, c.cond, end, sn)
       + (BlockCode(w.Names(), Inside(env, start, end), c.body, ln + 2, sn + |Strings(c.cond)|) + [Jmp(start), Lab(end)]))
    ensures StmtRoom(c) >= BlockRoom(c.body) && StmtRoom(c) >= ExprRoom(c.cond)
    ensures StmtFits6(c) ==> BlockFits6(c.body) && ExprFits6(c.cond)
    ensures forall names :: Codegen.StmtHasSlots(c, names) ==> Codegen.BlockHasSlots(c.body, names)
  {}

  lemma {:induction false} WhileExecutes(w: World, vars: set<string>, x: Residue, y: Residue, z: Residue, c: Stmt, store: Store, sn: nat, d: nat, n: nat)
    requires c.While?
    ensures n > 0 ==>
      var g := EvalExpr(w.p, Ctx(vars, x), c.cond, store, sn, d, n);
      var r := ExecBlock(w.p, Ctx(vars, y), c.body, store, sn + |Strings(c.cond)|, d, n);
      ExecStmt(w.p, Ctx(vars, Fork(x, Fork(y, z))), c, store, sn, d, n)
      == if !g.Ok? then Failed(g)
         else if g.v == 0 then Ok(Onward(store), g.out)
         else After(g.out, if r.Ok? && (r.v.Onward? || r.v.Continued?) then After(r.out, ExecStmt(w.p, Ctx(vars, z), c, r.v.store, sn, d, n - 1))
                           else AfterLoop(r))
    ensures n == 0 ==> ExecStmt(w.p, Ctx(vars, Fork(x, Fork(y, z))), c, store, sn, d, n) == OutOfFuel(false)
  {
    hide EvalExpr, ExecBlock, Strings;
  }

  lemma {:induction false} SimWhile(w: World, vars: set<string>, env: Env, c: Stmt, store: Store, ln: nat, sn: nat, d: nat, n: nat, s: State)
    returns (t: State, z: Residue)
    requires vars <= env.locals.Keys
    requires c.While?
    requires Fit(w, env) && StmtFits6(c) && Codegen.StmtHasSlots(c, env.locals.Keys) && StmtClear(w.Names(), env.locals.Keys, vars, c)
    requires Fits(w.img.code, s.pc, StmtCode(w.Names(), env, c, ln, sn))
    requires Ready(s, s.pc, StmtRoom(c) + CallRoom(w.p.fns, d)) && FrameHolds(env.locals, store, s)
    ensures Held(w, s, z)
    ensures FlowDone(w.img, d, n, env, s, t, s.pc + |StmtCode(w.Names(), env, c, ln, sn)|, ExecStmt(w.p, Ctx(vars, z), c, store, sn, d, n))
    decreases d, 0, n, c, 2
  {
    hide Fit, Fits, FrameHolds, BlockCode, StmtCode, GuardCode, ExprCode, ExecBlock, ExecStmt, EvalExpr, BlockRoom, StmtRoom, ExprRoom,
      BlockFits6, StmtFits6, ExprFits6, FnNames, CallRoom, BlockClear, StmtClear, ExprClear, Codegen.BlockHasSlots, Codegen.StmtHasSlots, FlowDone, Strings, GuardDone, Held, GoesOn;
    WhileUnfolds(w, env, c, ln, sn);
    ClearWhile(w.Names(), env.locals.Keys, vars, c);
    var start, end := Local("while_start", ln), Local("while_end", ln + 1);
    var g := GuardCode(w.Names(), env.locals, c.cond, end, sn);
    var body := BlockCode(w.Names(), Inside(env, start, end), c.body, ln + 2, sn + |Strings(c.cond)|);
    LoopParts(w.img.code, s.pc, start, g, body, end);
    if n == 0 {
      t, z := s, Fork(Unspecified, Fork(Unspecified, Unspecified));
      HeldNone(w, s);
      HeldTwice(w, s, Unspecified);
      WhileExecutes(w, vars, Unspecified, Unspecified, Unspecified, c, store, sn, d, n);
      NoFuelNoClaim(w.img, d, n, env, s, s.pc + |StmtCode(w.Names(), env, c, ln, sn)|, ExecStmt(w.p, Ctx(vars, z), c, store, sn, d, n));
    } else {
      var exit := s.pc + 2 + |g| + |body|;
      InsideFits(w, env, start, end, s.pc, exit);
      FitsAt(w.img.code, s.pc, [Lab(start)], 0);
      var a := Step1(w.img, s, Lab(start));
      SameCellsSameFrame(env.locals, store, s, s, a);
      var b, x := SimGuard(w, vars, env, c.cond, end, exit, store, sn, d, n, a);
      var y := Unspecified;
      z := Unspecified;
      var r := EvalExpr(w.p, Ctx(vars, x), c.cond, store, sn, d, n);
      HeldTwice(w, a, x);
      GuardTrans(w.img, d, n, env, store, s, a, b, a.pc + |g|, exit, r);
      if r.Ok? && r.v != 0 {
        GuardTrue(w.img, d, n, env, store, a, b, a.pc + |g|, exit, r);
        GuardTrue(w.img, d, n, env, store, s, b, a.pc + |g|, exit, r);
        t, y, z := SimRound(w, vars, env, c, c.body, store, ln, sn, sn + |Strings(c.cond)|, d, n, s, b, r.out, start, end, exit);
        HeldFork(w, a, x, b, Fork(y, z));
      } else if r.Ok? {
        t := GuardFalse(w.img, d, n, env, store, s, b, end, a.pc + |g|, exit, r);
      } else {
        t := b;
        GuardFailed(w.img, d, n, env, store, s, b, a.pc + |g|, exit, r, exit + 1);
      }
      WhileExecutes(w, vars, x, y, z, c, store, sn, d, n);
      z := Fork(x, Fork(y, z));
      HeldEarlier(w, s, a, z);
    }
  }

  lemma {:induction false} GuardTrans(m: Image, d: nat, n: nat, env: Env, store: Store, s: State, a: State, b: State, pc: nat, at: nat, r: Res<Word>)
    requires Reaches(m, s, a) && a.trace == s.trace && SameFrame(s, a) && GuardDone(m, d, n, env, store, a, b, pc, at, r)
    ensures GuardDone(m, d, n, env, store, s, b, pc, at, r)
  {
    if r.Ok? || r.Trap? {
      ReachesTrans(m, s, a, b);
    } else if r.OutOfFuel? {
      GoesOnFrom(m, d, n, s, a, r.deep);
    }
  }

  lemma {:induction false} GuardTrue(m: Image, d: nat, n: nat, env: Env, store: Store, s: State, b: State, pc: nat, at: nat, r: Res<Word>)
    requires r.Ok? && r.v != 0 && GuardDone(m, d, n, env, store, s, b, pc, at, r)
    ensures Reaches(m, s, b) && b.status.Running? && b.pc == pc && SameFrame(s, b) && b.trace == s.trace + r.out
    ensures FrameHolds(env.locals, store, b)
  {}

  /** A false condition of a while-loop goes past the loop's end. */
  lemma {:induction false} GuardFalse(m: Image, d: nat, n: nat, env: Env, store: Store, s: State, b: State, end: Label, pc: nat, at: nat, r: Res<Word>) returns (t: State)
    requires r.Ok? && r.v == 0 && GuardDone(m, d, n, env, store, s, b, pc, at, r) && Fits(m.code, at, [Lab(end)])
    ensures FlowDone(m, d, n, env, s, t, at + 1, Ok(Onward(store), r.out))
  {
    hide FrameHolds, Fits;
    FitsAt(m.code, at, [Lab(end)], 0);
    t := Then(m, s, b, Lab(end));
    SameCellsSameFrame(env.locals, store, s, b, t);
  }
}
