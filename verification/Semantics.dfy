/** What a Stage 0 program means: a big-step evaluator over 64-bit words. Names are resolved as the checker does,
    by what the text has declared so far.
    `depth` bounds how deeply calls nest and `turns` how often a loop turns; a run that
    meets either bound is OutOfFuel, so a terminating run is one that some bounds complete. */
module Semantics {
  import opened Ast
  import opened Words
  import opened Machine

  /** The functions of a program, its string constants, and the address of each of them. The literals of the text
      stand for the constants in source order. */
  datatype Program = Program(fns: seq<FnDecl>, strings: seq<string>, stringAt: nat -> Word)

  type Store = map<string, Word>

  /** What is found in the frames of a run before anything is stored in them: not known, so that reading a local
      before its declaration has executed has no meaning; nothing but zeros; or the words of each activation,
      arranged as the run unfolds. */
  datatype Residue =
    | Unspecified
    | Zeros
    | Fork(first: Residue, second: Residue)
    | Frame(words: Store, inner: Residue)

  /** It says what every frame holds. */
  predicate Definite(r: Residue) {
    match r
    case Unspecified => false
    case Zeros => true
    case Fork(a, b) => Definite(a) && Definite(b)
    case Frame(_, inner) => Definite(inner)
  }

  /** What surrounds a construct: the names declared before it in the text of its function, and what the frames
      of the calls inside it hold. */
  datatype Ctx = Ctx(vars: set<string>, residue: Residue) {
    function First(): Ctx {
      this.(residue := match residue case Unspecified => Unspecified case Fork(a, _) => a case _ => Zeros)
    }

    function Second(): Ctx {
      this.(residue := match residue case Unspecified => Unspecified case Fork(_, b) => b case _ => Zeros)
    }

    /** After the declarations of those names. */
    function Past(names: seq<string>): Ctx {
      this.(vars := vars + Among(names))
    }
  }

  /** Why a run has no meaning. */
  datatype Reason =
    | Uninitialised(name: string)
    | Undeclared(name: string)
    | NoFunction(name: string)
    | WrongArity
    | FellOffEnd
    | StrayJump
    | Oversized(literal: nat)
    | Misplaced
    | NotAValue

  datatype Res<+T> =
    | Ok(v: T, out: seq<Event>)
    | Trap(out: seq<Event>)
    | Stuck(why: Reason)
    | OutOfFuel(deep: bool)

  /** How a statement ends. */
  datatype Flow =
    | Onward(store: Store)
    | Broke(store: Store)
    | Continued(store: Store)
    | Returned(w: Word)

  datatype Linked = Linked(decl: FnDecl, strBase: nat)

  // ----- declared names -----

  function Among(names: seq<string>): set<string> {
    set n | n in names
  }

  /** The names a block declares, in order. */
  function BlockNames(b: Block): seq<string>
    decreases b
  {
    if b == [] then [] else StmtNames(b[0]) + BlockNames(b[1..])
  }

  function StmtNames(s: Stmt): seq<string>
    decreases s
  {
    match s
    case Let(name, _, _) => [name]
    case Mut(name, _, _) => [name]
    case If(_, t, NoElse) => BlockNames(t)
    case If(_, t, Else(e)) => BlockNames(t) + BlockNames(e)
    case Loop(b) => BlockNames(b)
    case While(_, b) => BlockNames(b)
    case UnsafeBlock(b) => BlockNames(b)
    case _ => []
  }

  function ParamNames(params: seq<Param>): seq<string> {
    if params == [] then [] else ParamNames(params[..|params| - 1]) + [params[|params| - 1].name]
  }

  function DeclaredNames(f: FnDecl): seq<string> {
    ParamNames(f.params) + BlockNames(f.body)
  }

  // ----- string constants, in source order -----

  function Strings(e: Expr): seq<string> {
    match e
    case StrLit(bytes) => [bytes]
    case Unary(_, x) => Strings(x)
    case Binary(_, l, r) => Strings(l) + Strings(r)
    case Call(_, args) => ArgStrings(args)
    case _ => []
  }

  function ArgStrings(args: seq<Expr>): seq<string> {
    if args == [] then [] else Strings(args[0]) + ArgStrings(args[1..])
  }

  function StmtStrings(s: Stmt): seq<string> {
    match s
    case Let(_, _, e) => Strings(e)
    case Mut(_, _, e) => Strings(e)
    case Assign(_, e) => Strings(e)
    case Ret(None) => []
    case Ret(Some(e)) => Strings(e)
    case If(c, t, arm) => Strings(c) + BlockStrings(t) + ArmStrings(arm)
    case Loop(b) => BlockStrings(b)
    case While(c, b) => Strings(c) + BlockStrings(b)
    case UnsafeBlock(b) => BlockStrings(b)
    case ExprStmt(e) => Strings(e)
    case Break => []
    case Continue => []
    case ErrorStmt => []
  }

  function ArmStrings(arm: ElseArm): seq<string> {
    match arm case NoElse => [] case Else(b) => BlockStrings(b)
  }

  function BlockStrings(b: Block): seq<string> {
    if b == [] then [] else StmtStrings(b[0]) + BlockStrings(b[1..])
  }

  function ProgramStrings(fns: seq<FnDecl>): seq<string> {
    if fns == [] then [] else BlockStrings(fns[0].body) + ProgramStrings(fns[1..])
  }

  // ----- evaluation -----

  /** The first function of that name, with the number of its first string constant. */
  function Lookup(fns: seq<FnDecl>, name: string, strBase: nat): Option<Linked> {
    if fns == [] then None
    else if fns[0].name == name then Some(Linked(fns[0], strBase))
    else Lookup(fns[1..], name, strBase + |BlockStrings(fns[0].body)|)
  }

  function Bind(params: seq<Param>, ws: seq<Word>): Store
    requires |params| == |ws|
  {
    if params == [] then map[]
    else
      var last := |params| - 1;
      Bind(params[..last], ws[..last])[params[last].name := ws[last]]
  }

  /** What the locals of an activation hold on entry: the parameters their arguments, the others what their
      frame holds. */
  function EntryStore(f: FnDecl, ws: seq<Word>, r: Residue): Store
    requires |f.params| == |ws|
  {
    if r.Unspecified? then Bind(f.params, ws)
    else (map x | x in Among(DeclaredNames(f)) :: if r.Frame? && x in r.words then r.words[x] else 0) + Bind(f.params, ws)
  }

  function EntryCtx(f: FnDecl, r: Residue): Ctx {
    Ctx(Among(ParamNames(f.params)), match r case Unspecified => Unspecified case Frame(_, inner) => inner case _ => Zeros)
  }

  /** A result whose output comes after `out`. */
  function After<T>(out: seq<Event>, r: Res<T>): Res<T> {
    match r
    case Ok(v, out') => Ok(v, out + out')
    case Trap(out') => Trap(out + out')
    case _ => r
  }

  function Failed<T, U>(r: Res<T>): Res<U>
    requires !r.Ok?
  {
    match r
    case Trap(out) => Trap(out)
    case Stuck(why) => Stuck(why)
    case OutOfFuel(deep) => OutOfFuel(deep)
  }

  /** A name is a local's where one was declared before in the text, and a function's elsewhere. A literal is the address
      of its own bytes: where its constant holds others, a run has no meaning. */
  function EvalExpr(p: Program, cx: Ctx, e: Expr, store: Store, sn: nat, depth: nat, turns: nat): Res<Word>
    decreases depth, 0, turns, e
  {
    match e
    case IntLit(v) => if v < TWO64 then Ok(v, []) else Stuck(Oversized(v))
    case BoolLit(b) => Ok(Bool(b), [])
    case StrLit(bytes) => if sn < |p.strings| && p.strings[sn] == bytes then Ok(p.stringAt(sn), []) else Stuck(Misplaced)
    case Ident(name) =>
      if name in cx.vars then if name in store then Ok(store[name], []) else Stuck(Uninitialised(name))
      else if Lookup(p.fns, name, 0).None? then Stuck(Undeclared(name))
      else if depth == 0 then OutOfFuel(true)
      else CallFn(p, cx.residue, name, [], depth - 1, turns)
    case PathExpr(_) => Stuck(NotAValue)
    case ErrorExpr => Stuck(NotAValue)
    case Unary(op, x) =>
      var r := EvalExpr(p, cx, x, store, sn, depth, turns);
      if r.Ok? then Ok(EvalUnary(op, r.v), r.out) else r
    case Binary(op, left, right) =>
      var l := EvalExpr(p, cx.First(), left, store, sn, depth, turns);
      if !l.Ok? then l
      else
        var r := EvalExpr(p, cx.Second(), right, store, sn + |Strings(left)|, depth, turns);
        if !r.Ok? then After(l.out, r) else Apply(op, l.v, r.v, l.out + r.out)
    case Call(callee, args) =>
      if callee.Display() == "io.write" && |args| != 3 then Stuck(WrongArity)
      else if callee.Display() != "io.write" && Lookup(p.fns, callee.Display(), 0).None? then Stuck(NoFunction(callee.Display()))
      else
        var r := EvalArgs(p, cx.First(), args, store, sn, depth, turns);
        if !r.Ok? then Failed(r)
        else if callee.Display() == "io.write" then Ok(0, r.out + [Write(r.v[0], r.v[1], r.v[2])])
        else if depth == 0 then OutOfFuel(true)
        else After(r.out, CallFn(p, cx.Second().residue, callee.Display(), r.v, depth - 1, turns))
  }

  function Apply(op: BinaryOp, a: Word, b: Word, out: seq<Event>): Res<Word> {
    match EvalBinary(op, a, b)
    case Value(w) => Ok(w, out)
    case DivideError => Trap(out)
  }

  /** Arguments are evaluated from left to right. */
  function EvalArgs(p: Program, cx: Ctx, args: seq<Expr>, store: Store, sn: nat, depth: nat, turns: nat): (r: Res<seq<Word>>)
    ensures r.Ok? ==> |r.v| == |args|
    decreases depth, 0, turns, args
  {
    if args == [] then Ok([], [])
    else
      var first := EvalExpr(p, cx.First(), args[0], store, sn, depth, turns);
      if !first.Ok? then Failed(first)
      else
        var rest := EvalArgs(p, cx.Second(), args[1..], store, sn + |Strings(args[0])|, depth, turns);
        if rest.Ok? then Ok([first.v] + rest.v, first.out + rest.out) else After(first.out, rest)
  }

  /** A call: a fresh store holds the parameters, and what is found in the frame; a void function that runs off
      its end yields 0. */
  function CallFn(p: Program, residue: Residue, name: string, ws: seq<Word>, depth: nat, turns: nat): Res<Word>
    decreases depth, 1
  {
    match Lookup(p.fns, name, 0)
    case None => Stuck(NoFunction(name))
    case Some(f) =>
      if |f.decl.params| != |ws| then Stuck(WrongArity)
      else
        FnResult(f.decl.ret, ExecBlock(p, EntryCtx(f.decl, residue), f.decl.body, EntryStore(f.decl, ws, residue), f.strBase, depth, turns))
  }

  function FnResult(ret: string, r: Res<Flow>): Res<Word> {
    if !r.Ok? then Failed(r)
    else
      match r.v
      case Returned(w) => Ok(w, r.out)
      case Onward(_) => if ret == "void" then Ok(0, r.out) else Stuck(FellOffEnd)
      case _ => Stuck(StrayJump)
  }

  function ExecBlock(p: Program, cx: Ctx, b: Block, store: Store, sn: nat, depth: nat, turns: nat): Res<Flow>
    decreases depth, 0, turns, b
  {
    if b == [] then Ok(Onward(store), [])
    else
      var first := ExecStmt(p, cx.First(), b[0], store, sn, depth, turns);
      if first.Ok? && first.v.Onward? then
        After(first.out,
              ExecBlock(p, cx.Second().Past(StmtNames(b[0])), b[1..], first.v.store, sn + |StmtStrings(b[0])|, depth, turns))
      else first
  }

  function ExecStmt(p: Program, cx: Ctx, s: Stmt, store: Store, sn: nat, depth: nat, turns: nat): Res<Flow>
    decreases depth, 0, turns, s
  {
    match s
    case Let(name, _, e) => Update(name, EvalExpr(p, cx, e, store, sn, depth, turns), store)
    case Mut(name, _, e) => Update(name, EvalExpr(p, cx, e, store, sn, depth, turns), store)
    case Assign(name, e) => Update(name, EvalExpr(p, cx, e, store, sn, depth, turns), store)
    case Ret(None) => Ok(Returned(0), [])
    case Ret(Some(e)) =>
      var r := EvalExpr(p, cx, e, store, sn, depth, turns);
      if r.Ok? then Ok(Returned(r.v), r.out) else Failed(r)
    case If(cond, thenBlock, elseArm) =>
      var c := EvalExpr(p, cx.First(), cond, store, sn, depth, turns);
      var sn' := sn + |Strings(cond)|;
      if !c.Ok? then Failed(c)
      else if c.v != 0 then After(c.out, ExecBlock(p, cx.Second(), thenBlock, store, sn', depth, turns))
      else
        (match elseArm
         case NoElse => Ok(Onward(store), c.out)
         case Else(b) =>
           After(c.out, ExecBlock(p, cx.Second().Past(BlockNames(thenBlock)), b, store, sn' + |BlockStrings(thenBlock)|, depth, turns)))
    case Loop(body) =>
      if turns == 0 then OutOfFuel(false)
      else
        var r := ExecBlock(p, cx.First(), body, store, sn, depth, turns);
        if r.Ok? && (r.v.Onward? || r.v.Continued?) then
          After(r.out, ExecStmt(p, cx.Second(), s, r.v.store, sn, depth, turns - 1))
        else AfterLoop(r)
    case While(cond, body) =>
      if turns == 0 then OutOfFuel(false)
      else
        var c := EvalExpr(p, cx.First(), cond, store, sn, depth, turns);
        if !c.Ok? then Failed(c)
        else if c.v == 0 then Ok(Onward(store), c.out)
        else
          var r := ExecBlock(p, cx.Second().First(), body, store, sn + |Strings(cond)|, depth, turns);
          if r.Ok? && (r.v.Onward? || r.v.Continued?) then
            After(c.out, After(r.out, ExecStmt(p, cx.Second().Second(), s, r.v.store, sn, depth, turns - 1)))
          else After(c.out, AfterLoop(r))
    case Break => Ok(Broke(store), [])
    case Continue => Ok(Continued(store), [])
    case UnsafeBlock(body) => ExecBlock(p, cx, body, store, sn, depth, turns)
    case ExprStmt(e) =>
      var r := EvalExpr(p, cx, e, store, sn, depth, turns);
      if r.Ok? then Ok(Onward(store), r.out) else Failed(r)
    case ErrorStmt => Stuck(NotAValue)
  }

  function Update(name: string, r: Res<Word>, store: Store): Res<Flow> {
    if r.Ok? then Ok(Onward(store[name := r.v]), r.out) else Failed(r)
  }

  /** A loop absorbs a break of its body; a return passes through. */
  function AfterLoop(r: Res<Flow>): Res<Flow> {
    if r.Ok? && r.v.Broke? then Ok(Onward(r.v.store), r.out) else r
  }

  /** The run of `main`. */
  function RunMain(p: Program, residue: Residue, depth: nat, turns: nat): Res<Word> {
    CallFn(p, residue, "main", [], depth, turns)
  }
}
