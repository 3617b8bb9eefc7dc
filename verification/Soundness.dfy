/** What an accepted program can and cannot do when it runs. */
module Soundness {
  import opened Ast
  import opened Words
  import opened Machine
  import opened Semantics
  import opened Emission
  import opened Slots
  import opened Checking
  import opened Acceptance
  import opened Linking

  /** The ways a checked run may still fail to have a meaning: a literal exceeds 64 bits, an error node of a failed
      parse is evaluated, it calls one of the two names the checker lets through although nothing defines them, or,
      where what the frames hold is not known, it reads a local before its declaration has executed. */
  predicate Tolerated(known: bool, why: Reason) {
    why.Oversized? || why.NotAValue? || (why.Uninitialised? && !known)
    || (why.NoFunction? && (why.name == "mem.alloc" || why.name == "core/io.write"))
  }

  /** Or a literal's constant does not hold its bytes, which `Constants` rules out. */
  predicate Excused(known: bool, why: Reason) {
    Tolerated(known, why) || why.Misplaced?
  }

  predicate Known(cx: Ctx) {
    !cx.residue.Unspecified?
  }

  /** Every function checks against the signatures of all, and no function has the name of a built-in. */
  ghost predicate WellChecked(p: Program, g: Globals) {
    && g.sigs.Keys == FnNames(p.fns)
    && (forall f :: f in p.fns ==> g.sigs[f.name] == SigOf(f) && FnDiags(g, f) == [])
    && {"io.write", "core/io.write", "mem.alloc"} !! FnNames(p.fns)
  }

  /** Locals that have values are declared ones. Where what the frames hold is known, all have values; where it is
      not, those of type bool hold 0 or 1. */
  ghost predicate StoreOk(known: bool, all: Vars, store: Store) {
    && store.Keys <= all.Keys
    && if known then store.Keys == all.Keys else forall x :: x in store && all[x].ty == "bool" ==> store[x] <= 1
  }

  ghost predicate ResOk(known: bool, ty: Ty, r: Res<Word>) {
    && (r.Ok? && IsBool(ty) && !known ==> r.v <= 1)
    && (r.Ok? ==> ty != Unknown)
    && (r.Stuck? ==> Excused(known, r.why))
  }

  ghost predicate FlowOk(known: bool, all: Vars, sc: Scope, r: Res<Flow>) {
    && (r.Stuck? ==> Excused(known, r.why))
    && (r.Ok? ==>
          match r.v
          case Onward(store) => StoreOk(known, all, store)
          case Broke(store) => sc.loops > 0 && StoreOk(known, all, store)
          case Continued(store) => sc.loops > 0 && StoreOk(known, all, store)
          case Returned(w) => sc.ret == "bool" && !known ==> w <= 1)
  }

  /** The current variables are among all those of the function. */
  ghost predicate Within(sc: Scope, all: Vars) {
    VarsGrow(sc.vars, all)
  }

  /** The run is where the checker is: the same names are declared. */
  ghost predicate At(cx: Ctx, sc: Scope) {
    cx.vars == sc.vars.Keys && (cx.residue.Unspecified? || Definite(cx.residue))
  }

  lemma {:induction false} AtParts(cx: Ctx, sc: Scope)
    requires At(cx, sc)
    ensures At(cx.First(), sc) && At(cx.Second(), sc)
    ensures Known(cx.First()) == Known(cx.Second()) == Known(cx)
  {}

  /** The checker and the run agree on what is declared after a block. */
  lemma {:induction false} BlockDeclares(g: Globals, sc: Scope, b: Block)
    ensures CheckBlock(g, sc, b).vars.Keys == sc.vars.Keys + Among(BlockNames(b))
    decreases b
  {
    if b != [] {
      var sc' := sc.(vars := CheckStmt(g, sc, b[0]).vars);
      StmtDeclares(g, sc, b[0]);
      BlockDeclares(g, sc', b[1..]);
    }
  }

  lemma {:induction false} StmtDeclares(g: Globals, sc: Scope, s: Stmt)
    ensures CheckStmt(g, sc, s).vars.Keys == sc.vars.Keys + Among(StmtNames(s))
    decreases s
  {
    hide TypeOf, RequireType;
    match s
    case If(_, t, arm) =>
      BlockDeclares(g, sc, t);
      if arm.Else? {
        BlockDeclares(g, sc.(vars := CheckBlock(g, sc, t).vars), arm.block);
      }
    case Loop(b) => BlockDeclares(g, sc.(loops := sc.loops + 1), b);
    case While(_, b) => BlockDeclares(g, sc.(loops := sc.loops + 1), b);
    case UnsafeBlock(b) => BlockDeclares(g, sc.(unsafes := sc.unsafes + 1), b);
    case _ =>
  }

  // ----- expressions -----

  lemma {:induction false} ExprSound(p: Program, cx: Ctx, g: Globals, sc: Scope, all: Vars, e: Expr, store: Store, sn: nat, d: nat, n: nat)
    requires WellChecked(p, g) && At(cx, sc) && Within(sc, all) && StoreOk(Known(cx), all, store)
    requires TypeOf(g, sc, e).diags == []
    ensures ResOk(Known(cx), TypeOf(g, sc, e).ty, EvalExpr(p, cx, e, store, sn, d, n))
    decreases d, 0, n, e, 1
  {
    hide WellChecked, Within;
    match e
    case Ident(name) => NameSound(p, cx, g, sc, all, e, store, sn, d, n);
    case Unary(op, x) =>
      ExprSound(p, cx, g, sc, all, x, store, sn, d, n);
    case Binary(op, l, r) => BinarySound(p, cx, g, sc, all, e, store, sn, d, n);
    case Call(callee, args) => CallSound(p, cx, g, sc, all, e, store, sn, d, n);
    case _ =>
  }

  lemma {:induction false} BinarySound(p: Program, cx: Ctx, g: Globals, sc: Scope, all: Vars, e: Expr, store: Store, sn: nat, d: nat, n: nat)
    requires e.Binary?
    requires WellChecked(p, g) && At(cx, sc) && Within(sc, all) && StoreOk(Known(cx), all, store)
    requires TypeOf(g, sc, e).diags == []
    ensures ResOk(Known(cx), TypeOf(g, sc, e).ty, EvalExpr(p, cx, e, store, sn, d, n))
    decreases d, 0, n, e, 0
  {
    hide WellChecked, Within, TypeOf, EvalExpr, EvalBinary, BinaryType, StoreOk;
    BinaryParts(p, cx, g, sc, e, store, sn, d, n);
    AtParts(cx, sc);
    ExprSound(p, cx.First(), g, sc, all, e.left, store, sn, d, n);
    var a := EvalExpr(p, cx.First(), e.left, store, sn, d, n);
    if a.Ok? {
      ExprSound(p, cx.Second(), g, sc, all, e.right, store, sn + |Strings(e.left)|, d, n);
      var b := EvalExpr(p, cx.Second(), e.right, store, sn + |Strings(e.left)|, d, n);
      if b.Ok? {
        OperatorSound(Known(cx), e.op, TypeOf(g, sc, e.left).ty, TypeOf(g, sc, e.right).ty, a.v, b.v, a.out + b.out);
      }
    }
  }

  lemma {:induction false} BinaryParts(p: Program, cx: Ctx, g: Globals, sc: Scope, e: Expr, store: Store, sn: nat, d: nat, n: nat)
    requires e.Binary? && TypeOf(g, sc, e).diags == []
    ensures var l, r := TypeOf(g, sc, e.left), TypeOf(g, sc, e.right);
      l.diags == [] && r.diags == [] && BinaryType(e.op, l.ty, r.ty) == Typed(TypeOf(g, sc, e).ty, [])
    ensures
      var l := EvalExpr(p, cx.First(), e.left, store, sn, d, n);
      var r := EvalExpr(p, cx.Second(), e.right, store, sn + |Strings(e.left)|, d, n);
      EvalExpr(p, cx, e, store, sn, d, n)
      == if !l.Ok? then l else if !r.Ok? then After(l.out, r) else Apply(e.op, l.v, r.v, l.out + r.out)
  {
    var l, r := TypeOf(g, sc, e.left), TypeOf(g, sc, e.right);
    NoneJoined(l.diags + r.diags, BinaryType(e.op, l.ty, r.ty).diags);
    NoneJoined(l.diags, r.diags);
  }

  /** Operators on operands of checked type: comparisons yield 0 or 1, and so do `and` and `or` on bools. */
  lemma {:induction false} OperatorSound(known: bool, op: BinaryOp, l: Ty, r: Ty, a: Word, b: Word, out: seq<Event>)
    requires BinaryType(op, l, r).diags == []
    requires !known ==> (IsBool(l) ==> a <= 1) && (IsBool(r) ==> b <= 1)
    ensures ResOk(known, BinaryType(op, l, r).ty, Apply(op, a, b, out))
  {
    if IsLogical(op) && !known {
      BoolAndOr(a, b);
    }
  }

  lemma {:induction false} LookupSig(p: Program, g: Globals, name: string)
    requires WellChecked(p, g)
    ensures g.sigs.Keys == FnNames(p.fns)
    ensures Lookup(p.fns, name, 0).Some? <==> name in g.sigs
    ensures name in g.sigs ==>
      var f := Lookup(p.fns, name, 0).value.decl;
      && g.sigs[name] == SigOf(f) && FnDiags(g, f) == [] && f in p.fns
    ensures name in g.sigs ==> name != "io.write" && name != "core/io.write" && name != "mem.alloc"
  {
    LookupFinds(p.fns, name, 0);
  }

  lemma {:induction false} NameSound(p: Program, cx: Ctx, g: Globals, sc: Scope, all: Vars, e: Expr, store: Store, sn: nat, d: nat, n: nat)
    requires e.Ident?
    requires WellChecked(p, g) && At(cx, sc) && Within(sc, all) && StoreOk(Known(cx), all, store)
    requires TypeOf(g, sc, e).diags == []
    ensures ResOk(Known(cx), TypeOf(g, sc, e).ty, EvalExpr(p, cx, e, store, sn, d, n))
    decreases d, 0, n, e, 0
  {
    hide WellChecked, EvalExpr, CallFn, TypeOf, FnDiags, FnSlots, Lookup;
    LookupSig(p, g, e.name);
    NameParts(p, cx, g, sc, all, e, store, sn, d, n);
    if e.name !in sc.vars && d > 0 {
      FnSound(p, cx.residue, g, e.name, [], d - 1, n);
    }
  }

  lemma {:induction false} NameParts(p: Program, cx: Ctx, g: Globals, sc: Scope, all: Vars, e: Expr, store: Store, sn: nat, d: nat, n: nat)
    requires e.Ident? && TypeOf(g, sc, e).diags == []
    requires g.sigs.Keys == FnNames(p.fns) && At(cx, sc) && Within(sc, all) && StoreOk(Known(cx), all, store)
    ensures e.name in sc.vars || (e.name in g.sigs && g.sigs[e.name].params == [])
    ensures TypeOf(g, sc, e).ty == Named(if e.name in sc.vars then sc.vars[e.name].ty else g.sigs[e.name].ret)
    ensures e.name in sc.vars ==> e.name in all && all[e.name] == sc.vars[e.name]
    ensures EvalExpr(p, cx, e, store, sn, d, n)
         == if e.name in sc.vars then if e.name in store then Ok(store[e.name], []) else Stuck(Uninitialised(e.name))
            else if Lookup(p.fns, e.name, 0).None? then Stuck(Undeclared(e.name))
            else if d == 0 then OutOfFuel(true)
            else CallFn(p, cx.residue, e.name, [], d - 1, n)
  {
    hide FnNames;
  }

  ghost predicate AllTyped(g: Globals, sc: Scope, args: seq<Expr>) {
    forall i :: 0 <= i < |args| ==> TypeOf(g, sc, args[i]).diags == []
  }

  lemma {:induction false} ArgsSound(p: Program, cx: Ctx, g: Globals, sc: Scope, all: Vars, args: seq<Expr>, store: Store, sn: nat, d: nat, n: nat)
    requires WellChecked(p, g) && At(cx, sc) && Within(sc, all) && StoreOk(Known(cx), all, store)
    requires AllTyped(g, sc, args)
    ensures var r := EvalArgs(p, cx, args, store, sn, d, n);
      && (r.Stuck? ==> Excused(Known(cx), r.why))
      && (r.Ok? ==> forall i :: 0 <= i < |args| ==>
            TypeOf(g, sc, args[i]).ty != Unknown && (IsBool(TypeOf(g, sc, args[i]).ty) && !Known(cx) ==> r.v[i] <= 1))
    decreases d, 0, n, args, 0
  {
    hide WellChecked, Within, TypeOf;
    if args != [] {
      AtParts(cx, sc);
      ExprSound(p, cx.First(), g, sc, all, args[0], store, sn, d, n);
      assert forall i :: 0 <= i < |args[1..]| ==> args[1..][i] == args[i + 1];
      ArgsSound(p, cx.Second(), g, sc, all, args[1..], store, sn + |Strings(args[0])|, d, n);
      var first, rest := EvalExpr(p, cx.First(), args[0], store, sn, d, n), EvalArgs(p, cx.Second(), args[1..], store, sn + |Strings(args[0])|, d, n);
      if first.Ok? && rest.Ok? {
        forall i | 0 <= i < |args|
          ensures TypeOf(g, sc, args[i]).ty != Unknown
          ensures IsBool(TypeOf(g, sc, args[i]).ty) && !Known(cx) ==> ([first.v] + rest.v)[i] <= 1
        {
          if i > 0 {
            assert args[1..][i - 1] == args[i];
          }
        }
      }
    }
  }

  /** Checked arguments are typed, and a bool parameter only accepts what is bool. */
  lemma {:induction false} ArgsTyped(g: Globals, sc: Scope, args: seq<Expr>, params: seq<string>)
    requires |args| == |params| && ArgDiags(g, sc, args, params) == []
    ensures AllTyped(g, sc, args)
    ensures forall i :: 0 <= i < |args| && params[i] == "bool" ==>
      TypeOf(g, sc, args[i]).ty == Unknown || IsBool(TypeOf(g, sc, args[i]).ty)
    decreases args
  {
    if args != [] {
      var t := TypeOf(g, sc, args[0]);
      NoneJoined(t.diags + RequireType(params[0], t.ty), ArgDiags(g, sc, args[1..], params[1..]));
      NoneJoined(t.diags, RequireType(params[0], t.ty));
      ArgsTyped(g, sc, args[1..], params[1..]);
      forall i | 0 <= i < |args|
        ensures TypeOf(g, sc, args[i]).diags == []
        ensures params[i] == "bool" ==> TypeOf(g, sc, args[i]).ty == Unknown || IsBool(TypeOf(g, sc, args[i]).ty)
      {
        if i > 0 {
          assert args[1..][i - 1] == args[i] && params[1..][i - 1] == params[i];
        }
      }
    }
  }

  lemma {:induction false} CallSound(p: Program, cx: Ctx, g: Globals, sc: Scope, all: Vars, e: Expr, store: Store, sn: nat, d: nat, n: nat)
    requires e.Call?
    requires WellChecked(p, g) && At(cx, sc) && Within(sc, all) && StoreOk(Known(cx), all, store)
    requires TypeOf(g, sc, e).diags == []
    ensures ResOk(Known(cx), TypeOf(g, sc, e).ty, EvalExpr(p, cx, e, store, sn, d, n))
    decreases d, 0, n, e, 0
  {
    hide WellChecked, Within, TypeOf, EvalExpr, EvalArgs, CallFn, StoreOk, FnNames, FnSlots, FnDiags, Lookup, ArgDiags;
    var name := e.callee.Display();
    LookupSig(p, g, name);
    AtParts(cx, sc);
    CallParts(p, cx, g, sc, e, store, sn, d, n);
    if name == "io.write" {
      WriteTyped(g, sc, e);
      ArgsSound(p, cx.First(), g, sc, all, e.args, store, sn, d, n);
    } else if name in g.sigs {
      ArgsTyped(g, sc, e.args, g.sigs[name].params);
      ArgsSound(p, cx.First(), g, sc, all, e.args, store, sn, d, n);
      var r := EvalArgs(p, cx.First(), e.args, store, sn, d, n);
      if r.Ok? && d > 0 {
        FnSound(p, cx.Second().residue, g, name, r.v, d - 1, n);
      }
    }
  }

  lemma {:induction false} CallParts(p: Program, cx: Ctx, g: Globals, sc: Scope, e: Expr, store: Store, sn: nat, d: nat, n: nat)
    requires e.Call? && TypeOf(g, sc, e).diags == []
    ensures
      var name := e.callee.Display();
      var r := EvalArgs(p, cx.First(), e.args, store, sn, d, n);
      EvalExpr(p, cx, e, store, sn, d, n)
      == if name == "io.write" && |e.args| != 3 then Stuck(WrongArity)
         else if name != "io.write" && Lookup(p.fns, name, 0).None? then Stuck(NoFunction(name))
         else if !r.Ok? then Failed(r)
         else if name == "io.write" then Ok(0, r.out + [Write(r.v[0], r.v[1], r.v[2])])
         else if d == 0 then OutOfFuel(true)
         else After(r.out, CallFn(p, cx.Second().residue, name, r.v, d - 1, n))
    ensures
      var name := e.callee.Display();
      name != "io.write" && name != "core/io.write" && name != "mem.alloc" ==>
        && name in g.sigs && |g.sigs[name].params| == |e.args| && ArgDiags(g, sc, e.args, g.sigs[name].params) == []
        && TypeOf(g, sc, e).ty == Named(g.sigs[name].ret)
    ensures e.callee.Display() == "io.write" ==> TypeOf(g, sc, e).ty == Named("void")
  {
    hide EvalArgs, CallFn, ArgDiags;
  }

  lemma {:induction false} WriteTyped(g: Globals, sc: Scope, e: Expr)
    requires e.Call? && e.callee.Display() == "io.write" && TypeOf(g, sc, e).diags == []
    ensures |e.args| == 3 && AllTyped(g, sc, e.args) && TypeOf(g, sc, e).ty == Named("void")
    ensures "syscall" in g.capabilities
  {
    if |e.args| == 3 {
      var lacks := ErrorIf("syscall" !in g.capabilities, "E2001");
      var fd, msg, len := TypeOf(g, sc, e.args[0]), TypeOf(g, sc, e.args[1]), TypeOf(g, sc, e.args[2]);
      var bad := ErrorIf(!IsNumeric(fd.ty) || !IsNumeric(len.ty) || !IsStr(msg.ty), "E0402");
      NoneJoined(lacks + fd.diags + msg.diags + len.diags, bad);
      NoneJoined(lacks + fd.diags + msg.diags, len.diags);
      NoneJoined(lacks + fd.diags, msg.diags);
      NoneJoined(lacks, fd.diags);
    }
  }

  // ----- calls -----

  lemma {:induction false} FnSound(p: Program, z: Residue, g: Globals, name: string, ws: seq<Word>, d: nat, n: nat)
    requires WellChecked(p, g) && name in g.sigs && |ws| == |g.sigs[name].params| && (z.Unspecified? || Definite(z))
    requires z.Unspecified? ==> forall i :: 0 <= i < |ws| && g.sigs[name].params[i] == "bool" ==> ws[i] <= 1
    ensures ResOk(!z.Unspecified?, Named(g.sigs[name].ret), CallFn(p, z, name, ws, d, n))
    decreases d, 1
  {
    hide WellChecked, ExecBlock, FnDiags, CheckBlock, FnSlots, FnNames, EntryStore, EntryCtx, StoreOk, At;
    LookupSig(p, g, name);
    var f := Lookup(p.fns, name, 0).value;
    var sc := EntryScope(f.decl);
    var all := CheckBlock(g, sc, f.decl.body).vars;
    BodyAccepted(g, f.decl, ws, z);
    BlockSound(p, EntryCtx(f.decl, z), g, sc, all, f.decl.body, EntryStore(f.decl, ws, z), f.strBase, d, n);
  }

  /** What checking a function says about running its body. */
  lemma {:induction false} BodyAccepted(g: Globals, f: FnDecl, ws: seq<Word>, z: Residue)
    requires FnDiags(g, f) == [] && (z.Unspecified? || Definite(z))
    requires |ws| == |f.params|
    requires z.Unspecified? ==> forall i :: 0 <= i < |ws| && f.params[i].ty == "bool" ==> ws[i] <= 1
    ensures CheckBlock(g, EntryScope(f), f.body).diags == []
    ensures f.ret != "void" ==> BlockReturns(f.body)
    ensures At(EntryCtx(f, z), EntryScope(f)) && Known(EntryCtx(f, z)) == !z.Unspecified?
    ensures StoreOk(!z.Unspecified?, CheckBlock(g, EntryScope(f), f.body).vars, EntryStore(f, ws, z))
  {
    var params, sc := DeclareParams(f.params), EntryScope(f);
    NoneJoined(params.diags + CheckBlock(g, sc, f.body).diags, ErrorIf(f.ret != "void" && !BlockReturns(f.body), "E4101"));
    NoneJoined(params.diags, CheckBlock(g, sc, f.body).diags);
    hide CheckBlock, FnDiags, BlockReturns;
    ParamsAccepted(f.params);
    ParamsNamed(f.params);
    EntryAccepted(g, f, ws, z);
  }

  lemma {:induction false} EntryKeys(f: FnDecl, ws: seq<Word>, z: Residue)
    requires |ws| == |f.params| && Distinct(f.params)
    ensures Bind(f.params, ws).Keys == Names(f.params) == Among(ParamNames(f.params))
    ensures Among(DeclaredNames(f)) == Names(f.params) + Among(BlockNames(f.body))
    ensures EntryStore(f, ws, z).Keys == if z.Unspecified? then Names(f.params) else Among(DeclaredNames(f))
  {
    hide Bind, Names, ParamNames, BlockNames;
    BindAt(f.params, ws);
    ParamsNamed(f.params);
  }

  lemma {:induction false} EntryAccepted(g: Globals, f: FnDecl, ws: seq<Word>, z: Residue)
    requires DeclareParams(f.params).diags == [] && |ws| == |f.params|
    requires z.Unspecified? ==> forall i :: 0 <= i < |ws| && f.params[i].ty == "bool" ==> ws[i] <= 1
    ensures StoreOk(!z.Unspecified?, CheckBlock(g, EntryScope(f), f.body).vars, EntryStore(f, ws, z))
  {
    hide CheckBlock, Bind, Names, BlockNames, DeclareParams;
    var sc := EntryScope(f);
    BlockDeclares(g, sc, f.body);
    BlockGrows(g, sc, f.body);
    ParamsAccepted(f.params);
    EntryKeys(f, ws, z);
    if z.Unspecified? {
      BoolParams(f, ws, CheckBlock(g, sc, f.body).vars);
    }
  }

  lemma {:induction false} BoolParams(f: FnDecl, ws: seq<Word>, all: Vars)
    requires DeclareParams(f.params).diags == [] && |ws| == |f.params| && VarsGrow(DeclareParams(f.params).vars, all)
    requires forall i :: 0 <= i < |ws| && f.params[i].ty == "bool" ==> ws[i] <= 1
    ensures StoreOk(false, all, Bind(f.params, ws))
  {
    hide Bind, Names, DeclareParams;
    ParamsAccepted(f.params);
    BindAt(f.params, ws);
    forall x | x in Bind(f.params, ws)
      ensures x in all && (all[x].ty == "bool" ==> Bind(f.params, ws)[x] <= 1)
    {
      var i := NameFrom(f.params, x);
      assert f.params[i].name in DeclareParams(f.params).vars;
    }
  }

  lemma {:induction false} BlockGrows(g: Globals, sc: Scope, b: Block)
    ensures VarsGrow(sc.vars, CheckBlock(g, sc, b).vars)
    decreases b, 0
  {
    if b != [] {
      StmtGrows(g, sc, b[0]);
      BlockGrows(g, sc.(vars := CheckStmt(g, sc, b[0]).vars), b[1..]);
    }
  }

  lemma {:induction false} StmtGrows(g: Globals, sc: Scope, s: Stmt)
    ensures VarsGrow(sc.vars, CheckStmt(g, sc, s).vars)
    decreases s, 0
  {
    match s
    case If(_, t, arm) =>
      BlockGrows(g, sc, t);
      if arm.Else? {
        BlockGrows(g, sc.(vars := CheckBlock(g, sc, t).vars), arm.block);
      }
    case Loop(b) => BlockGrows(g, sc.(loops := sc.loops + 1), b);
    case While(_, b) => BlockGrows(g, sc.(loops := sc.loops + 1), b);
    case UnsafeBlock(b) => BlockGrows(g, sc.(unsafes := sc.unsafes + 1), b);
    case _ =>
  }

  // ----- statements -----

  /** Running a checked block: nothing untoward, and it does not run off its end if it always returns. */
  lemma {:induction false} BlockSound(p: Program, cx: Ctx, g: Globals, sc: Scope, all: Vars, b: Block, store: Store, sn: nat, d: nat, n: nat)
    requires WellChecked(p, g) && At(cx, sc) && StoreOk(Known(cx), all, store)
    requires CheckBlock(g, sc, b).diags == [] && Within(sc.(vars := CheckBlock(g, sc, b).vars), all)
    ensures FlowOk(Known(cx), all, sc, ExecBlock(p, cx, b, store, sn, d, n))
    ensures BlockReturns(b) ==> !(ExecBlock(p, cx, b, store, sn, d, n).Ok? && ExecBlock(p, cx, b, store, sn, d, n).v.Onward?)
    decreases d, 0, n, b, 1
  {
    if b != [] {
      SomeBlockSound(p, cx, g, sc, all, b, store, sn, d, n);
    }
  }

  lemma {:induction false} BlockSteps(p: Program, cx: Ctx, g: Globals, sc: Scope, all: Vars, b: Block, store: Store, sn: nat, d: nat, n: nat)
    requires b != [] && CheckBlock(g, sc, b).diags == [] && Within(sc.(vars := CheckBlock(g, sc, b).vars), all)
    ensures var first := CheckStmt(g, sc, b[0]);
      var sc' := sc.(vars := first.vars);
      && first.diags == [] && CheckBlock(g, sc', b[1..]).diags == []
      && Within(sc', all) && Within(sc.(vars := CheckBlock(g, sc', b[1..]).vars), all)
    ensures
      var first := ExecStmt(p, cx.First(), b[0], store, sn, d, n);
      var later := cx.Second().Past(StmtNames(b[0]));
      ExecBlock(p, cx, b, store, sn, d, n)
      == if first.Ok? && first.v.Onward? then After(first.out, ExecBlock(p, later, b[1..], first.v.store, sn + |StmtStrings(b[0])|, d, n))
         else first
    ensures BlockReturns(b) <==> StmtReturns(b[0]) || BlockReturns(b[1..])
  {
    var first := CheckStmt(g, sc, b[0]);
    NoneJoined(first.diags, CheckBlock(g, sc.(vars := first.vars), b[1..]).diags);
    BlockGrows(g, sc.(vars := first.vars), b[1..]);
  }

  lemma {:induction false} AtLater(g: Globals, cx: Ctx, sc: Scope, s: Stmt)
    requires At(cx, sc)
    ensures var later := cx.Second().Past(StmtNames(s));
      At(later, sc.(vars := CheckStmt(g, sc, s).vars)) && Known(later) == Known(cx)
  {
    hide CheckStmt, StmtNames, Definite;
    StmtDeclares(g, sc, s);
    AtParts(cx, sc);
  }

  lemma {:induction false} SomeBlockSound(p: Program, cx: Ctx, g: Globals, sc: Scope, all: Vars, b: Block, store: Store, sn: nat, d: nat, n: nat)
    requires b != []
    requires WellChecked(p, g) && At(cx, sc) && StoreOk(Known(cx), all, store)
    requires CheckBlock(g, sc, b).diags == [] && Within(sc.(vars := CheckBlock(g, sc, b).vars), all)
    ensures FlowOk(Known(cx), all, sc, ExecBlock(p, cx, b, store, sn, d, n))
    ensures BlockReturns(b) ==> !(ExecBlock(p, cx, b, store, sn, d, n).Ok? && ExecBlock(p, cx, b, store, sn, d, n).v.Onward?)
    decreases d, 0, n, b, 0
  {
    hide WellChecked, Within, At, Known, ExecBlock, ExecStmt, CheckBlock, CheckStmt, BlockReturns, StmtReturns, StoreOk, StmtStrings, StmtNames;
    BlockSteps(p, cx, g, sc, all, b, store, sn, d, n);
    var sc' := sc.(vars := CheckStmt(g, sc, b[0]).vars);
    var later := cx.Second().Past(StmtNames(b[0]));
    AtParts(cx, sc);
    AtLater(g, cx, sc, b[0]);
    StmtSound(p, cx.First(), g, sc, all, b[0], store, sn, d, n);
    var first := ExecStmt(p, cx.First(), b[0], store, sn, d, n);
    if first.Ok? && first.v.Onward? {
      BlockSound(p, later, g, sc', all, b[1..], first.v.store, sn + |StmtStrings(b[0])|, d, n);
    }
  }

  lemma {:induction false} StmtSound(p: Program, cx: Ctx, g: Globals, sc: Scope, all: Vars, s: Stmt, store: Store, sn: nat, d: nat, n: nat)
    requires WellChecked(p, g) && At(cx, sc) && StoreOk(Known(cx), all, store)
    requires CheckStmt(g, sc, s).diags == [] && Within(sc.(vars := CheckStmt(g, sc, s).vars), all)
    ensures FlowOk(Known(cx), all, sc, ExecStmt(p, cx, s, store, sn, d, n))
    ensures StmtReturns(s) ==> !(ExecStmt(p, cx, s, store, sn, d, n).Ok? && ExecStmt(p, cx, s, store, sn, d, n).v.Onward?)
    decreases d, 0, n, s, 3
  {
    WithinBefore(g, sc, all, s);
    hide WellChecked, Within, ExecBlock, EvalExpr, CheckBlock, TypeOf, BlockReturns, StoreOk, Update;
    match s
    case Let(x, ty, e) => LetSound(p, cx, g, sc, all, x, ty, e, false, store, sn, d, n);
    case Mut(x, ty, e) => LetSound(p, cx, g, sc, all, x, ty, e, true, store, sn, d, n);
    case Assign(x, e) => AssignSound(p, cx, g, sc, all, s, store, sn, d, n);
    case Ret(_) => RetSound(p, cx, g, sc, all, s, store, sn, d, n);
    case If(_, _, _) => IfSound(p, cx, g, sc, all, s, store, sn, d, n);
    case Loop(_) => LoopSound(p, cx, g, sc, all, s, store, sn, d, n);
    case While(_, _) => WhileSound(p, cx, g, sc, all, s, store, sn, d, n);
    case UnsafeBlock(body) =>
      var inner := sc.(unsafes := sc.unsafes + 1);
      NoneJoined(ErrorIf("unsafe" !in g.capabilities, "E0801"), CheckBlock(g, inner, body).diags);
      WithinSameVars(sc.(vars := CheckBlock(g, inner, body).vars), inner.(vars := CheckBlock(g, inner, body).vars), all);
      assert At(cx, inner);
      BlockSound(p, cx, g, inner, all, body, store, sn, d, n);
    case ExprStmt(e) =>
      ExprSound(p, cx, g, sc, all, e, store, sn, d, n);
    case _ =>
  }

  lemma {:induction false} WithinBefore(g: Globals, sc: Scope, all: Vars, s: Stmt)
    requires Within(sc.(vars := CheckStmt(g, sc, s).vars), all)
    ensures Within(sc, all)
  {
    StmtGrows(g, sc, s);
  }

  lemma {:induction false} LetSound(p: Program, cx: Ctx, g: Globals, sc: Scope, all: Vars, x: string, ty: string, e: Expr, mutable: bool,
                                    store: Store, sn: nat, d: nat, n: nat)
    requires WellChecked(p, g) && At(cx, sc) && StoreOk(Known(cx), all, store)
    requires DeclareVar(g, sc, x, ty, e, mutable).diags == []
    requires Within(sc.(vars := DeclareVar(g, sc, x, ty, e, mutable).vars), all)
    ensures FlowOk(Known(cx), all, sc, Update(x, EvalExpr(p, cx, e, store, sn, d, n), store))
    decreases d, 0, n, e, 2
  {
    hide WellChecked, EvalExpr, TypeOf, FnNames;
    var t := TypeOf(g, sc, e);
    NoneJoined(t.diags, RequireType(ty, t.ty));
    ExprSound(p, cx, g, sc, all, e, store, sn, d, n);
    assert x in all && all[x].ty == ty;
  }

  lemma {:induction false} AssignSound(p: Program, cx: Ctx, g: Globals, sc: Scope, all: Vars, s: Stmt, store: Store, sn: nat, d: nat, n: nat)
    requires s.Assign?
    requires WellChecked(p, g) && At(cx, sc) && StoreOk(Known(cx), all, store)
    requires CheckStmt(g, sc, s).diags == [] && Within(sc, all)
    ensures FlowOk(Known(cx), all, sc, Update(s.name, EvalExpr(p, cx, s.rhs, store, sn, d, n), store))
    decreases d, 0, n, s, 0
  {
    hide WellChecked, EvalExpr, TypeOf, FnNames;
    var t := TypeOf(g, sc, s.rhs);
    NoneJoined(ErrorIf(!sc.vars[s.name].mutable, "E4201") + t.diags, RequireType(sc.vars[s.name].ty, t.ty));
    NoneJoined(ErrorIf(!sc.vars[s.name].mutable, "E4201"), t.diags);
    ExprSound(p, cx, g, sc, all, s.rhs, store, sn, d, n);
  }

  lemma {:induction false} RetSound(p: Program, cx: Ctx, g: Globals, sc: Scope, all: Vars, s: Stmt, store: Store, sn: nat, d: nat, n: nat)
    requires s.Ret?
    requires WellChecked(p, g) && At(cx, sc) && StoreOk(Known(cx), all, store)
    requires CheckStmt(g, sc, s).diags == [] && Within(sc, all)
    ensures FlowOk(Known(cx), all, sc, ExecStmt(p, cx, s, store, sn, d, n))
    ensures ExecStmt(p, cx, s, store, sn, d, n).Ok? ==> ExecStmt(p, cx, s, store, sn, d, n).v.Returned?
    decreases d, 0, n, s, 0
  {
    hide WellChecked, EvalExpr, TypeOf, FnNames;
    if s.result.Some? && sc.ret != "void" {
      var e := s.result.value;
      var t := TypeOf(g, sc, e);
      NoneJoined(t.diags, RequireType(sc.ret, t.ty));
      ExprSound(p, cx, g, sc, all, e, store, sn, d, n);
    }
  }

  lemma {:induction false} IfSteps(g: Globals, sc: Scope, all: Vars, s: Stmt)
    requires s.If?
    requires CheckStmt(g, sc, s).diags == [] && Within(sc.(vars := CheckStmt(g, sc, s).vars), all)
    ensures TypeOf(g, sc, s.cond).diags == [] && Within(sc, all)
    ensures var t := CheckBlock(g, sc, s.thenBlock);
      && t.diags == [] && Within(sc.(vars := t.vars), all)
      && (s.elseArm.Else? ==>
            && CheckBlock(g, sc.(vars := t.vars), s.elseArm.block).diags == []
            && Within(sc.(vars := CheckBlock(g, sc.(vars := t.vars), s.elseArm.block).vars), all))
  {
    hide FnNames;
    var t := CheckBlock(g, sc, s.thenBlock);
    var sc' := sc.(vars := t.vars);
    NoneJoined(CondDiags(g, sc, s.cond) + t.diags, CheckArm(g, sc', s.elseArm).diags);
    NoneJoined(CondDiags(g, sc, s.cond), t.diags);
    NoneJoined(TypeOf(g, sc, s.cond).diags, ErrorIf(!IsBool(TypeOf(g, sc, s.cond).ty), "E4301"));
    BlockGrows(g, sc, s.thenBlock);
    if s.elseArm.Else? {
      BlockGrows(g, sc', s.elseArm.block);
    }
  }

  lemma {:induction false} AtElse(g: Globals, cx: Ctx, sc: Scope, b: Block)
    requires At(cx, sc)
    ensures var later := cx.Second().Past(BlockNames(b));
      At(later, sc.(vars := CheckBlock(g, sc, b).vars)) && Known(later) == Known(cx)
  {
    hide CheckBlock, BlockNames, Definite;
    BlockDeclares(g, sc, b);
    AtParts(cx, sc);
  }

  lemma {:induction false} IfSound(p: Program, cx: Ctx, g: Globals, sc: Scope, all: Vars, s: Stmt, store: Store, sn: nat, d: nat, n: nat)
    requires s.If?
    requires WellChecked(p, g) && At(cx, sc) && StoreOk(Known(cx), all, store)
    requires CheckStmt(g, sc, s).diags == [] && Within(sc.(vars := CheckStmt(g, sc, s).vars), all)
    ensures FlowOk(Known(cx), all, sc, ExecStmt(p, cx, s, store, sn, d, n))
    ensures StmtReturns(s) ==> !(ExecStmt(p, cx, s, store, sn, d, n).Ok? && ExecStmt(p, cx, s, store, sn, d, n).v.Onward?)
    decreases d, 0, n, s, 0
  {
    hide WellChecked, Within, At, Known, ExecBlock, EvalExpr, CheckBlock, CheckStmt, TypeOf, BlockReturns, StoreOk, BlockNames;
    IfSteps(g, sc, all, s);
    AtParts(cx, sc);
    AtElse(g, cx, sc, s.thenBlock);
    ExprSound(p, cx.First(), g, sc, all, s.cond, store, sn, d, n);
    var c := EvalExpr(p, cx.First(), s.cond, store, sn, d, n);
    var sn' := sn + |Strings(s.cond)|;
    if c.Ok? && c.v != 0 {
      BlockSound(p, cx.Second(), g, sc, all, s.thenBlock, store, sn', d, n);
    } else if c.Ok? && s.elseArm.Else? {
      BlockSound(p, cx.Second().Past(BlockNames(s.thenBlock)), g, sc.(vars := CheckBlock(g, sc, s.thenBlock).vars), all, s.elseArm.block, store,
                 sn' + |BlockStrings(s.thenBlock)|, d, n);
    }
  }

  lemma {:induction false} LoopSound(p: Program, cx: Ctx, g: Globals, sc: Scope, all: Vars, s: Stmt, store: Store, sn: nat, d: nat, n: nat)
    requires s.Loop?
    requires WellChecked(p, g) && At(cx, sc) && StoreOk(Known(cx), all, store)
    requires CheckStmt(g, sc, s).diags == [] && Within(sc.(vars := CheckStmt(g, sc, s).vars), all)
    ensures FlowOk(Known(cx), all, sc, ExecStmt(p, cx, s, store, sn, d, n))
    decreases d, 0, n, s, 0
  {
    hide WellChecked, Within, ExecBlock, CheckBlock, StoreOk;
    var inner := sc.(loops := sc.loops + 1);
    WithinSameVars(sc.(vars := CheckBlock(g, inner, s.body).vars), inner.(vars := CheckBlock(g, inner, s.body).vars), all);
    AtParts(cx, sc);
    assert At(cx.First(), inner);
    BlockSound(p, cx.First(), g, inner, all, s.body, store, sn, d, n);
    var r := ExecBlock(p, cx.First(), s.body, store, sn, d, n);
    if n > 0 && r.Ok? && (r.v.Onward? || r.v.Continued?) {
      StmtSound(p, cx.Second(), g, sc, all, s, r.v.store, sn, d, n - 1);
    }
  }

  lemma {:induction false} WithinSameVars(sc: Scope, other: Scope, all: Vars)
    requires Within(sc, all) && other.vars == sc.vars
    ensures Within(other, all)
  {}

  lemma {:induction false} WhileSound(p: Program, cx: Ctx, g: Globals, sc: Scope, all: Vars, s: Stmt, store: Store, sn: nat, d: nat, n: nat)
    requires s.While?
    requires WellChecked(p, g) && At(cx, sc) && StoreOk(Known(cx), all, store)
    requires CheckStmt(g, sc, s).diags == [] && Within(sc.(vars := CheckStmt(g, sc, s).vars), all)
    ensures FlowOk(Known(cx), all, sc, ExecStmt(p, cx, s, store, sn, d, n))
    decreases d, 0, n, s, 0
  {
    hide WellChecked, Within, At, Known, ExecBlock, ExecStmt, EvalExpr, CheckBlock, CheckStmt, TypeOf, StoreOk, FnNames, FlowOk, ResOk, After, Strings,
         AfterLoop;
    AtParts(cx, sc);
    AtParts(cx.Second(), sc);
    WhileChecks(g, sc, all, s);
    WhileSteps(p, cx, s, store, sn, d, n);
    var c := EvalExpr(p, cx.First(), s.cond, store, sn, d, n);
    if n == 0 {
      QuietFlow(Known(cx), all, sc, ExecStmt(p, cx, s, store, sn, d, n));
    } else {
      ExprSound(p, cx.First(), g, sc, all, s.cond, store, sn, d, n);
      if !c.Ok? {
        FailedCondition(Known(cx), all, sc, TypeOf(g, sc, s.cond).ty, c);
      } else if c.v == 0 {
        QuietOnward(Known(cx), all, sc, store, c.out);
      } else {
        TurnSound(p, cx.Second(), g, sc, all, s, s.body, store, sn, sn + |Strings(s.cond)|, d, n, c.out);
      }
    }
  }

  lemma {:induction false} QuietFlow(known: bool, all: Vars, sc: Scope, r: Res<Flow>)
    requires r.OutOfFuel?
    ensures FlowOk(known, all, sc, r)
  {}

  lemma {:induction false} QuietOnward(known: bool, all: Vars, sc: Scope, store: Store, out: seq<Event>)
    requires StoreOk(known, all, store)
    ensures FlowOk(known, all, sc, Ok(Onward(store), out))
  {}

  lemma {:induction false} FailedCondition(known: bool, all: Vars, sc: Scope, ty: Ty, c: Res<Word>)
    requires !c.Ok? && ResOk(known, ty, c)
    ensures FlowOk(known, all, sc, Failed(c))
  {}

  /** One turn of a loop's body and what follows. */
  lemma {:induction false} TurnSound(p: Program, cx: Ctx, g: Globals, sc: Scope, all: Vars, s: Stmt, body: Block, store: Store, sn: nat, sb: nat,
                                     d: nat, n: nat, out: seq<Event>)
    requires (s.While? || s.Loop?) && s.body == body && n > 0
    requires WellChecked(p, g) && At(cx, sc) && StoreOk(Known(cx), all, store)
    requires CheckStmt(g, sc, s).diags == [] && Within(sc.(vars := CheckStmt(g, sc, s).vars), all)
    requires var inner := sc.(loops := sc.loops + 1);
      CheckBlock(g, inner, body).diags == [] && Within(inner.(vars := CheckBlock(g, inner, body).vars), all)
    ensures var r := ExecBlock(p, cx.First(), body, store, sb, d, n);
      FlowOk(Known(cx), all, sc, After(out, if r.Ok? && (r.v.Onward? || r.v.Continued?) then After(r.out, ExecStmt(p, cx.Second(), s, r.v.store, sn, d, n - 1))
                                 else AfterLoop(r)))
    decreases d, 0, n, body, 3
  {
    hide WellChecked, Within, ExecBlock, ExecStmt, CheckBlock, CheckStmt, StoreOk, FnNames;
    AtParts(cx, sc);
    assert At(cx.First(), sc.(loops := sc.loops + 1));
    BlockSound(p, cx.First(), g, sc.(loops := sc.loops + 1), all, body, store, sb, d, n);
    var r := ExecBlock(p, cx.First(), body, store, sb, d, n);
    if r.Ok? && (r.v.Onward? || r.v.Continued?) {
      StmtSound(p, cx.Second(), g, sc, all, s, r.v.store, sn, d, n - 1);
    }
  }

  lemma {:induction false} WhileChecks(g: Globals, sc: Scope, all: Vars, s: Stmt)
    requires s.While?
    requires CheckStmt(g, sc, s).diags == [] && Within(sc.(vars := CheckStmt(g, sc, s).vars), all)
    ensures TypeOf(g, sc, s.cond).diags == [] && Within(sc, all)
    ensures var inner := sc.(loops := sc.loops + 1);
      CheckBlock(g, inner, s.body).diags == [] && Within(inner.(vars := CheckBlock(g, inner, s.body).vars), all)
  {
    WithinBefore(g, sc, all, s);
    hide Within;
    var inner := sc.(loops := sc.loops + 1);
    var b := CheckBlock(g, inner, s.body);
    NoneJoined(CondDiags(g, sc, s.cond), b.diags);
    NoneJoined(TypeOf(g, sc, s.cond).diags, ErrorIf(!IsBool(TypeOf(g, sc, s.cond).ty), "E4301"));
    WithinSameVars(sc.(vars := b.vars), inner.(vars := b.vars), all);
  }

  lemma {:induction false} WhileSteps(p: Program, cx: Ctx, s: Stmt, store: Store, sn: nat, d: nat, n: nat)
    requires s.While?
    ensures
      var c := EvalExpr(p, cx.First(), s.cond, store, sn, d, n);
      var r := ExecBlock(p, cx.Second().First(), s.body, store, sn + |Strings(s.cond)|, d, n);
      ExecStmt(p, cx, s, store, sn, d, n)
      == if n == 0 then OutOfFuel(false)
         else if !c.Ok? then Failed(c)
         else if c.v == 0 then Ok(Onward(store), c.out)
         else After(c.out, if r.Ok? && (r.v.Onward? || r.v.Continued?) then After(r.out, ExecStmt(p, cx.Second().Second(), s, r.v.store, sn, d, n - 1))
                           else AfterLoop(r))
  {
    hide EvalExpr, ExecBlock, Strings;
  }
}
