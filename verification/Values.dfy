/** A program parsed without a diagnostic and accepted evaluates only what has a value; a plain one always has a
    meaning but for early reads. */
module Values {
  import opened Ast
  import opened Words
  import opened Machine
  import opened Semantics
  import opened Emission
  import opened Checking
  import opened Resolution
  import opened Soundness
  import opened Inspection
  import opened Linking
  import opened Assembling
  import opened QuietParsing

  /** No error node and no path but as a callee; the arguments of mem.alloc aside, which no run evaluates. If strict,
      no literal past 64 bits and no call of an undefined built-in either. */
  predicate ExprValued(strict: bool, e: Expr) {
    match e
    case IntLit(v) => strict ==> v < TWO64
    case Unary(_, x) => ExprValued(strict, x)
    case Binary(_, l, r) => ExprValued(strict, l) && ExprValued(strict, r)
    case Call(_, args) => (strict ==> !CallsUndefined(e)) && (IsAlloc(e) || ArgsValued(strict, args))
    case PathExpr(_) => false
    case ErrorExpr => false
    case _ => true
  }

  predicate ArgsValued(strict: bool, args: seq<Expr>) {
    args == [] || (ExprValued(strict, args[0]) && ArgsValued(strict, args[1..]))
  }

  ghost predicate AllValued(strict: bool, tops: set<(Expr, nat)>) {
    forall top :: top in tops ==> ExprValued(strict, top.0)
  }

  ghost predicate BlockValued(strict: bool, b: Block, u: nat) {
    BlockWhole(b) && AllValued(strict, BlockExprs(b, u))
  }

  ghost predicate StmtValued(strict: bool, s: Stmt, u: nat) {
    StmtWhole(s) && AllValued(strict, StmtExprs(s, u))
  }

  ghost predicate ProgramValued(strict: bool, p: Program) {
    && Lookup(p.fns, "mem.alloc", 0).None?
    && forall f :: f in p.fns ==> BlockValued(strict, f.body, UnsafeDepth(f))
  }

  predicate Barred(strict: bool, why: Reason) {
    why.NotAValue? || (strict && (why.Oversized? || (why.NoFunction? && why.name in UNDEFINED)))
  }

  predicate Meets<T>(strict: bool, r: Res<T>) {
    r.Stuck? ==> !Barred(strict, r.why)
  }

  // ----- runs -----

  lemma {:induction false} ExprMeets(strict: bool, p: Program, cx: Ctx, e: Expr, store: Store, sn: nat, d: nat, n: nat)
    requires ProgramValued(strict, p) && ExprValued(strict, e)
    ensures Meets(strict, EvalExpr(p, cx, e, store, sn, d, n))
    decreases d, 0, n, e, 1
  {
    hide ProgramValued, EvalArgs, CallFn, Lookup, EvalBinary;
    match e
    case Ident(name) =>
      if d > 0 && Lookup(p.fns, name, 0).Some? {
        CallMeets(strict, p, cx.residue, name, [], d - 1, n);
      }
    case Unary(_, x) => ExprMeets(strict, p, cx, x, store, sn, d, n);
    case Binary(_, l, r) =>
      ExprMeets(strict, p, cx.First(), l, store, sn, d, n);
      ExprMeets(strict, p, cx.Second(), r, store, sn + |Strings(l)|, d, n);
    case Call(_, _) => CallExprMeets(strict, p, cx, e, store, sn, d, n);
    case _ =>
  }

  lemma {:induction false} CallExprMeets(strict: bool, p: Program, cx: Ctx, e: Expr, store: Store, sn: nat, d: nat, n: nat)
    requires e.Call? && ProgramValued(strict, p) && ExprValued(strict, e)
    ensures Meets(strict, EvalExpr(p, cx, e, store, sn, d, n))
    decreases d, 0, n, e, 0
  {
    hide EvalArgs, CallFn, Lookup, BlockValued;
    if !IsAlloc(e) {
      ArgsMeet(strict, p, cx.First(), e.args, store, sn, d, n);
      var r := EvalArgs(p, cx.First(), e.args, store, sn, d, n);
      if r.Ok? && d > 0 {
        CallMeets(strict, p, cx.Second().residue, e.callee.Display(), r.v, d - 1, n);
      }
    }
  }

  lemma {:induction false} ArgsMeet(strict: bool, p: Program, cx: Ctx, args: seq<Expr>, store: Store, sn: nat, d: nat, n: nat)
    requires ProgramValued(strict, p) && ArgsValued(strict, args)
    ensures Meets(strict, EvalArgs(p, cx, args, store, sn, d, n))
    decreases d, 0, n, args
  {
    hide ProgramValued, ExprValued;
    if args != [] {
      ExprMeets(strict, p, cx.First(), args[0], store, sn, d, n);
      ArgsMeet(strict, p, cx.Second(), args[1..], store, sn + |Strings(args[0])|, d, n);
    }
  }

  lemma {:induction false} CallMeets(strict: bool, p: Program, z: Residue, name: string, ws: seq<Word>, d: nat, n: nat)
    requires ProgramValued(strict, p) && (Lookup(p.fns, name, 0).Some? || name !in UNDEFINED || !strict)
    ensures Meets(strict, CallFn(p, z, name, ws, d, n))
    decreases d, 1
  {
    hide ExecBlock, EntryStore, BlockValued;
    LookupFinds(p.fns, name, 0);
    match Lookup(p.fns, name, 0)
    case None =>
    case Some(f) =>
      if |f.decl.params| == |ws| {
        BlockMeets(strict, p, EntryCtx(f.decl, z), f.decl.body, UnsafeDepth(f.decl), EntryStore(f.decl, ws, z), f.strBase, d, n);
      }
  }

  lemma {:induction false} BlockMeets(strict: bool, p: Program, cx: Ctx, b: Block, u: nat, store: Store, sn: nat, d: nat, n: nat)
    requires ProgramValued(strict, p) && BlockValued(strict, b, u)
    ensures Meets(strict, ExecBlock(p, cx, b, store, sn, d, n))
    decreases d, 0, n, b
  {
    hide ProgramValued, ExecStmt, StmtWhole, StmtExprs, ExprValued;
    if b != [] {
      StmtMeets(strict, p, cx.First(), b[0], u, store, sn, d, n);
      var first := ExecStmt(p, cx.First(), b[0], store, sn, d, n);
      if first.Ok? && first.v.Onward? {
        BlockMeets(strict, p, cx.Second().Past(StmtNames(b[0])), b[1..], u, first.v.store, sn + |StmtStrings(b[0])|, d, n);
      }
    }
  }

  lemma {:induction false} TopMeets(strict: bool, p: Program, cx: Ctx, e: Expr, u: nat, store: Store, sn: nat, d: nat, n: nat)
    requires ProgramValued(strict, p) && AllValued(strict, {(e, u)})
    ensures Meets(strict, EvalExpr(p, cx, e, store, sn, d, n))
    decreases d, 0, n, e, 2
  {
    assert (e, u) in {(e, u)};
    ExprMeets(strict, p, cx, e, store, sn, d, n);
  }

  lemma {:induction false} StmtMeets(strict: bool, p: Program, cx: Ctx, s: Stmt, u: nat, store: Store, sn: nat, d: nat, n: nat)
    requires ProgramValued(strict, p) && StmtValued(strict, s, u)
    ensures Meets(strict, ExecStmt(p, cx, s, store, sn, d, n))
    decreases d, 0, n, s, 1
  {
    hide ProgramValued, ExecBlock, EvalExpr, BlockWhole, BlockExprs, AllValued;
    match s
    case Let(_, _, e) => TopMeets(strict, p, cx, e, u, store, sn, d, n);
    case Mut(_, _, e) => TopMeets(strict, p, cx, e, u, store, sn, d, n);
    case Assign(_, e) => TopMeets(strict, p, cx, e, u, store, sn, d, n);
    case Ret(Some(e)) => TopMeets(strict, p, cx, e, u, store, sn, d, n);
    case ExprStmt(e) => TopMeets(strict, p, cx, e, u, store, sn, d, n);
    case UnsafeBlock(b) => BlockMeets(strict, p, cx, b, u + 1, store, sn, d, n);
    case If(_, _, _) => IfMeets(strict, p, cx, s, u, store, sn, d, n);
    case Loop(_) => LoopMeets(strict, p, cx, s, u, store, sn, d, n);
    case While(_, _) => WhileMeets(strict, p, cx, s, u, store, sn, d, n);
    case _ =>
  }

  lemma {:induction false} Either(strict: bool, a: set<(Expr, nat)>, b: set<(Expr, nat)>)
    ensures AllValued(strict, a + b) <==> AllValued(strict, a) && AllValued(strict, b)
  {
    hide ExprValued;
  }

  lemma {:induction false} IfMeets(strict: bool, p: Program, cx: Ctx, s: Stmt, u: nat, store: Store, sn: nat, d: nat, n: nat)
    requires s.If? && ProgramValued(strict, p) && StmtValued(strict, s, u)
    ensures Meets(strict, ExecStmt(p, cx, s, store, sn, d, n))
    decreases d, 0, n, s, 0
  {
    hide ProgramValued, ExecBlock, EvalExpr, BlockWhole, BlockExprs, AllValued, Strings, BlockStrings, BlockNames, ExprWhole;
    Either(strict, {(s.cond, u)} + BlockExprs(s.thenBlock, u), ArmExprs(s.elseArm, u));
    Either(strict, {(s.cond, u)}, BlockExprs(s.thenBlock, u));
    TopMeets(strict, p, cx.First(), s.cond, u, store, sn, d, n);
    var sn' := sn + |Strings(s.cond)|;
    BlockMeets(strict, p, cx.Second(), s.thenBlock, u, store, sn', d, n);
    if s.elseArm.Else? {
      assert ArmWhole(s.elseArm);
      assert ArmExprs(s.elseArm, u) == BlockExprs(s.elseArm.block, u);
      BlockMeets(strict, p, cx.Second().Past(BlockNames(s.thenBlock)), s.elseArm.block, u, store, sn' + |BlockStrings(s.thenBlock)|, d, n);
    }
  }

  lemma {:induction false} LoopMeets(strict: bool, p: Program, cx: Ctx, s: Stmt, u: nat, store: Store, sn: nat, d: nat, n: nat)
    requires s.Loop? && ProgramValued(strict, p) && StmtValued(strict, s, u)
    ensures Meets(strict, ExecStmt(p, cx, s, store, sn, d, n))
    decreases d, 0, n, s, 0
  {
    hide ProgramValued, ExecBlock, BlockWhole, BlockExprs, AllValued;
    BlockMeets(strict, p, cx.First(), s.body, u, store, sn, d, n);
    var r := ExecBlock(p, cx.First(), s.body, store, sn, d, n);
    if n > 0 && r.Ok? && (r.v.Onward? || r.v.Continued?) {
      StmtMeets(strict, p, cx.Second(), s, u, r.v.store, sn, d, n - 1);
    }
  }

  lemma {:induction false} WhileMeets(strict: bool, p: Program, cx: Ctx, s: Stmt, u: nat, store: Store, sn: nat, d: nat, n: nat)
    requires s.While? && ProgramValued(strict, p) && StmtValued(strict, s, u)
    ensures Meets(strict, ExecStmt(p, cx, s, store, sn, d, n))
    decreases d, 0, n, s, 0
  {
    hide ProgramValued, ExecBlock, EvalExpr, BlockWhole, BlockExprs, AllValued, Strings, ExprWhole;
    Either(strict, {(s.cond, u)}, BlockExprs(s.body, u));
    TopMeets(strict, p, cx.First(), s.cond, u, store, sn, d, n);
    var sn' := sn + |Strings(s.cond)|;
    BlockMeets(strict, p, cx.Second().First(), s.body, u, store, sn', d, n);
    var r := ExecBlock(p, cx.Second().First(), s.body, store, sn', d, n);
    if n > 0 && r.Ok? && (r.v.Onward? || r.v.Continued?) {
      StmtMeets(strict, p, cx.Second().Second(), s, u, r.v.store, sn, d, n - 1);
    }
  }

  // ----- from acceptance -----

  /** No literal past 64 bits and no call of an undefined built-in anywhere in it. */
  ghost predicate ExprPlain(e: Expr) {
    forall x :: x in Parts(e) ==> PartPlain(x)
  }

  predicate PartPlain(x: Expr) {
    !CallsUndefined(x) && (x.IntLit? ==> x.value < TWO64)
  }

  lemma {:induction false} ExprHasValue(strict: bool, g: Globals, sc: Scope, e: Expr)
    requires ExprWhole(e) && TypeOf(g, sc, e).diags == [] && (strict ==> ExprPlain(e))
    ensures ExprValued(strict, e)
    decreases e
  {
    assert e in Parts(e);
    match e
    case Unary(op, x) =>
      hide TypeOf;
      UnaryPasses(g, sc, op, x);
      ExprHasValue(strict, g, sc, x);
    case Binary(op, l, r) =>
      hide TypeOf;
      BinaryPasses(g, sc, op, l, r);
      ExprHasValue(strict, g, sc, l);
      ExprHasValue(strict, g, sc, r);
    case Call(_, args) =>
      hide TypeOf;
      if !IsAlloc(e) {
        ArgsPass(g, sc, e);
        ArgsHaveValues(strict, g, sc, args);
      }
    case _ =>
  }

  lemma {:induction false} ArgsHaveValues(strict: bool, g: Globals, sc: Scope, args: seq<Expr>)
    requires ArgsWhole(args) && AllTyped(g, sc, args) && (strict ==> forall x :: x in ArgParts(args) ==> PartPlain(x))
    ensures ArgsValued(strict, args)
    decreases args
  {
    hide TypeOf, ExprWhole, ExprValued, Parts, PartPlain;
    if args != [] {
      assert args[0] in args && forall a :: a in args[1..] ==> a in args;
      ExprHasValue(strict, g, sc, args[0]);
      ArgsHaveValues(strict, g, sc, args[1..]);
    }
  }

  lemma {:induction false} WholeTops(b: Block, u: nat)
    requires BlockWhole(b)
    ensures forall top :: top in BlockExprs(b, u) ==> ExprWhole(top.0)
    decreases b
  {
    hide StmtWhole, StmtExprs;
    if b != [] {
      WholeStmtTops(b[0], u);
      WholeTops(b[1..], u);
    }
  }

  lemma {:induction false} WholeStmtTops(s: Stmt, u: nat)
    requires StmtWhole(s)
    ensures forall top :: top in StmtExprs(s, u) ==> ExprWhole(top.0)
    decreases s
  {
    hide BlockWhole, BlockExprs, ExprWhole;
    match s
    case If(_, t, arm) =>
      WholeTops(t, u);
      if arm.Else? {
        WholeTops(arm.block, u);
      }
    case Loop(b) => WholeTops(b, u);
    case While(_, b) => WholeTops(b, u);
    case UnsafeBlock(b) => WholeTops(b, u + 1);
    case _ =>
  }

  /** A function of which that holds. */
  ghost predicate FnPlain(f: FnDecl) {
    forall top :: top in BlockExprs(f.body, UnsafeDepth(f)) ==> ExprPlain(top.0)
  }

  lemma {:induction false} FnHasValues(strict: bool, fns: seq<FnDecl>, pkg: Package, f: FnDecl)
    requires Accepts(fns, pkg) && f in fns && BlockWhole(f.body) && (strict ==> FnPlain(f))
    ensures BlockValued(strict, f.body, UnsafeDepth(f))
  {
    FnExprsPass(fns, pkg, f);
    WholeTops(f.body, UnsafeDepth(f));
    hide Accepts, BlockExprs, BlockWhole, ExprWhole, ExprValued, TypeOf, GlobalsOf, FnSlots, ExprPlain;
    var g := GlobalsOf(fns, pkg);
    forall top | top in BlockExprs(f.body, UnsafeDepth(f))
      ensures ExprValued(strict, top.0)
    {
      var sc: Scope :| sc.unsafes == top.1 && sc.vars.Keys <= FnSlots(f).Keys && TypeOf(g, sc, top.0).diags == [];
      ExprHasValue(strict, g, sc, top.0);
    }
  }

  /** No run of an accepted program without error nodes comes upon an expression that has no value; nor, in a plain
      program, upon a literal past 64 bits or an undefined built-in. */
  lemma {:induction false} WholeRunsMeet(strict: bool, fns: seq<FnDecl>, pkg: Package, p: Program, z: Residue, name: string, ws: seq<Word>, d: nat, n: nat)
    requires Accepts(fns, pkg) && p.fns == fns && "mem.alloc" !in FnNames(fns) && name !in UNDEFINED
    requires forall f :: f in fns ==> BlockWhole(f.body) && (strict ==> FnPlain(f))
    ensures Meets(strict, CallFn(p, z, name, ws, d, n))
  {
    hide Accepts, BlockWhole, BlockValued, CallFn, FnPlain;
    LookupFinds(fns, "mem.alloc", 0);
    forall f | f in fns
      ensures BlockValued(strict, f.body, UnsafeDepth(f))
    {
      FnHasValues(strict, fns, pkg, f);
    }
    CallMeets(strict, p, z, name, ws, d, n);
  }
}
