/** What the names in a function's body refer to: for the checker by what the text has declared so far, for the
    generator by all the locals of the function. */
module Resolution {
  import opened Ast
  import opened Semantics
  import opened Emission

  datatype Referent = ToLocal | ToFunction | ToNothing

  function CheckerRefers(vars: set<string>, fns: set<string>, x: string): Referent {
    if x in vars then ToLocal else if x in fns then ToFunction else ToNothing
  }

  function GeneratorRefers(locals: set<string>, fns: set<string>, x: string): Referent {
    if x in locals then ToLocal else if x in fns then ToFunction else ToNothing
  }

  // ----- occurrences -----

  /** A name in an expression, with what was declared before it. */
  datatype Occurrence = Occurrence(name: string, vars: set<string>)

  predicate IsAlloc(e: Expr) {
    e.Call? && e.callee.Display() == "mem.alloc"
  }

  /** The names an expression uses as values; the checker does not look into the arguments of mem.alloc. */
  function ExprUses(e: Expr): set<string> {
    match e
    case Ident(x) => {x}
    case Unary(_, x) => ExprUses(x)
    case Binary(_, l, r) => ExprUses(l) + ExprUses(r)
    case Call(_, args) => if IsAlloc(e) then {} else ArgUses(args)
    case _ => {}
  }

  function ArgUses(args: seq<Expr>): set<string> {
    if args == [] then {} else ExprUses(args[0]) + ArgUses(args[1..])
  }

  function Occurring(names: set<string>, vars: set<string>): set<Occurrence> {
    set x | x in names :: Occurrence(x, vars)
  }

  function BlockOccurrences(vars: set<string>, b: Block): set<Occurrence>
    decreases b
  {
    if b == [] then {} else StmtOccurrences(vars, b[0]) + BlockOccurrences(vars + Among(StmtNames(b[0])), b[1..])
  }

  function StmtOccurrences(vars: set<string>, s: Stmt): set<Occurrence>
    decreases s
  {
    match s
    case Let(_, _, e) => Occurring(ExprUses(e), vars)
    case Mut(_, _, e) => Occurring(ExprUses(e), vars)
    case Assign(_, e) => Occurring(ExprUses(e), vars)
    case Ret(Some(e)) => Occurring(ExprUses(e), vars)
    case If(c, t, arm) =>
      Occurring(ExprUses(c), vars) + BlockOccurrences(vars, t)
      + (match arm case NoElse => {} case Else(b) => BlockOccurrences(vars + Among(BlockNames(t)), b))
    case Loop(b) => BlockOccurrences(vars, b)
    case While(c, b) => Occurring(ExprUses(c), vars) + BlockOccurrences(vars, b)
    case UnsafeBlock(b) => BlockOccurrences(vars, b)
    case ExprStmt(e) => Occurring(ExprUses(e), vars)
    case _ => {}
  }

  function FnOccurrences(f: FnDecl): set<Occurrence> {
    BlockOccurrences(Among(ParamNames(f.params)), f.body)
  }

  // ----- clashes -----

  /** The name of a function and of a local, used before the local is declared. */
  predicate Clashes(fns: set<string>, locals: set<string>, o: Occurrence) {
    o.name in fns && o.name in locals && o.name !in o.vars
  }

  predicate NoClash(fns: set<string>, locals: set<string>, os: set<Occurrence>) {
    forall o :: o in os ==> !Clashes(fns, locals, o)
  }

  predicate FnClear(fns: set<string>, f: FnDecl) {
    BlockClear(fns, FnSlots(f).Keys, Among(ParamNames(f.params)), f.body)
  }

  /** In an expression all of whose names occur at one place. */
  predicate ExprClear(fns: set<string>, locals: set<string>, vars: set<string>, e: Expr) {
    forall x :: x in ExprUses(e) && x in fns && x in locals ==> x in vars
  }

  predicate ArgsClear(fns: set<string>, locals: set<string>, vars: set<string>, args: seq<Expr>) {
    forall x :: x in ArgUses(args) && x in fns && x in locals ==> x in vars
  }

  predicate BlockClear(fns: set<string>, locals: set<string>, vars: set<string>, b: Block) {
    NoClash(fns, locals, BlockOccurrences(vars, b))
  }

  predicate StmtClear(fns: set<string>, locals: set<string>, vars: set<string>, s: Stmt) {
    NoClash(fns, locals, StmtOccurrences(vars, s))
  }

  lemma {:induction false} ClearBlock(fns: set<string>, locals: set<string>, vars: set<string>, b: Block)
    requires b != [] && BlockClear(fns, locals, vars, b)
    ensures StmtClear(fns, locals, vars, b[0]) && BlockClear(fns, locals, vars + Among(StmtNames(b[0])), b[1..])
  {}

  lemma {:induction false} ClearIf(fns: set<string>, locals: set<string>, vars: set<string>, s: Stmt)
    requires s.If? && StmtClear(fns, locals, vars, s)
    ensures ExprClear(fns, locals, vars, s.cond) && BlockClear(fns, locals, vars, s.thenBlock)
    ensures s.elseArm.Else? ==> BlockClear(fns, locals, vars + Among(BlockNames(s.thenBlock)), s.elseArm.block)
  {
    hide BlockOccurrences;
    ExprIsClear(fns, locals, vars, s.cond);
  }

  lemma {:induction false} ClearWhile(fns: set<string>, locals: set<string>, vars: set<string>, s: Stmt)
    requires s.While? && StmtClear(fns, locals, vars, s)
    ensures ExprClear(fns, locals, vars, s.cond) && BlockClear(fns, locals, vars, s.body)
  {
    hide BlockOccurrences;
    ExprIsClear(fns, locals, vars, s.cond);
  }

  lemma {:induction false} ClearLoop(fns: set<string>, locals: set<string>, vars: set<string>, s: Stmt)
    requires s.Loop? && StmtClear(fns, locals, vars, s)
    ensures BlockClear(fns, locals, vars, s.body)
  {}

  /** The expression of a statement that has just one. */
  function OwnExpr(s: Stmt): Option<Expr> {
    match s
    case Let(_, _, e) => Some(e)
    case Mut(_, _, e) => Some(e)
    case Assign(_, e) => Some(e)
    case Ret(r) => r
    case ExprStmt(e) => Some(e)
    case _ => None
  }

  lemma {:induction false} ClearSimple(fns: set<string>, locals: set<string>, vars: set<string>, s: Stmt)
    requires StmtClear(fns, locals, vars, s) && OwnExpr(s).Some?
    ensures ExprClear(fns, locals, vars, OwnExpr(s).value)
  {
    ExprIsClear(fns, locals, vars, OwnExpr(s).value);
  }

  lemma {:induction false} ExprIsClear(fns: set<string>, locals: set<string>, vars: set<string>, e: Expr)
    requires NoClash(fns, locals, Occurring(ExprUses(e), vars))
    ensures ExprClear(fns, locals, vars, e)
  {
    forall x | x in ExprUses(e) && x in fns && x in locals
      ensures x in vars
    {
      assert Occurrence(x, vars) in Occurring(ExprUses(e), vars);
    }
  }
}
