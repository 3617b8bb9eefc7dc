/** The rules that the semantic checker enforces, one for each diagnostic code: what is wrong with a part of a program,
    said of the declarations and functions it sees in the text. */
module TypeRules {
  import opened Ast
  import opened Words
  import Checking
  import Emission

  type Ty = Checking.Ty

  // ----- what a place in the text sees -----

  datatype Decl = Decl(name: string, ty: string, mutable: bool)

  /** The functions of the program, the capabilities of the package, the declarations before the place in the text of its
      function, that function's return type, and whether a loop and an unsafe scope enclose the place. */
  datatype Place = Place(fns: seq<FnDecl>, capabilities: set<string>, decls: seq<Decl>, ret: string, inLoop: bool, inUnsafe: bool) {
    function After(more: seq<Decl>): Place {
      this.(decls := decls + more)
    }

    function Looping(): Place {
      this.(inLoop := true)
    }

    function Unsafely(): Place {
      this.(inUnsafe := true)
    }
  }

  /** The first declaration of a name counts. */
  function FindDecl(decls: seq<Decl>, name: string): Option<Decl> {
    if decls == [] then None else if decls[0].name == name then Some(decls[0]) else FindDecl(decls[1..], name)
  }

  function FindFn(fns: seq<FnDecl>, name: string): Option<FnDecl> {
    if fns == [] then None else if fns[0].name == name then Some(fns[0]) else FindFn(fns[1..], name)
  }

  /** The declarations of a statement, in the order of the text; blocks open no scope. */
  function StmtDecls(s: Stmt): seq<Decl> {
    match s
    case Let(name, ty, _) => [Decl(name, ty, false)]
    case Mut(name, ty, _) => [Decl(name, ty, true)]
    case If(_, t, NoElse) => BlockDecls(t)
    case If(_, t, Else(e)) => BlockDecls(t) + BlockDecls(e)
    case Loop(b) => BlockDecls(b)
    case While(_, b) => BlockDecls(b)
    case UnsafeBlock(b) => BlockDecls(b)
    case _ => []
  }

  function BlockDecls(b: Block): seq<Decl> {
    if b == [] then [] else StmtDecls(b[0]) + BlockDecls(b[1..])
  }

  // ----- types -----

  /** How many bits an integer type has, and whether one is the sign. */
  function Width(ty: string): Option<(nat, bool)> {
    if ty == "i8" then Some((8, true))
    else if ty == "i16" then Some((16, true))
    else if ty == "i32" then Some((32, true))
    else if ty == "i64" then Some((64, true))
    else if ty == "u8" then Some((8, false))
    else if ty == "u16" then Some((16, false))
    else if ty == "u32" then Some((32, false))
    else if ty == "u64" then Some((64, false))
    else if ty == "byte" then Some((8, false))
    else None
  }

  /** A literal is not negative, so it fits below the sign bit. */
  predicate Fits(value: nat, ty: string) {
    match Width(ty)
    case Some((bits, signed)) => value < Pow2(if signed then bits - 1 else bits)
    case None => false
  }

  predicate Numeric(t: Ty) {
    t.IntLiteral? || (t.Named? && Width(t.name).Some?)
  }

  /** A literal takes the type of the other operand; two literals make one that fits anywhere. */
  function Joined(l: Ty, r: Ty): Ty {
    if l.Named? then l else if r.Named? then r else Checking.IntLiteral(0)
  }

  datatype Operation = Arithmetic | Comparison | Logical

  function OperationOf(op: BinaryOp): Operation {
    match op
    case Add => Arithmetic
    case Sub => Arithmetic
    case Mul => Arithmetic
    case Div => Arithmetic
    case Mod => Arithmetic
    case And => Logical
    case Or => Logical
    case _ => Comparison
  }

  predicate IsWrite(callee: Path) {
    callee.Display() in {"io.write", "core/io.write"}
  }

  predicate IsAlloc(callee: Path) {
    callee.Display() == "mem.alloc"
  }

  /** The function that a callee names: by one segment, and not that of a built-in. */
  function Callee(pl: Place, callee: Path): Option<FnDecl> {
    if IsWrite(callee) || IsAlloc(callee) || |callee.segments| != 1 then None else FindFn(pl.fns, callee.segments[0])
  }

  /** The type of an expression; what is no value, or of no known name, has none. */
  function TypeIn(pl: Place, e: Expr): Ty
    decreases e
  {
    match e
    case IntLit(v) => Checking.IntLiteral(v)
    case StrLit(_) => Checking.Named("str_static")
    case BoolLit(_) => Checking.Named("bool")
    case Ident(name) =>
      (match FindDecl(pl.decls, name)
       case Some(d) => Checking.Named(d.ty)
       case None => match FindFn(pl.fns, name) case Some(f) => Checking.Named(f.ret) case None => Checking.Unknown)
    case Unary(Not, _) => Checking.Named("bool")
    case Unary(Neg, x) => TypeIn(pl, x)
    case Binary(op, l, r) =>
      if !OperationOf(op).Arithmetic? then Checking.Named("bool")
      else if Numeric(TypeIn(pl, l)) && Numeric(TypeIn(pl, r)) then Joined(TypeIn(pl, l), TypeIn(pl, r))
      else Checking.Unknown
    case Call(callee, _) =>
      if IsWrite(callee) then Checking.Named("void")
      else if IsAlloc(callee) then Checking.Named("*u8")
      else (match Callee(pl, callee) case Some(f) => Checking.Named(f.ret) case None => Checking.Unknown)
    case PathExpr(_) => Checking.Unknown
    case ErrorExpr => Checking.Unknown
  }

  // ----- what is wrong with an expression -----

  /** A value of one type where another is expected: a literal too large for an integer type, or a different type. */
  predicate Mismatch(expected: string, t: Ty, code: string) {
    && !t.Unknown?
    && if t.IntLiteral? && Width(expected).Some? then code == "E4001" && !Fits(t.value, expected)
       else code == "E0402" && t != Checking.Named(expected)
  }

  predicate IsBool(t: Ty) { t == Checking.Named("bool") }

  predicate IsStr(t: Ty) { t == Checking.Named("str_static") }

  /** An operand that its operator does not take. */
  predicate OperandFault(pl: Place, e: Expr, code: string) {
    match e
    case Unary(Not, x) => code == "E0402" && !IsBool(TypeIn(pl, x))
    case Unary(Neg, x) => code == "E0402" && !Numeric(TypeIn(pl, x))
    case Binary(op, l, r) =>
      var a, b := TypeIn(pl, l), TypeIn(pl, r);
      (match OperationOf(op)
       case Arithmetic => if IsStr(a) || IsStr(b) then code == "E3001" else code == "E0402" && !(Numeric(a) && Numeric(b))
       case Logical => code == "E0402" && !(IsBool(a) && IsBool(b))
       case Comparison => code == "E0402" && a != b && !(Numeric(a) && Numeric(b)))
    case _ => false
  }

  /** A name that means nothing, or a function used wrongly by its bare name. */
  predicate NameFault(pl: Place, name: string, code: string) {
    && FindDecl(pl.decls, name).None?
    && match FindFn(pl.fns, name)
       case None => code == "E0401"
       case Some(f) => (code == "E0404" && f.params != []) || (code == "E0701" && f.isUnsafe && !pl.inUnsafe)
  }

  /** The arguments are looked at: of a write with three, and of a function with as many as it has parameters. */
  predicate Looks(pl: Place, callee: Path, args: seq<Expr>) {
    if IsWrite(callee) then |args| == 3
    else match Callee(pl, callee) case Some(f) => |args| == |f.params| case None => false
  }

  predicate CallFault(pl: Place, callee: Path, args: seq<Expr>, code: string) {
    if IsWrite(callee) then
      || (code == "E2001" && "syscall" !in pl.capabilities)
      || (code == "E0404" && |args| != 3)
      || (code == "E0402" && |args| == 3 && !(Numeric(TypeIn(pl, args[0])) && IsStr(TypeIn(pl, args[1])) && Numeric(TypeIn(pl, args[2]))))
    else if IsAlloc(callee) then
      || (code == "E0801" && "heap" !in pl.capabilities)
      || (code == "E0701" && !pl.inUnsafe)
      || (code == "E0404" && |args| != 1)
    else
      match Callee(pl, callee)
      case None => code == "E0403"
      case Some(f) =>
        || (code == "E0701" && f.isUnsafe && !pl.inUnsafe)
        || (code == "E0404" && |args| != |f.params|)
        || exists i :: 0 <= i < |args| && |args| == |f.params| && Mismatch(f.params[i].ty, TypeIn(pl, args[i]), code)
  }

  /** An expression, or a part of it that is looked at, is wrong in that way. */
  predicate ExprHas(pl: Place, e: Expr, code: string)
    decreases e
  {
    match e
    case Ident(name) => NameFault(pl, name, code)
    case PathExpr(_) => code == "E0403"
    case Unary(_, x) => ExprHas(pl, x, code) || OperandFault(pl, e, code)
    case Binary(_, l, r) => ExprHas(pl, l, code) || ExprHas(pl, r, code) || OperandFault(pl, e, code)
    case Call(callee, args) => CallFault(pl, callee, args, code) || (Looks(pl, callee, args) && exists i :: 0 <= i < |args| && ExprHas(pl, args[i], code))
    case _ => false
  }

  // ----- what is wrong with a statement -----

  /** A value for a place of that type. */
  predicate ValueHas(pl: Place, e: Expr, expected: string, code: string) {
    ExprHas(pl, e, code) || Mismatch(expected, TypeIn(pl, e), code)
  }

  predicate CondHas(pl: Place, e: Expr, code: string) {
    ExprHas(pl, e, code) || (code == "E4301" && !IsBool(TypeIn(pl, e)))
  }

  /** A second declaration of a name is wrong by itself; otherwise its value may be. */
  predicate DeclHas(pl: Place, name: string, ty: string, e: Expr, code: string) {
    if FindDecl(pl.decls, name).Some? then code == "E4202" else ValueHas(pl, e, ty, code)
  }

  /** Only what is declared with `mut` can be assigned, and only a value of its type. */
  predicate AssignHas(pl: Place, name: string, e: Expr, code: string) {
    match FindDecl(pl.decls, name)
    case None => code == "E0401"
    case Some(d) => (code == "E4201" && !d.mutable) || ValueHas(pl, e, d.ty, code)
  }

  /** A void function returns nothing, every other function a value of its type. */
  predicate RetHas(pl: Place, result: Option<Expr>, code: string) {
    match result
    case Some(e) => if pl.ret == "void" then code == "E0402" else ValueHas(pl, e, pl.ret, code)
    case None => code == "E0402" && pl.ret != "void"
  }

  predicate StmtHas(pl: Place, s: Stmt, code: string)
    decreases s, 0
  {
    match s
    case Let(name, ty, e) => DeclHas(pl, name, ty, e, code)
    case Mut(name, ty, e) => DeclHas(pl, name, ty, e, code)
    case Assign(name, e) => AssignHas(pl, name, e, code)
    case Ret(result) => RetHas(pl, result, code)
    case If(c, t, NoElse) => CondHas(pl, c, code) || BlockHas(pl, t, code)
    case If(c, t, Else(b)) => CondHas(pl, c, code) || BlockHas(pl, t, code) || BlockHas(pl.After(BlockDecls(t)), b, code)
    case Loop(b) => BlockHas(pl.Looping(), b, code)
    case While(c, b) => CondHas(pl, c, code) || BlockHas(pl.Looping(), b, code)
    case Break => code == "E0501" && !pl.inLoop
    case Continue => code == "E0502" && !pl.inLoop
    case UnsafeBlock(b) => (code == "E0801" && "unsafe" !in pl.capabilities) || BlockHas(pl.Unsafely(), b, code)
    case ExprStmt(e) => ExprHas(pl, e, code)
    case ErrorStmt => code == "E0301"
  }

  /** Some statement, seeing the declarations of those before it. */
  predicate BlockHas(pl: Place, b: Block, code: string)
    decreases b, 1
  {
    exists i :: 0 <= i < |b| && StmtHas(pl.After(BlockDecls(b[..i])), b[i], code)
  }

  // ----- what is wrong with a function or a program -----

  /** A way through a block: at each `if` one of its branches is taken, and everything else is passed. */
  ghost predicate Way(b: Block, w: seq<Stmt>)
    decreases b, 1
  {
    if b == [] then w == [] else exists i :: 0 <= i <= |w| && StmtWay(b[0], w[..i]) && Way(b[1..], w[i..])
  }

  ghost predicate StmtWay(s: Stmt, w: seq<Stmt>)
    decreases s, 0
  {
    match s
    case If(_, t, NoElse) => Way(t, w) || w == []
    case If(_, t, Else(b)) => Way(t, w) || Way(b, w)
    case _ => w == [s]
  }

  /** Every way through the block comes to a `ret`. */
  ghost predicate AlwaysReturns(b: Block) {
    forall w: seq<Stmt> :: Way(b, w) ==> exists s: Stmt :: s in w && s.Ret?
  }

  function ParamDecls(params: seq<Param>): seq<Decl> {
    seq(|params|, i requires 0 <= i < |params| => Decl(params[i].name, params[i].ty, false))
  }

  function BodyOf(fns: seq<FnDecl>, pkg: Emission.Package, f: FnDecl): Place {
    Place(fns, pkg.capabilities, ParamDecls(f.params), f.ret, false, f.isUnsafe)
  }

  ghost predicate FnHas(fns: seq<FnDecl>, pkg: Emission.Package, f: FnDecl, code: string) {
    || (code == "E4202" && exists i, j :: 0 <= i < j < |f.params| && f.params[i].name == f.params[j].name)
    || BlockHas(BodyOf(fns, pkg, f), f.body, code)
    || (code == "E4101" && f.ret != "void" && !AlwaysReturns(f.body))
  }

  /** An executable starts in a safe `main` without parameters that returns an i32. */
  predicate HasMain(fns: seq<FnDecl>) {
    match FindFn(fns, "main")
    case Some(f) => f.params == [] && f.ret == "i32" && !f.isUnsafe
    case None => false
  }

  ghost predicate ProgramHas(fns: seq<FnDecl>, pkg: Emission.Package, code: string) {
    || (code == "E4202" && exists i, j :: 0 <= i < j < |fns| && fns[i].name == fns[j].name)
    || (code == "E0801" && "unsafe" !in pkg.capabilities && exists f: FnDecl :: f in fns && FindFn(fns, f.name) == Some(f) && f.isUnsafe)
    || (code == "E0902" && pkg.executable && !HasMain(fns))
    || exists f: FnDecl :: f in fns && FnHas(fns, pkg, f, code)
  }
}
