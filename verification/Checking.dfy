/** What the semantic checker reports for each construct: its type and its diagnostics, by code,
    as functions of the construct and of what has been declared so far. */
module Checking {
  import opened Ast
  import opened Emission

  datatype Ty = Named(name: string) | IntLiteral(value: nat) | Unknown

  datatype VarInfo = VarInfo(ty: string, mutable: bool)

  datatype FnSig = FnSig(params: seq<string>, ret: string, isUnsafe: bool)

  type Vars = map<string, VarInfo>

  datatype Globals = Globals(sigs: map<string, FnSig>, capabilities: set<string>)

  /** The state of checking inside a function. */
  datatype Scope = Scope(vars: Vars, ret: string, loops: nat, unsafes: nat)

  datatype Typed = Typed(ty: Ty, diags: seq<string>)

  datatype Checked = Checked(vars: Vars, diags: seq<string>)

  // ----- types -----

  predicate IsIntegerType(name: string) {
    name in {"i8", "i16", "i32", "i64", "u8", "u16", "u32", "u64", "byte"}
  }

  function LiteralLimit(ty: string): nat {
    if ty == "i8" then 0x7F
    else if ty == "i16" then 0x7FFF
    else if ty == "i32" then 0x7FFF_FFFF
    else if ty == "i64" then 0x7FFF_FFFF_FFFF_FFFF
    else if ty == "u8" || ty == "byte" then 0xFF
    else if ty == "u16" then 0xFFFF
    else if ty == "u32" then 0xFFFF_FFFF
    else 0xFFFF_FFFF_FFFF_FFFF
  }

  predicate LiteralFits(value: nat, ty: string) {
    IsIntegerType(ty) && value <= LiteralLimit(ty)
  }

  predicate IsBool(t: Ty) { t == Named("bool") }

  predicate IsStr(t: Ty) { t == Named("str_static") }

  predicate IsNumeric(t: Ty) {
    t.IntLiteral? || (t.Named? && IsIntegerType(t.name))
  }

  function MergeNumeric(l: Ty, r: Ty): Ty {
    if l.Named? && IsIntegerType(l.name) then l
    else if r.Named? && IsIntegerType(r.name) then r
    else if l.IntLiteral? && r.IntLiteral? then IntLiteral(0)
    else Unknown
  }

  predicate CompatibleLoose(l: Ty, r: Ty) {
    l == r || (IsNumeric(l) && IsNumeric(r))
  }

  function ErrorIf(condition: bool, code: string): seq<string> {
    if condition then [code] else []
  }

  function RequireType(expected: string, actual: Ty): seq<string> {
    if actual == Unknown then []
    else if actual.IntLiteral? && IsIntegerType(expected) then ErrorIf(!LiteralFits(actual.value, expected), "E4001")
    else ErrorIf(actual != Named(expected), "E0402")
  }

  // ----- expressions -----

  predicate IsArithmetic(op: BinaryOp) {
    op.Add? || op.Sub? || op.Mul? || op.Div? || op.Mod?
  }

  predicate IsLogical(op: BinaryOp) {
    op.And? || op.Or?
  }

  function BinaryType(op: BinaryOp, l: Ty, r: Ty): Typed {
    if IsArithmetic(op) then
      if IsStr(l) || IsStr(r) then Typed(Unknown, ["E3001"])
      else if !IsNumeric(l) || !IsNumeric(r) then Typed(Unknown, ["E0402"])
      else Typed(MergeNumeric(l, r), [])
    else if IsLogical(op) then Typed(Named("bool"), ErrorIf(!IsBool(l) || !IsBool(r), "E0402"))
    else Typed(Named("bool"), ErrorIf(!CompatibleLoose(l, r), "E0402"))
  }

  function TypeOf(g: Globals, sc: Scope, e: Expr): Typed
    decreases e
  {
    match e
    case IntLit(v) => Typed(IntLiteral(v), [])
    case StrLit(_) => Typed(Named("str_static"), [])
    case BoolLit(_) => Typed(Named("bool"), [])
    case Ident(name) =>
      if name in sc.vars then Typed(Named(sc.vars[name].ty), [])
      else if name in g.sigs then
        var sig := g.sigs[name];
        Typed(Named(sig.ret), ErrorIf(sig.params != [], "E0404") + ErrorIf(sig.isUnsafe && sc.unsafes == 0, "E0701"))
      else Typed(Unknown, ["E0401"])
    case PathExpr(_) => Typed(Unknown, ["E0403"])
    case Unary(op, x) =>
      var t := TypeOf(g, sc, x);
      (match op
       case Not => Typed(Named("bool"), t.diags + ErrorIf(!IsBool(t.ty), "E0402"))
       case Neg => Typed(t.ty, t.diags + ErrorIf(!IsNumeric(t.ty), "E0402")))
    case Binary(op, left, right) =>
      var l, r := TypeOf(g, sc, left), TypeOf(g, sc, right);
      var t := BinaryType(op, l.ty, r.ty);
      Typed(t.ty, l.diags + r.diags + t.diags)
    case Call(callee, args) =>
      var name := callee.Display();
      if name == "io.write" || name == "core/io.write" then
        var lacks := ErrorIf("syscall" !in g.capabilities, "E2001");
        if |args| != 3 then Typed(Named("void"), lacks + ["E0404"])
        else
          var fd, msg, len := TypeOf(g, sc, args[0]), TypeOf(g, sc, args[1]), TypeOf(g, sc, args[2]);
          Typed(Named("void"), lacks + fd.diags + msg.diags + len.diags
                + ErrorIf(!IsNumeric(fd.ty) || !IsNumeric(len.ty) || !IsStr(msg.ty), "E0402"))
      else if name == "mem.alloc" then
        Typed(Named("*u8"), ErrorIf("heap" !in g.capabilities, "E0801") + ErrorIf(sc.unsafes == 0, "E0701")
              + ErrorIf(|args| != 1, "E0404"))
      else if |callee.segments| == 1 && callee.segments[0] in g.sigs then
        var sig := g.sigs[callee.segments[0]];
        Typed(Named(sig.ret), ErrorIf(sig.isUnsafe && sc.unsafes == 0, "E0701")
              + (if |sig.params| != |args| then ["E0404"] else ArgDiags(g, sc, args, sig.params)))
      else Typed(Unknown, ["E0403"])
    case ErrorExpr => Typed(Unknown, [])
  }

  function ArgDiags(g: Globals, sc: Scope, args: seq<Expr>, params: seq<string>): seq<string>
    requires |args| == |params|
    decreases args
  {
    if args == [] then []
    else
      var t := TypeOf(g, sc, args[0]);
      t.diags + RequireType(params[0], t.ty) + ArgDiags(g, sc, args[1..], params[1..])
  }

  // ----- statements -----

  function DeclareVar(g: Globals, sc: Scope, name: string, ty: string, e: Expr, mutable: bool): Checked {
    if name in sc.vars then Checked(sc.vars, ["E4202"])
    else
      var t := TypeOf(g, sc, e);
      Checked(sc.vars[name := VarInfo(ty, mutable)], t.diags + RequireType(ty, t.ty))
  }

  function CondDiags(g: Globals, sc: Scope, cond: Expr): seq<string> {
    var t := TypeOf(g, sc, cond);
    t.diags + ErrorIf(!IsBool(t.ty), "E4301")
  }

  function CheckStmt(g: Globals, sc: Scope, s: Stmt): Checked
    decreases s
  {
    match s
    case Let(name, ty, e) => DeclareVar(g, sc, name, ty, e, false)
    case Mut(name, ty, e) => DeclareVar(g, sc, name, ty, e, true)
    case Assign(name, e) =>
      if name !in sc.vars then Checked(sc.vars, ["E0401"])
      else
        var t := TypeOf(g, sc, e);
        Checked(sc.vars, ErrorIf(!sc.vars[name].mutable, "E4201") + t.diags + RequireType(sc.vars[name].ty, t.ty))
    case Ret(result) =>
      if sc.ret == "void" then Checked(sc.vars, ErrorIf(result.Some?, "E0402"))
      else
        (match result
         case Some(e) => var t := TypeOf(g, sc, e); Checked(sc.vars, t.diags + RequireType(sc.ret, t.ty))
         case None => Checked(sc.vars, ["E0402"]))
    case If(cond, thenBlock, arm) =>
      var t := CheckBlock(g, sc, thenBlock);
      var e := CheckArm(g, sc.(vars := t.vars), arm);
      Checked(e.vars, CondDiags(g, sc, cond) + t.diags + e.diags)
    case Loop(body) => CheckBlock(g, sc.(loops := sc.loops + 1), body)
    case While(cond, body) =>
      var b := CheckBlock(g, sc.(loops := sc.loops + 1), body);
      Checked(b.vars, CondDiags(g, sc, cond) + b.diags)
    case Break => Checked(sc.vars, ErrorIf(sc.loops == 0, "E0501"))
    case Continue => Checked(sc.vars, ErrorIf(sc.loops == 0, "E0502"))
    case UnsafeBlock(body) =>
      var b := CheckBlock(g, sc.(unsafes := sc.unsafes + 1), body);
      Checked(b.vars, ErrorIf("unsafe" !in g.capabilities, "E0801") + b.diags)
    case ExprStmt(e) => Checked(sc.vars, TypeOf(g, sc, e).diags)
    case ErrorStmt => Checked(sc.vars, ["E0301"])
  }

  function CheckArm(g: Globals, sc: Scope, arm: ElseArm): Checked
    decreases arm
  {
    match arm case NoElse => Checked(sc.vars, []) case Else(b) => CheckBlock(g, sc, b)
  }

  function CheckBlock(g: Globals, sc: Scope, b: Block): Checked
    decreases b
  {
    if b == [] then Checked(sc.vars, [])
    else
      var first := CheckStmt(g, sc, b[0]);
      var rest := CheckBlock(g, sc.(vars := first.vars), b[1..]);
      Checked(rest.vars, first.diags + rest.diags)
  }

  // ----- return analysis -----

  predicate BlockReturns(b: Block) {
    b != [] && (StmtReturns(b[0]) || BlockReturns(b[1..]))
  }

  predicate StmtReturns(s: Stmt) {
    match s
    case Ret(_) => true
    case If(_, t, Else(e)) => BlockReturns(t) && BlockReturns(e)
    case _ => false
  }

  // ----- functions and programs -----

  function DeclareParams(params: seq<Param>): Checked {
    if params == [] then Checked(map[], [])
    else
      var last := |params| - 1;
      var before := DeclareParams(params[..last]);
      if params[last].name in before.vars then Checked(before.vars, before.diags + ["E4202"])
      else Checked(before.vars[params[last].name := VarInfo(params[last].ty, false)], before.diags)
  }

  function EntryScope(f: FnDecl): Scope {
    Scope(DeclareParams(f.params).vars, f.ret, 0, if f.isUnsafe then 1 else 0)
  }

  function FnDiags(g: Globals, f: FnDecl): seq<string> {
    DeclareParams(f.params).diags + CheckBlock(g, EntryScope(f), f.body).diags
    + ErrorIf(f.ret != "void" && !BlockReturns(f.body), "E4101")
  }

  function SigOf(f: FnDecl): FnSig {
    FnSig(seq(|f.params|, i requires 0 <= i < |f.params| => f.params[i].ty), f.ret, f.isUnsafe)
  }

  datatype Registered = Registered(sigs: map<string, FnSig>, diags: seq<string>)

  /** The first declaration of a name counts. */
  function Register(fns: seq<FnDecl>, capabilities: set<string>): Registered {
    if fns == [] then Registered(map[], [])
    else
      var last := fns[|fns| - 1];
      var before := Register(fns[..|fns| - 1], capabilities);
      if last.name in before.sigs then Registered(before.sigs, before.diags + ["E4202"])
      else Registered(before.sigs[last.name := SigOf(last)],
                      before.diags + ErrorIf(last.isUnsafe && "unsafe" !in capabilities, "E0801"))
  }

  function MainDiags(sigs: map<string, FnSig>, pkg: Package): seq<string> {
    ErrorIf(pkg.executable && !("main" in sigs && sigs["main"] == FnSig([], "i32", false)), "E0902")
  }

  function AllFnDiags(g: Globals, fns: seq<FnDecl>): seq<string> {
    if fns == [] then [] else FnDiags(g, fns[0]) + AllFnDiags(g, fns[1..])
  }

  function GlobalsOf(fns: seq<FnDecl>, pkg: Package): Globals {
    Globals(Register(fns, pkg.capabilities).sigs, pkg.capabilities)
  }

  /** Everything the checker reports, in order. */
  function ProgramDiags(fns: seq<FnDecl>, pkg: Package): seq<string> {
    Register(fns, pkg.capabilities).diags + MainDiags(GlobalsOf(fns, pkg).sigs, pkg) + AllFnDiags(GlobalsOf(fns, pkg), fns)
  }

  predicate Accepts(fns: seq<FnDecl>, pkg: Package) {
    ProgramDiags(fns, pkg) == []
  }
}
