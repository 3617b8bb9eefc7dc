/** The semantic checker itself: an object that records diagnostics while a function context tracks
    declared variables and nesting. Each method reports exactly what Checking gives for its construct. */
module Checker {
  import opened Ast
  import opened Emission
  import opened Checking

  class FnCtx {
    var vars: Vars
    var returnType: string
    var loopDepth: nat
    var unsafeDepth: nat

    constructor (returnType: string, unsafeDepth: nat)
      ensures View() == Scope(map[], returnType, 0, unsafeDepth)
    {
      vars, this.returnType, loopDepth, this.unsafeDepth := map[], returnType, 0, unsafeDepth;
    }

    function View(): Scope
      reads this
    {
      Scope(vars, returnType, loopDepth, unsafeDepth)
    }
  }

  lemma {:induction false} Joined3<T>(s: seq<T>, a: seq<T>, b: seq<T>, c: seq<T>)
    ensures s + a + b + c == s + (a + b + c)
  {}

  lemma {:induction false} Joined2<T>(s: seq<T>, a: seq<T>, b: seq<T>)
    ensures s + a + b == s + (a + b)
  {}

  lemma {:induction false} BinaryJoined(diags: seq<string>, g: Globals, sc: Scope, e: Expr)
    requires e.Binary?
    ensures var l, r := TypeOf(g, sc, e.left), TypeOf(g, sc, e.right);
      TypeOf(g, sc, e).ty == BinaryType(e.op, l.ty, r.ty).ty
      && diags + TypeOf(g, sc, e).diags == diags + l.diags + r.diags + BinaryType(e.op, l.ty, r.ty).diags
  {
    var l, r := TypeOf(g, sc, e.left), TypeOf(g, sc, e.right);
    Joined3(diags, l.diags, r.diags, BinaryType(e.op, l.ty, r.ty).diags);
    Joined2(l.diags, r.diags, BinaryType(e.op, l.ty, r.ty).diags);
  }

  lemma {:induction false} WriteJoined(diags: seq<string>, g: Globals, sc: Scope, e: Expr)
    requires e.Call? && (e.callee.Display() == "io.write" || e.callee.Display() == "core/io.write")
    ensures var lacks := ErrorIf("syscall" !in g.capabilities, "E2001");
      diags + TypeOf(g, sc, e).diags ==
        if |e.args| != 3 then diags + lacks + ["E0404"]
        else
          var fd, msg, len := TypeOf(g, sc, e.args[0]), TypeOf(g, sc, e.args[1]), TypeOf(g, sc, e.args[2]);
          diags + lacks + fd.diags + msg.diags + len.diags
            + ErrorIf(!IsNumeric(fd.ty) || !IsNumeric(len.ty) || !IsStr(msg.ty), "E0402")
  {
    var lacks := ErrorIf("syscall" !in g.capabilities, "E2001");
    if |e.args| == 3 {
      var fd, msg, len := TypeOf(g, sc, e.args[0]), TypeOf(g, sc, e.args[1]), TypeOf(g, sc, e.args[2]);
      var bad := ErrorIf(!IsNumeric(fd.ty) || !IsNumeric(len.ty) || !IsStr(msg.ty), "E0402");
      Joined2(diags, lacks + fd.diags + msg.diags + len.diags, bad);
      Joined2(diags, lacks + fd.diags + msg.diags, len.diags);
      Joined2(diags, lacks + fd.diags, msg.diags);
      Joined2(diags, lacks, fd.diags);
    } else {
      Joined2(diags, lacks, ["E0404"]);
    }
  }

  class Checker {
    var functions: map<string, FnSig>
    var diagnostics: seq<string>
    const package: Package

    constructor (package: Package)
      ensures this.package == package && functions == map[] && diagnostics == []
    {
      this.package := package;
      functions, diagnostics := map[], [];
    }

    function View(): Globals
      reads this
    {
      Globals(functions, package.capabilities)
    }

    method Error(code: string)
      modifies this`diagnostics
      ensures diagnostics == old(diagnostics) + [code]
    {
      diagnostics := diagnostics + [code];
    }

    method RequireType(expected: string, actual: Ty)
      modifies this`diagnostics
      ensures diagnostics == old(diagnostics) + Checking.RequireType(expected, actual)
    {
      if actual == Unknown {
        return;
      }
      if actual.IntLiteral? {
        if IsIntegerType(expected) {
          if !LiteralFits(actual.value, expected) {
            Error("E4001");
          }
          return;
        }
      }
      if actual == Named(expected) {
        return;
      }
      Error("E0402");
    }

    // ----- expressions -----

    method ExprType(e: Expr, ctx: FnCtx) returns (ty: Ty)
      modifies this`diagnostics
      ensures ty == TypeOf(View(), ctx.View(), e).ty
      ensures diagnostics == old(diagnostics) + TypeOf(View(), ctx.View(), e).diags
      decreases e, 1
    {
      match e
      case IntLit(v) => ty := IntLiteral(v);
      case StrLit(_) => ty := Named("str_static");
      case BoolLit(_) => ty := Named("bool");
      case Ident(name) => ty := IdentType(name, ctx);
      case PathExpr(_) =>
        Error("E0403");
        ty := Unknown;
      case Unary(_, _) => ty := UnaryType(e, ctx);
      case Binary(_, _, _) => ty := BinaryType(e, ctx);
      case Call(callee, args) => ty := CallType(e, ctx);
      case ErrorExpr => ty := Unknown;
    }

    method IdentType(name: string, ctx: FnCtx) returns (ty: Ty)
      modifies this`diagnostics
      ensures ty == TypeOf(View(), ctx.View(), Ident(name)).ty
      ensures diagnostics == old(diagnostics) + TypeOf(View(), ctx.View(), Ident(name)).diags
    {
      if name in ctx.vars {
        ty := Named(ctx.vars[name].ty);
      } else if name in functions {
        var sig := functions[name];
        if sig.params != [] {
          Error("E0404");
        }
        if sig.isUnsafe && ctx.unsafeDepth == 0 {
          Error("E0701");
        }
        ty := Named(sig.ret);
      } else {
        Error("E0401");
        ty := Unknown;
      }
    }

    method UnaryType(e: Expr, ctx: FnCtx) returns (ty: Ty)
      requires e.Unary?
      modifies this`diagnostics
      ensures ty == TypeOf(View(), ctx.View(), e).ty
      ensures diagnostics == old(diagnostics) + TypeOf(View(), ctx.View(), e).diags
      decreases e, 0
    {
      ty := ExprType(e.operand, ctx);
      match e.uop
      case Not =>
        if !IsBool(ty) {
          Error("E0402");
        }
        ty := Named("bool");
      case Neg =>
        if !IsNumeric(ty) {
          Error("E0402");
        }
    }

    method BinaryType(e: Expr, ctx: FnCtx) returns (ty: Ty)
      requires e.Binary?
      modifies this`diagnostics
      ensures ty == TypeOf(View(), ctx.View(), e).ty
      ensures diagnostics == old(diagnostics) + TypeOf(View(), ctx.View(), e).diags
      decreases e, 0
    {
      hide TypeOf;
      BinaryJoined(diagnostics, View(), ctx.View(), e);
      var left := ExprType(e.left, ctx);
      var right := ExprType(e.right, ctx);
      ty := OperatorType(e.op, left, right);
    }

    method OperatorType(op: BinaryOp, left: Ty, right: Ty) returns (ty: Ty)
      modifies this`diagnostics
      ensures ty == Checking.BinaryType(op, left, right).ty
      ensures diagnostics == old(diagnostics) + Checking.BinaryType(op, left, right).diags
    {
      if op.Add? || op.Sub? || op.Mul? || op.Div? || op.Mod? {
        if IsStr(left) || IsStr(right) {
          Error("E3001");
          return Unknown;
        }
        if !IsNumeric(left) || !IsNumeric(right) {
          Error("E0402");
          ty := Unknown;
        } else {
          ty := MergeNumeric(left, right);
        }
      } else if op.And? || op.Or? {
        if !IsBool(left) || !IsBool(right) {
          Error("E0402");
        }
        ty := Named("bool");
      } else {
        if !CompatibleLoose(left, right) {
          Error("E0402");
        }
        ty := Named("bool");
      }
    }

    method CallType(e: Expr, ctx: FnCtx) returns (ty: Ty)
      requires e.Call?
      modifies this`diagnostics
      ensures ty == TypeOf(View(), ctx.View(), e).ty
      ensures diagnostics == old(diagnostics) + TypeOf(View(), ctx.View(), e).diags
      decreases e, 0
    {
      var callee, args := e.callee, e.args;
      var name := callee.Display();
      if name == "io.write" || name == "core/io.write" {
        ty := Named("void");
        WriteType(e, ctx);
        return;
      }
      if name == "mem.alloc" {
        ty := Named("*u8");
        if "heap" !in package.capabilities {
          Error("E0801");
        }
        if ctx.unsafeDepth == 0 {
          Error("E0701");
        }
        if |args| != 1 {
          Error("E0404");
        }
        return;
      }
      if |callee.segments| == 1 && callee.segments[0] in functions {
        ty := FnCallType(e, ctx);
        return;
      }
      Error("E0403");
      ty := Unknown;
    }

    method FnCallType(e: Expr, ctx: FnCtx) returns (ty: Ty)
      requires e.Call? && e.callee.Display() !in {"io.write", "core/io.write", "mem.alloc"}
      requires |e.callee.segments| == 1 && e.callee.segments[0] in functions
      modifies this`diagnostics
      ensures ty == TypeOf(View(), ctx.View(), e).ty
      ensures diagnostics == old(diagnostics) + TypeOf(View(), ctx.View(), e).diags
      decreases e.args, 2
    {
      var sig := functions[e.callee.segments[0]];
      if sig.isUnsafe && ctx.unsafeDepth == 0 {
        Error("E0701");
      }
      if |sig.params| != |e.args| {
        Error("E0404");
      } else {
        ArgTypes(e.args, sig.params, ctx);
      }
      ty := Named(sig.ret);
    }

    method WriteType(e: Expr, ctx: FnCtx)
      requires e.Call? && (e.callee.Display() == "io.write" || e.callee.Display() == "core/io.write")
      modifies this`diagnostics
      ensures diagnostics == old(diagnostics) + TypeOf(View(), ctx.View(), e).diags
      decreases e.args, 2
    {
      hide TypeOf, IsNumeric, IsStr;
      var args := e.args;
      WriteJoined(diagnostics, View(), ctx.View(), e);
      if "syscall" !in package.capabilities {
        Error("E2001");
      }
      if |args| != 3 {
        Error("E0404");
        return;
      }
      var fd := ExprType(args[0], ctx);
      var msg := ExprType(args[1], ctx);
      var len := ExprType(args[2], ctx);
      if !IsNumeric(fd) || !IsNumeric(len) || !IsStr(msg) {
        Error("E0402");
      }
    }

    method ArgTypes(args: seq<Expr>, params: seq<string>, ctx: FnCtx)
      requires |args| == |params|
      modifies this`diagnostics
      ensures diagnostics == old(diagnostics) + ArgDiags(View(), ctx.View(), args, params)
      decreases args, 0
    {
      for i := 0 to |args|
        invariant diagnostics + ArgDiags(View(), ctx.View(), args[i..], params[i..])
               == old(diagnostics) + ArgDiags(View(), ctx.View(), args, params)
      {
        ArgDiagsStep(View(), ctx.View(), args, params, i, diagnostics);
        var actual := ExprType(args[i], ctx);
        RequireType(params[i], actual);
      }
    }

    // ----- statements -----

    method CheckBlock(b: Block, ctx: FnCtx)
      modifies this`diagnostics, ctx
      ensures ctx.View() == old(ctx.View()).(vars := Checking.CheckBlock(View(), old(ctx.View()), b).vars)
      ensures diagnostics == old(diagnostics) + Checking.CheckBlock(View(), old(ctx.View()), b).diags
      decreases b
    {
      for i := 0 to |b|
        invariant ctx.View() == old(ctx.View()).(vars := ctx.vars)
        invariant Checking.CheckBlock(View(), ctx.View(), b[i..]).vars == Checking.CheckBlock(View(), old(ctx.View()), b).vars
        invariant diagnostics + Checking.CheckBlock(View(), ctx.View(), b[i..]).diags
               == old(diagnostics) + Checking.CheckBlock(View(), old(ctx.View()), b).diags
      {
        CheckBlockStep(View(), ctx.View(), b, i, diagnostics);
        CheckStmt(b[i], ctx);
      }
    }

    method CheckStmt(s: Stmt, ctx: FnCtx)
      modifies this`diagnostics, ctx
      ensures ctx.View() == old(ctx.View()).(vars := Checking.CheckStmt(View(), old(ctx.View()), s).vars)
      ensures diagnostics == old(diagnostics) + Checking.CheckStmt(View(), old(ctx.View()), s).diags
      decreases s, 1
    {
      match s
      case Let(name, ty, e) => DeclareVar(ctx, name, ty, e, false);
      case Mut(name, ty, e) => DeclareVar(ctx, name, ty, e, true);
      case Assign(_, _) => CheckAssign(s, ctx);
      case Ret(_) => CheckRet(s, ctx);
      case If(_, _, _) => CheckIf(s, ctx);
      case Loop(body) =>
        ctx.loopDepth := ctx.loopDepth + 1;
        CheckBlock(body, ctx);
        ctx.loopDepth := ctx.loopDepth - 1;
      case While(cond, body) =>
        Joined2(diagnostics, CondDiags(View(), ctx.View(), cond),
                Checking.CheckBlock(View(), ctx.View().(loops := ctx.loopDepth + 1), body).diags);
        CheckCond(cond, ctx);
        ctx.loopDepth := ctx.loopDepth + 1;
        CheckBlock(body, ctx);
        ctx.loopDepth := ctx.loopDepth - 1;
      case Break =>
        if ctx.loopDepth == 0 {
          Error("E0501");
        }
      case Continue =>
        if ctx.loopDepth == 0 {
          Error("E0502");
        }
      case UnsafeBlock(_) => CheckUnsafe(s, ctx);
      case ExprStmt(e) => var _ := ExprType(e, ctx);
      case ErrorStmt => Error("E0301");
    }

    method CheckUnsafe(s: Stmt, ctx: FnCtx)
      requires s.UnsafeBlock?
      modifies this`diagnostics, ctx
      ensures ctx.View() == old(ctx.View()).(vars := Checking.CheckStmt(View(), old(ctx.View()), s).vars)
      ensures diagnostics == old(diagnostics) + Checking.CheckStmt(View(), old(ctx.View()), s).diags
      decreases s, 0
    {
      hide Checking.CheckBlock, Checking.CheckStmt;
      UnsafeJoined(diagnostics, View(), ctx.View(), s);
      if "unsafe" !in package.capabilities {
        Error("E0801");
      }
      ctx.unsafeDepth := ctx.unsafeDepth + 1;
      CheckBlock(s.body, ctx);
      ctx.unsafeDepth := ctx.unsafeDepth - 1;
    }

    method CheckCond(cond: Expr, ctx: FnCtx)
      modifies this`diagnostics
      ensures diagnostics == old(diagnostics) + CondDiags(View(), ctx.View(), cond)
    {
      var actual := ExprType(cond, ctx);
      if !IsBool(actual) {
        Error("E4301");
      }
    }

    method CheckAssign(s: Stmt, ctx: FnCtx)
      requires s.Assign?
      modifies this`diagnostics
      ensures Checking.CheckStmt(View(), ctx.View(), s).vars == ctx.vars
      ensures diagnostics == old(diagnostics) + Checking.CheckStmt(View(), ctx.View(), s).diags
    {
      hide Checking.CheckStmt, TypeOf, Checking.RequireType;
      AssignJoined(diagnostics, View(), ctx.View(), s);
      if s.name !in ctx.vars {
        Error("E0401");
        return;
      }
      var info := ctx.vars[s.name];
      if !info.mutable {
        Error("E4201");
      }
      var actual := ExprType(s.rhs, ctx);
      RequireType(info.ty, actual);
    }

    method CheckRet(s: Stmt, ctx: FnCtx)
      requires s.Ret?
      modifies this`diagnostics
      ensures Checking.CheckStmt(View(), ctx.View(), s).vars == ctx.vars
      ensures diagnostics == old(diagnostics) + Checking.CheckStmt(View(), ctx.View(), s).diags
    {
      if ctx.returnType == "void" {
        if s.result.Some? {
          Error("E0402");
        }
      } else {
        match s.result
        case Some(e) =>
          var actual := ExprType(e, ctx);
          RequireType(ctx.returnType, actual);
        case None => Error("E0402");
      }
    }

    method CheckIf(s: Stmt, ctx: FnCtx)
      requires s.If?
      modifies this`diagnostics, ctx
      ensures ctx.View() == old(ctx.View()).(vars := Checking.CheckStmt(View(), old(ctx.View()), s).vars)
      ensures diagnostics == old(diagnostics) + Checking.CheckStmt(View(), old(ctx.View()), s).diags
      decreases s, 0
    {
      CheckIfJoined(diagnostics, View(), ctx.View(), s);
      CheckCond(s.cond, ctx);
      CheckBlock(s.thenBlock, ctx);
      if s.elseArm.Else? {
        CheckBlock(s.elseArm.block, ctx);
      }
    }

    method DeclareVar(ctx: FnCtx, name: string, ty: string, e: Expr, mutable: bool)
      modifies this`diagnostics, ctx`vars
      ensures ctx.vars == Checking.DeclareVar(View(), old(ctx.View()), name, ty, e, mutable).vars
      ensures diagnostics == old(diagnostics) + Checking.DeclareVar(View(), old(ctx.View()), name, ty, e, mutable).diags
    {
      if name in ctx.vars {
        Error("E4202");
        return;
      }
      var actual := ExprType(e, ctx);
      RequireType(ty, actual);
      ctx.vars := ctx.vars[name := VarInfo(ty, mutable)];
    }

    // ----- functions and programs -----

    method CheckFn(f: FnDecl)
      modifies this`diagnostics
      ensures diagnostics == old(diagnostics) + FnDiags(View(), f)
    {
      CheckFnJoined(diagnostics, View(), f);
      var ctx := new FnCtx(f.ret, if f.isUnsafe then 1 else 0);
      CheckParams(f.params, ctx);
      CheckBlock(f.body, ctx);
      if f.ret != "void" && !BlockReturns(f.body) {
        Error("E4101");
      }
    }

    method CheckParams(params: seq<Param>, ctx: FnCtx)
      requires ctx.vars == map[]
      modifies this`diagnostics, ctx`vars
      ensures ctx.vars == DeclareParams(params).vars
      ensures diagnostics == old(diagnostics) + DeclareParams(params).diags
    {
      for i := 0 to |params|
        invariant ctx.vars == DeclareParams(params[..i]).vars
        invariant diagnostics == old(diagnostics) + DeclareParams(params[..i]).diags
      {
        assert params[..i + 1][..i] == params[..i];
        if params[i].name in ctx.vars {
          Error("E4202");
        } else {
          ctx.vars := ctx.vars[params[i].name := VarInfo(params[i].ty, false)];
        }
      }
      assert params[..|params|] == params;
    }

    method CheckProgram(items: seq<Item>)
      requires functions == map[] && diagnostics == []
      modifies this
      ensures functions == GlobalsOf(Functions(items), package).sigs
      ensures diagnostics == ProgramDiags(Functions(items), package)
    {
      var fns := CollectFunctions(items);
      RegisterAll(fns);
      CheckMain();
      CheckFns(fns);
    }

    method CheckMain()
      modifies this`diagnostics
      ensures diagnostics == old(diagnostics) + MainDiags(functions, package)
    {
      if package.executable {
        if "main" in functions {
          var sig := functions["main"];
          if !(sig.params == [] && sig.ret == "i32" && !sig.isUnsafe) {
            Error("E0902");
          }
        } else {
          Error("E0902");
        }
      }
    }

    method CheckFns(fns: seq<FnDecl>)
      modifies this`diagnostics
      ensures diagnostics == old(diagnostics) + AllFnDiags(View(), fns)
    {
      for i := 0 to |fns|
        invariant diagnostics + AllFnDiags(View(), fns[i..]) == old(diagnostics) + AllFnDiags(View(), fns)
      {
        assert fns[i..][1..] == fns[i + 1..];
        Joined2(diagnostics, FnDiags(View(), fns[i]), AllFnDiags(View(), fns[i + 1..]));
        CheckFn(fns[i]);
      }
    }

    method RegisterAll(fns: seq<FnDecl>)
      requires functions == map[] && diagnostics == []
      modifies this
      ensures functions == Register(fns, package.capabilities).sigs
      ensures diagnostics == Register(fns, package.capabilities).diags
    {
      for i := 0 to |fns|
        invariant functions == Register(fns[..i], package.capabilities).sigs
        invariant diagnostics == Register(fns[..i], package.capabilities).diags
      {
        assert fns[..i + 1][..i] == fns[..i];
        var f := fns[i];
        if f.name in functions {
          Error("E4202");
        } else {
          functions := functions[f.name := SigOf(f)];
          if f.isUnsafe && "unsafe" !in package.capabilities {
            Error("E0801");
          }
        }
      }
      assert fns[..|fns|] == fns;
    }
  }

  /** The functions among the items; the source skips the others in each of its loops. */
  method CollectFunctions(items: seq<Item>) returns (fns: seq<FnDecl>)
    ensures fns == Functions(items)
  {
    fns := [];
    for i := 0 to |items|
      invariant fns + Functions(items[i..]) == Functions(items)
    {
      FunctionsStep(items, i);
      if items[i].Fn? {
        Joined2(fns, [items[i].decl], Functions(items[i + 1..]));
        fns := fns + [items[i].decl];
      }
    }
  }

  lemma {:induction false} CheckBlockStep(g: Globals, sc: Scope, b: Block, i: nat, diags: seq<string>)
    requires i < |b|
    ensures var first := Checking.CheckStmt(g, sc, b[i]);
      var rest := Checking.CheckBlock(g, sc.(vars := first.vars), b[i + 1..]);
      && Checking.CheckBlock(g, sc, b[i..]).vars == rest.vars
      && diags + Checking.CheckBlock(g, sc, b[i..]).diags == diags + first.diags + rest.diags
  {
    assert b[i..][1..] == b[i + 1..];
    var first := Checking.CheckStmt(g, sc, b[i]);
    Joined2(diags, first.diags, Checking.CheckBlock(g, sc.(vars := first.vars), b[i + 1..]).diags);
  }

  lemma {:induction false} CheckIfJoined(diags: seq<string>, g: Globals, sc: Scope, s: Stmt)
    requires s.If?
    ensures var t := Checking.CheckBlock(g, sc, s.thenBlock);
      var e := CheckArm(g, sc.(vars := t.vars), s.elseArm);
      && Checking.CheckStmt(g, sc, s).vars == e.vars
      && diags + Checking.CheckStmt(g, sc, s).diags == diags + CondDiags(g, sc, s.cond) + t.diags + e.diags
  {
    var t := Checking.CheckBlock(g, sc, s.thenBlock);
    var e := CheckArm(g, sc.(vars := t.vars), s.elseArm);
    Joined3(diags, CondDiags(g, sc, s.cond), t.diags, e.diags);
    Joined2(CondDiags(g, sc, s.cond), t.diags, e.diags);
  }

  lemma {:induction false} UnsafeJoined(diags: seq<string>, g: Globals, sc: Scope, s: Stmt)
    requires s.UnsafeBlock?
    ensures var b := Checking.CheckBlock(g, sc.(unsafes := sc.unsafes + 1), s.body);
      && Checking.CheckStmt(g, sc, s).vars == b.vars
      && diags + Checking.CheckStmt(g, sc, s).diags == diags + ErrorIf("unsafe" !in g.capabilities, "E0801") + b.diags
  {
    Joined2(diags, ErrorIf("unsafe" !in g.capabilities, "E0801"), Checking.CheckBlock(g, sc.(unsafes := sc.unsafes + 1), s.body).diags);
  }

  lemma {:induction false} AssignJoined(diags: seq<string>, g: Globals, sc: Scope, s: Stmt)
    requires s.Assign?
    ensures Checking.CheckStmt(g, sc, s).vars == sc.vars
    ensures diags + Checking.CheckStmt(g, sc, s).diags ==
      if s.name !in sc.vars then diags + ["E0401"]
      else
        var t := TypeOf(g, sc, s.rhs);
        diags + ErrorIf(!sc.vars[s.name].mutable, "E4201") + t.diags + RequireType(sc.vars[s.name].ty, t.ty)
  {
    if s.name in sc.vars {
      var t := TypeOf(g, sc, s.rhs);
      var a, c := ErrorIf(!sc.vars[s.name].mutable, "E4201"), RequireType(sc.vars[s.name].ty, t.ty);
      Joined3(diags, a, t.diags, c);
      Joined2(a, t.diags, c);
    }
  }

  lemma {:induction false} CheckFnJoined(diags: seq<string>, g: Globals, f: FnDecl)
    ensures diags + FnDiags(g, f)
         == diags + DeclareParams(f.params).diags + Checking.CheckBlock(g, EntryScope(f), f.body).diags
          + ErrorIf(f.ret != "void" && !BlockReturns(f.body), "E4101")
  {
    var p, b := DeclareParams(f.params).diags, Checking.CheckBlock(g, EntryScope(f), f.body).diags;
    var r := ErrorIf(f.ret != "void" && !BlockReturns(f.body), "E4101");
    Joined3(diags, p, b, r);
    Joined2(p, b, r);
  }

  lemma {:induction false} ArgDiagsStep(g: Globals, sc: Scope, args: seq<Expr>, params: seq<string>, i: nat, diags: seq<string>)
    requires |args| == |params| && i < |args|
    ensures diags + ArgDiags(g, sc, args[i..], params[i..])
         == diags + TypeOf(g, sc, args[i]).diags + Checking.RequireType(params[i], TypeOf(g, sc, args[i]).ty)
          + ArgDiags(g, sc, args[i + 1..], params[i + 1..])
  {
    assert args[i..][1..] == args[i + 1..] && params[i..][1..] == params[i + 1..];
    Joined3(diags, TypeOf(g, sc, args[i]).diags, Checking.RequireType(params[i], TypeOf(g, sc, args[i]).ty),
            ArgDiags(g, sc, args[i + 1..], params[i + 1..]));
  }
}
