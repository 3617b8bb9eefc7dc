/** The abstract syntax of a Stage 0 SnapSurf source file, without source spans.
    Text is a string whose characters each stand for one byte. */
module Ast {
  datatype Option<+T> = None | Some(value: T)

  datatype BinaryOp =
    | Add | Sub | Mul | Div | Mod
    | Eq | NotEq | Lt | LtEq | Gt | GtEq
    | And | Or

  datatype UnaryOp = Neg | Not

  datatype PathSep = Dot | Slash | Single

  datatype Path = Path(segments: seq<string>, sep: PathSep) {
    function Display(): string {
      Join(segments, match sep case Dot => "." case Slash => "/" case Single => "")
    }
  }

  function Join(parts: seq<string>, sep: string): string {
    if parts == [] then ""
    else if |parts| == 1 then parts[0]
    else parts[0] + sep + Join(parts[1..], sep)
  }

  datatype Expr =
    | IntLit(value: nat)
    | StrLit(bytes: string)
    | BoolLit(truth: bool)
    | Ident(name: string)
    | PathExpr(path: Path)
    | Unary(uop: UnaryOp, operand: Expr)
    | Binary(op: BinaryOp, left: Expr, right: Expr)
    | Call(callee: Path, args: seq<Expr>)
    | ErrorExpr

  datatype Stmt =
    | Let(name: string, ty: string, init: Expr)
    | Mut(name: string, ty: string, init: Expr)
    | Assign(name: string, rhs: Expr)
    | Ret(result: Option<Expr>)
    | If(cond: Expr, thenBlock: seq<Stmt>, elseArm: ElseArm)
    | Loop(body: seq<Stmt>)
    | While(cond: Expr, body: seq<Stmt>)
    | Break
    | Continue
    | UnsafeBlock(body: seq<Stmt>)
    | ExprStmt(expr: Expr)
    | ErrorStmt

  datatype ElseArm = NoElse | Else(block: seq<Stmt>)

  type Block = seq<Stmt>

  datatype Param = Param(name: string, ty: string)

  datatype FnDecl = FnDecl(name: string, params: seq<Param>, ret: string, body: Block, isUnsafe: bool)

  datatype Item = Use(path: Path) | Fn(decl: FnDecl)

  /** The functions among the items, in source order. */
  function Functions(items: seq<Item>): seq<FnDecl> {
    if items == [] then []
    else (match items[0] case Fn(f) => [f] case Use(_) => []) + Functions(items[1..])
  }

  lemma {:induction false} FunctionsStep(items: seq<Item>, i: nat)
    requires i < |items|
    ensures Functions(items[i..]) == match items[i] case Fn(f) => [f] + Functions(items[i + 1..]) case Use(_) => Functions(items[i + 1..])
  {
    assert items[i..][1..] == items[i + 1..];
  }
}
