/** The grammar of source files on their tokens: what row of tokens each construct is, with the line ends and comments
    that may stand between. */
module SourceGrammar {
  import opened Ast
  import opened Tokens
  import opened Grammar

  ghost predicate Is(ts: seq<Token>, i: nat, kind: TokenKind) {
    i < |ts| && ts[i].kind == kind
  }

  predicate Space(kind: TokenKind) {
    kind == Newline || kind == Comment
  }

  /** Any number of line ends and comments, also none, and then something else. */
  ghost predicate Spaces(ts: seq<Token>, i: nat, j: nat) {
    i <= j < |ts| && (forall k :: i <= k < j ==> Space(ts[k].kind)) && !Space(ts[j].kind)
  }

  /** The tokens of a tree that the next token does not run on into. */
  ghost predicate TreeAt(ts: seq<Token>, i: nat, j: nat, c: Cst, min: nat) {
    && Fits(c, min) && Spelled(ts, i, TreeText(c)) && j == i + |TreeText(c)| < |ts|
    && Stops(c, ts[j].kind) && OperatorStops(min, ts[j].kind)
  }

  ghost predicate ExprAt(ts: seq<Token>, i: nat, j: nat, e: Expr) {
    exists c :: TreeAt(ts, i, j, c, 0) && Meaning(c) == e
  }

  ghost predicate PathAt(ts: seq<Token>, i: nat, j: nat, p: Path) {
    CanonicalPath(p) && Spelled(ts, i, PathText(p)) && j == i + |PathText(p)| < |ts| && !ContinuesPath(ts[j].kind)
  }

  /** A name, or a star and a name. */
  ghost predicate TypeAt(ts: seq<Token>, i: nat, j: nat, ty: string) {
    || (Is(ts, i, TokenKind.Ident) && j == i + 1 && ty == ts[i].lexeme)
    || (Is(ts, i, Star) && Is(ts, i + 1, TokenKind.Ident) && j == i + 2 && ty == "*" + ts[i + 1].lexeme)
  }

  // ----- statements, each with the spaces after it -----

  /** An expression that ends a statement. */
  ghost predicate LastAt(ts: seq<Token>, i: nat, j: nat, e: Expr) {
    exists m: nat :: ExprAt(ts, i, m, e) && Spaces(ts, m, j)
  }

  ghost predicate VarAt(ts: seq<Token>, i: nat, j: nat, keyword: TokenKind, name: string, ty: string, e: Expr) {
    && Is(ts, i, keyword) && Is(ts, i + 1, TokenKind.Ident) && ts[i + 1].lexeme == name
    && exists k: nat :: TypeAt(ts, i + 2, k, ty) && Is(ts, k, TokenKind.Eq) && LastAt(ts, k + 1, j, e)
  }

  predicate EndsLine(kind: TokenKind) {
    kind == Newline || kind == KwEnd || kind == KwElse || kind == Eof
  }

  ghost predicate StmtAt(ts: seq<Token>, i: nat, j: nat, s: Stmt)
    decreases s, 1
  {
    match s
    case Let(name, ty, e) => VarAt(ts, i, j, KwLet, name, ty, e)
    case Mut(name, ty, e) => VarAt(ts, i, j, KwMut, name, ty, e)
    case Assign(name, e) => Is(ts, i, TokenKind.Ident) && ts[i].lexeme == name && Is(ts, i + 1, TokenKind.Eq) && LastAt(ts, i + 2, j, e)
    case Ret(None) => Is(ts, i, KwRet) && i + 1 < |ts| && EndsLine(ts[i + 1].kind) && Spaces(ts, i + 1, j)
    case Ret(Some(e)) => Is(ts, i, KwRet) && LastAt(ts, i + 1, j, e)
    case If(c, t, arm) =>
      && Is(ts, i, KwIf)
      && exists m: nat, k: nat, p: nat :: ExprAt(ts, i + 1, m, c) && BodyAt(ts, m, k, t) && ArmAt(ts, k, p, arm) && EndAt(ts, p, j)
    case Loop(b) => Is(ts, i, KwLoop) && exists k: nat :: BodyAt(ts, i + 1, k, b) && EndAt(ts, k, j)
    case While(c, b) =>
      Is(ts, i, KwWhile) && exists m: nat, k: nat :: ExprAt(ts, i + 1, m, c) && BodyAt(ts, m, k, b) && EndAt(ts, k, j)
    case UnsafeBlock(b) => Is(ts, i, KwUnsafe) && exists k: nat :: BodyAt(ts, i + 1, k, b) && EndAt(ts, k, j)
    case Break => Is(ts, i, KwBreak) && Spaces(ts, i + 1, j)
    case Continue => Is(ts, i, KwContinue) && Spaces(ts, i + 1, j)
    case ExprStmt(e) => LastAt(ts, i, j, e) && !(Is(ts, i, TokenKind.Ident) && Is(ts, i + 1, TokenKind.Eq))
    case ErrorStmt => false
  }

  /** From the arrow to the end of the block's statements. */
  ghost predicate BodyAt(ts: seq<Token>, i: nat, j: nat, b: Block)
    decreases b, 2
  {
    Is(ts, i, Arrow) && exists q: nat :: Spaces(ts, i + 1, q) && BlockAt(ts, q, j, b)
  }

  ghost predicate ArmAt(ts: seq<Token>, i: nat, j: nat, arm: ElseArm)
    decreases arm, 0
  {
    match arm
    case NoElse => i == j && !Is(ts, i, KwElse)
    case Else(b) => Is(ts, i, KwElse) && BodyAt(ts, i + 1, j, b)
  }

  ghost predicate EndAt(ts: seq<Token>, i: nat, j: nat) {
    Is(ts, i, KwEnd) && Spaces(ts, i + 1, j)
  }

  /** Statements up to what ends a block. */
  ghost predicate BlockAt(ts: seq<Token>, i: nat, j: nat, b: Block)
    decreases b, 1
  {
    if b == [] then i == j < |ts| && (Is(ts, i, KwEnd) || Is(ts, i, KwElse) || Is(ts, i, Eof))
    else exists k: nat :: StmtAt(ts, i, k, b[0]) && BlockAt(ts, k, j, b[1..])
  }

  // ----- items, each with the spaces after it -----

  ghost predicate ParamsAt(ts: seq<Token>, i: nat, j: nat, params: seq<Param>)
    decreases params
  {
    if params == [] then i == j && Is(ts, i, Arrow)
    else
      && Is(ts, i, TokenKind.Ident) && ts[i].lexeme == params[0].name
      && exists k: nat :: TypeAt(ts, i + 1, k, params[0].ty) && ParamsAt(ts, k, j, params[1..])
  }

  /** From the arrow on. */
  ghost predicate ReturnsAt(ts: seq<Token>, i: nat, j: nat, f: FnDecl) {
    && Is(ts, i, Arrow)
    && exists m: nat, q: nat, p: nat :: TypeAt(ts, i + 1, m, f.ret) && Spaces(ts, m, q) && BlockAt(ts, q, p, f.body) && EndAt(ts, p, j)
  }

  /** From the keyword `fn` on. */
  ghost predicate FnAt(ts: seq<Token>, i: nat, j: nat, f: FnDecl) {
    && Is(ts, i, KwFn) && Is(ts, i + 1, TokenKind.Ident) && ts[i + 1].lexeme == f.name
    && exists k: nat :: ParamsAt(ts, i + 2, k, f.params) && ReturnsAt(ts, k, j, f)
  }

  ghost predicate ItemAt(ts: seq<Token>, i: nat, j: nat, item: Item) {
    match item
    case Use(p) => Is(ts, i, KwUse) && exists m: nat :: PathAt(ts, i + 1, m, p) && Spaces(ts, m, j)
    case Fn(f) => if f.isUnsafe then Is(ts, i, KwUnsafe) && FnAt(ts, i + 1, j, f) else FnAt(ts, i, j, f)
  }

  ghost predicate ItemsAt(ts: seq<Token>, i: nat, items: seq<Item>)
    decreases items
  {
    if items == [] then Is(ts, i, Eof) else exists j: nat :: ItemAt(ts, i, j, items[0]) && ItemsAt(ts, j, items[1..])
  }

  /** The tokens are those of a source file with these items. */
  ghost predicate Derives(ts: seq<Token>, items: seq<Item>) {
    exists j: nat :: Spaces(ts, 0, j) && ItemsAt(ts, j, items)
  }
}
