/** What the parser makes of a token stream, as functions of the place and of the diagnostics so far.
    Spans are left out: a diagnostic is its code. */
module Parsing {
  import opened Ast
  import opened Tokens
  import StringLiterals

  const MAX_ERRORS: nat := 100

  /** A token stream ends with an end-of-file token. */
  ghost predicate Stream(ts: seq<Token>) {
    ts != [] && ts[|ts| - 1].kind == Eof
  }

  /** Where the parser is and what it has reported. */
  datatype St = St(i: nat, errs: seq<string>)

  /** The parser only moves forward inside the stream, and reports at most 101 diagnostics. */
  ghost predicate Follows(ts: seq<Token>, s: St, t: St) {
    s.i <= t.i < |ts| && (|s.errs| <= MAX_ERRORS + 1 ==> |t.errs| <= MAX_ERRORS + 1)
  }

  ghost predicate On(ts: seq<Token>, s: St) {
    Stream(ts) && s.i < |ts|
  }

  function Kind(ts: seq<Token>, s: St): TokenKind
    requires s.i < |ts|
  {
    ts[s.i].kind
  }

  function PeekKind(ts: seq<Token>, s: St, offset: nat): TokenKind {
    if s.i + offset < |ts| then ts[s.i + offset].kind else Eof
  }

  function Report(s: St, code: string): St {
    if |s.errs| < MAX_ERRORS then s.(errs := s.errs + [code])
    else if |s.errs| == MAX_ERRORS then s.(errs := s.errs + ["E9999"])
    else s
  }

  /** The last token is never passed. */
  function Bump(ts: seq<Token>, s: St): St {
    if s.i + 1 < |ts| then s.(i := s.i + 1) else s
  }

  datatype Expected = Expected(ok: bool, s: St)

  function Expect(ts: seq<Token>, s: St, kind: TokenKind): (r: Expected)
    requires On(ts, s)
    ensures Follows(ts, s, r.s) && (r.ok <==> Kind(ts, s) == kind)
    ensures r.ok && kind != Eof ==> r.s.i == s.i + 1
  {
    if Kind(ts, s) == kind then Expected(true, Bump(ts, s)) else Expected(false, Report(s, "E0206"))
  }

  /** An expected token that ends up ignored when missing. */
  function Skim(ts: seq<Token>, s: St, kind: TokenKind): (r: St)
    requires On(ts, s)
    ensures Follows(ts, s, r)
  {
    Expect(ts, s, kind).s
  }

  predicate IsSpace(kind: TokenKind) {
    kind == Comment || kind == Newline
  }

  /** Past newlines and comments. */
  function Skip(ts: seq<Token>, s: St): (r: St)
    requires On(ts, s)
    ensures Follows(ts, s, r) && r.errs == s.errs && !IsSpace(Kind(ts, r))
    decreases |ts| - s.i
  {
    if IsSpace(Kind(ts, s)) then Skip(ts, Bump(ts, s)) else s
  }

  predicate IsBoundary(kind: TokenKind) {
    kind == Newline || kind == KwEnd || kind == KwElse || kind == Eof
  }

  predicate StopsStatement(kind: TokenKind) {
    kind in {Newline, KwEnd, KwElse, KwFn, KwLet, KwMut, KwIf, KwLoop, KwWhile, KwRet, Eof}
  }

  function SyncStatement(ts: seq<Token>, s: St): (r: St)
    requires On(ts, s)
    ensures Follows(ts, s, r) && r.errs == s.errs
    decreases |ts| - s.i
  {
    if StopsStatement(Kind(ts, s)) then s else SyncStatement(ts, Bump(ts, s))
  }

  function SyncItem(ts: seq<Token>, s: St): (r: St)
    requires On(ts, s)
    ensures Follows(ts, s, r) && r.errs == s.errs
    decreases |ts| - s.i
  {
    if Kind(ts, s) in {KwFn, KwUse, Eof} then s else SyncItem(ts, Bump(ts, s))
  }

  // ----- integers -----

  const TWO128: nat := 0x1_0000_0000_0000_0000_0000_0000_0000_0000

  function WithoutUnderscores(s: string): string {
    if s == "" then "" else (if s[0] == '_' then "" else [s[0]]) + WithoutUnderscores(s[1..])
  }

  /** The value of digits in a base, if they all are digits. */
  function DigitsValue(s: string, base: nat, acc: nat): Option<nat> {
    if s == "" then Some(acc)
    else if IsDigitOf(s[0], base) then DigitsValue(s[1..], base, acc * base + DigitValue(s[0]).value)
    else None
  }

  /** An unsigned 128-bit number; a leading plus sign is allowed. */
  function FromRadix(s: string, base: nat): Option<nat> {
    var digits := if s != "" && s[0] == '+' then s[1..] else s;
    if digits == "" then None
    else
      match DigitsValue(digits, base, 0)
      case Some(v) => if v < TWO128 then Some(v) else None
      case None => None
  }

  function ParseIntValue(raw: string): Option<nat> {
    if |raw| >= 2 && raw[0] == '0' && (raw[1] == 'x' || raw[1] == 'X') then FromRadix(WithoutUnderscores(raw[2..]), 16)
    else if |raw| >= 2 && raw[0] == '0' && (raw[1] == 'b' || raw[1] == 'B') then FromRadix(WithoutUnderscores(raw[2..]), 2)
    else if |raw| >= 2 && raw[0] == '0' && (raw[1] == 'o' || raw[1] == 'O') then FromRadix(WithoutUnderscores(raw[2..]), 8)
    else FromRadix(WithoutUnderscores(raw), 10)
  }

  // ----- paths and types -----

  datatype PathResult = PathResult(path: Option<Path>, s: St)

  /** The separator at a place: of a path, if there is one. */
  function SeparatorAt(kind: TokenKind): Option<PathSep> {
    if kind == TokenKind.Dot then Some(PathSep.Dot) else if kind == TokenKind.Slash then Some(PathSep.Slash) else None
  }

  datatype Segments = Segments(path: Path, s: St)

  function PathRest(ts: seq<Token>, s: St, segments: seq<string>, sep: PathSep): (r: Segments)
    requires On(ts, s)
    ensures Follows(ts, s, r.s) && |r.path.segments| >= |segments|
    decreases |ts| - s.i
  {
    match SeparatorAt(Kind(ts, s))
    case None => Segments(Path(segments, sep), s)
    case Some(next) =>
      if sep != Single && sep != next then Segments(Path(segments, sep), Report(s, "E0206"))
      else
        var t := Bump(ts, s);
        var e := Expect(ts, t, TokenKind.Ident);
        if e.ok then PathRest(ts, e.s, segments + [ts[t.i].lexeme], next) else Segments(Path(segments, next), e.s)
  }

  function ParsePath(ts: seq<Token>, s: St): (r: PathResult)
    requires On(ts, s)
    ensures Follows(ts, s, r.s) && (r.path.Some? <==> Kind(ts, s) == TokenKind.Ident)
    ensures r.path.Some? ==> s.i < r.s.i && |r.path.value.segments| >= 1
  {
    var e := Expect(ts, s, TokenKind.Ident);
    if !e.ok then PathResult(None, e.s)
    else
      var r := PathRest(ts, e.s, [ts[s.i].lexeme], Single);
      PathResult(Some(r.path), r.s)
  }

  datatype TypeResult = TypeResult(ty: Option<string>, s: St)

  function ParseTypeRef(ts: seq<Token>, s: St): (r: TypeResult)
    requires On(ts, s)
    ensures Follows(ts, s, r.s) && (r.ty.Some? ==> s.i < r.s.i)
  {
    if Kind(ts, s) == Star then
      var t := Bump(ts, s);
      var e := Expect(ts, t, TokenKind.Ident);
      TypeResult(if e.ok then Some("*" + ts[t.i].lexeme) else None, e.s)
    else
      var e := Expect(ts, s, TokenKind.Ident);
      TypeResult(if e.ok then Some(ts[s.i].lexeme) else None, e.s)
  }

  // ----- expressions -----

  datatype Operator = Operator(op: BinaryOp, left: nat, right: nat)

  /** The binary operators and how tightly they bind on each side. */
  function BinaryOperator(kind: TokenKind): Option<Operator> {
    match kind
    case Star => Some(Operator(Mul, 7, 8))
    case Slash => Some(Operator(Div, 7, 8))
    case Percent => Some(Operator(Mod, 7, 8))
    case Plus => Some(Operator(Add, 6, 7))
    case Minus => Some(Operator(Sub, 6, 7))
    case Lt => Some(Operator(BinaryOp.Lt, 5, 6))
    case LtEq => Some(Operator(BinaryOp.LtEq, 5, 6))
    case Gt => Some(Operator(BinaryOp.Gt, 5, 6))
    case GtEq => Some(Operator(BinaryOp.GtEq, 5, 6))
    case EqEq => Some(Operator(BinaryOp.Eq, 4, 5))
    case BangEq => Some(Operator(NotEq, 4, 5))
    case KwAnd => Some(Operator(And, 3, 4))
    case KwOr => Some(Operator(Or, 2, 3))
    case _ => None
  }

  predicate StartsArg(kind: TokenKind) {
    kind in {TokenKind.IntLit, TokenKind.StrLit, KwTrue, KwFalse, TokenKind.Ident, LParen, KwNot, Minus}
  }

  datatype ExprResult = ExprResult(e: Expr, s: St)

  datatype ArgsResult = ArgsResult(args: seq<Expr>, s: St)

  function ParseExpr(ts: seq<Token>, s: St, min: nat): (r: ExprResult)
    requires On(ts, s)
    ensures Follows(ts, s, r.s) && (s.i + 1 < |ts| ==> s.i < r.s.i)
    decreases |ts| - s.i, 4
  {
    var prefix := ParsePrefix(ts, s);
    var lhs := FinishCall(ts, prefix.s, prefix.e);
    BinaryRest(ts, lhs.s, lhs.e, min)
  }

  /** Operators that bind at least as tightly as `min`, from left to right. */
  function BinaryRest(ts: seq<Token>, s: St, lhs: Expr, min: nat): (r: ExprResult)
    requires On(ts, s)
    ensures Follows(ts, s, r.s)
    decreases |ts| - s.i, 3
  {
    match BinaryOperator(Kind(ts, s))
    case None => ExprResult(lhs, s)
    case Some(o) =>
      if o.left < min then ExprResult(lhs, s)
      else
        var rhs := ParseExpr(ts, Bump(ts, s), o.right);
        BinaryRest(ts, rhs.s, Binary(o.op, lhs, rhs.e), min)
  }

  function PrefixOp(kind: TokenKind): Option<UnaryOp> {
    if kind == KwNot then Some(Not) else if kind == Minus then Some(Neg) else None
  }

  function ParsePrefix(ts: seq<Token>, s: St): (r: ExprResult)
    requires On(ts, s)
    ensures Follows(ts, s, r.s) && (s.i + 1 < |ts| ==> s.i < r.s.i)
    decreases |ts| - s.i, 1
  {
    match PrefixOp(Kind(ts, s))
    case Some(op) =>
      var x := ParseExpr(ts, Bump(ts, s), 8);
      ExprResult(Unary(op, x.e), x.s)
    case None => ParsePrimary(ts, s)
  }

  /** A name followed by arguments is a call. */
  function FinishCall(ts: seq<Token>, s: St, lhs: Expr): (r: ExprResult)
    requires On(ts, s)
    ensures Follows(ts, s, r.s)
    decreases |ts| - s.i, 3
  {
    match CalleeOf(lhs)
    case Some(callee) =>
      if !StartsArg(Kind(ts, s)) then ExprResult(lhs, s)
      else
        var r := ParseArgs(ts, s);
        ExprResult(Call(callee, r.args), r.s)
    case None => ExprResult(lhs, s)
  }

  function CalleeOf(e: Expr): Option<Path> {
    match e
    case Ident(name) => Some(Path([name], Single))
    case PathExpr(path) => Some(path)
    case _ => None
  }

  function ParseArgs(ts: seq<Token>, s: St): (r: ArgsResult)
    requires On(ts, s)
    ensures Follows(ts, s, r.s)
    decreases |ts| - s.i, 2
  {
    if !StartsArg(Kind(ts, s)) then ArgsResult([], s)
    else
      var first := ParsePrefix(ts, s);
      var rest := ParseArgs(ts, first.s);
      ArgsResult([first.e] + rest.args, rest.s)
  }

  function ParsePrimary(ts: seq<Token>, s: St): (r: ExprResult)
    requires On(ts, s)
    ensures Follows(ts, s, r.s) && (s.i + 1 < |ts| ==> s.i < r.s.i)
    decreases |ts| - s.i, 0
  {
    var text := ts[s.i].lexeme;
    match Kind(ts, s)
    case IntLit => ExprResult(Expr.IntLit(match ParseIntValue(text) case Some(v) => v case None => 0), Bump(ts, s))
    case StrLit => ExprResult(Expr.StrLit(StringLiterals.Decode(text)), Bump(ts, s))
    case KwTrue => ExprResult(BoolLit(true), Bump(ts, s))
    case KwFalse => ExprResult(BoolLit(false), Bump(ts, s))
    case Ident =>
      var p := ParsePath(ts, s);
      ExprResult(NameExpr(p.path.value), p.s)
    case LParen =>
      var x := ParseExpr(ts, Bump(ts, s), 0);
      ExprResult(x.e, Skim(ts, x.s, RParen))
    case _ => ExprResult(ErrorExpr, Report(Bump(ts, s), "E0206"))
  }

  function NameExpr(path: Path): Expr
    requires |path.segments| >= 1
  {
    if |path.segments| == 1 then Expr.Ident(path.segments[0]) else PathExpr(path)
  }

  // ----- statements -----

  datatype StmtResult = StmtResult(stmt: Option<Stmt>, s: St)

  datatype BlockResult = BlockResult(block: Block, s: St)

  function ParseBlock(ts: seq<Token>, s: St): (r: BlockResult)
    requires On(ts, s)
    ensures Follows(ts, s, r.s)
    decreases |ts| - s.i, 3
  {
    BlockRest(ts, Skip(ts, s))
  }

  predicate EndsBlock(kind: TokenKind) {
    kind == Eof || kind == KwEnd || kind == KwElse
  }

  function BlockRest(ts: seq<Token>, s: St): (r: BlockResult)
    requires On(ts, s)
    ensures Follows(ts, s, r.s)
    decreases |ts| - s.i, 2
  {
    if EndsBlock(Kind(ts, s)) then BlockResult([], s)
    else
      var first := ParseStatement(ts, s);
      var t := if first.s.i == s.i then Report(Bump(ts, first.s), "E0207") else first.s;
      var rest := BlockRest(ts, Skip(ts, t));
      BlockResult((match first.stmt case Some(c) => [c] case None => []) + rest.block, rest.s)
  }

  function ParseStatement(ts: seq<Token>, s: St): (r: StmtResult)
    requires On(ts, s)
    ensures Follows(ts, s, r.s)
    decreases |ts| - s.i, 1
  {
    var s := Skip(ts, s);
    var kind := Kind(ts, s);
    if kind == KwLet then ParseVar(ts, s, false)
    else if kind == KwMut then ParseVar(ts, s, true)
    else if kind == KwRet then ParseRet(ts, s)
    else if kind == KwIf then ParseIf(ts, s)
    else if kind == KwLoop then ParseLoop(ts, s)
    else if kind == KwWhile then ParseWhile(ts, s)
    else if kind == KwBreak then StmtResult(Some(Break), Skip(ts, Bump(ts, s)))
    else if kind == KwContinue then StmtResult(Some(Continue), Skip(ts, Bump(ts, s)))
    else if kind == KwUnsafe && PeekKind(ts, s, 1) == Arrow then ParseUnsafeBlock(ts, s)
    else if kind == KwElse then StmtResult(Some(ErrorStmt), Report(Bump(ts, s), "E0205"))
    else if kind == TokenKind.Ident && PeekKind(ts, s, 1) == TokenKind.Eq then ParseAssign(ts, s)
    else if kind == Eof || kind == KwEnd then StmtResult(None, s)
    else ParseExprStmt(ts, s)
  }

  function ParseVar(ts: seq<Token>, s: St, mutable: bool): (r: StmtResult)
    requires On(ts, s)
    ensures Follows(ts, s, r.s) && (s.i + 1 < |ts| ==> s.i < r.s.i)
  {
    var name := Bump(ts, s);
    var afterName := Expect(ts, name, TokenKind.Ident);
    if !afterName.ok then StmtResult(None, afterName.s) else ParseVarRest(ts, afterName.s, ts[name.i].lexeme, mutable)
  }

  /** From the type on. */
  function ParseVarRest(ts: seq<Token>, s: St, name: string, mutable: bool): (r: StmtResult)
    requires On(ts, s)
    ensures Follows(ts, s, r.s)
  {
    var ty := ParseTypeRef(ts, s);
    if ty.ty.None? then StmtResult(None, ty.s)
    else
      var eq := Expect(ts, ty.s, TokenKind.Eq);
      if !eq.ok then StmtResult(None, eq.s)
      else
        var x := ParseExpr(ts, eq.s, 0);
        StmtResult(Some(if mutable then Mut(name, ty.ty.value, x.e) else Let(name, ty.ty.value, x.e)), Skip(ts, x.s))
  }

  function ParseAssign(ts: seq<Token>, s: St): (r: StmtResult)
    requires On(ts, s)
    ensures Follows(ts, s, r.s) && (s.i + 1 < |ts| ==> s.i < r.s.i)
  {
    var x := ParseExpr(ts, Skim(ts, Bump(ts, s), TokenKind.Eq), 0);
    StmtResult(Some(Assign(ts[s.i].lexeme, x.e)), Skip(ts, x.s))
  }

  function ParseRet(ts: seq<Token>, s: St): (r: StmtResult)
    requires On(ts, s)
    ensures Follows(ts, s, r.s) && (s.i + 1 < |ts| ==> s.i < r.s.i)
  {
    var t := Bump(ts, s);
    if IsBoundary(Kind(ts, t)) then StmtResult(Some(Ret(None)), Skip(ts, t))
    else
      var x := ParseExpr(ts, t, 0);
      StmtResult(Some(Ret(Some(x.e))), Skip(ts, x.s))
  }

  /** The end of a block: what is reported where it is missing, and the line end after it. */
  function EndBlock(ts: seq<Token>, s: St): (r: St)
    requires On(ts, s)
    ensures Follows(ts, s, r)
  {
    var e := Expect(ts, s, KwEnd);
    Skip(ts, if e.ok then e.s else Report(e.s, "E0203"))
  }

  /** The arrow that opens a block, and the line end after it. */
  function OpenBlock(ts: seq<Token>, s: St): (r: St)
    requires On(ts, s)
    ensures Follows(ts, s, r)
  {
    Skip(ts, Skim(ts, s, Arrow))
  }

  function ParseIf(ts: seq<Token>, s: St): (r: StmtResult)
    requires On(ts, s) && Kind(ts, s) == KwIf
    ensures Follows(ts, s, r.s)
    decreases |ts| - s.i, 0
  {
    var cond := ParseExpr(ts, Bump(ts, s), 0);
    var thens := ParseBlock(ts, OpenBlock(ts, cond.s));
    var arm := ParseElse(ts, thens.s);
    StmtResult(Some(If(cond.e, thens.block, arm.arm)), EndBlock(ts, arm.s))
  }

  datatype ArmResult = ArmResult(arm: ElseArm, s: St)

  function ParseElse(ts: seq<Token>, s: St): (r: ArmResult)
    requires On(ts, s)
    ensures Follows(ts, s, r.s)
    decreases |ts| - s.i, 0
  {
    if Kind(ts, s) != KwElse then ArmResult(NoElse, s)
    else
      var b := ParseBlock(ts, OpenBlock(ts, Bump(ts, s)));
      ArmResult(Else(b.block), b.s)
  }

  function ParseLoop(ts: seq<Token>, s: St): (r: StmtResult)
    requires On(ts, s) && Kind(ts, s) == KwLoop
    ensures Follows(ts, s, r.s)
    decreases |ts| - s.i, 0
  {
    var b := ParseBlock(ts, OpenBlock(ts, Bump(ts, s)));
    StmtResult(Some(Loop(b.block)), EndBlock(ts, b.s))
  }

  function ParseWhile(ts: seq<Token>, s: St): (r: StmtResult)
    requires On(ts, s) && Kind(ts, s) == KwWhile
    ensures Follows(ts, s, r.s)
    decreases |ts| - s.i, 0
  {
    var cond := ParseExpr(ts, Bump(ts, s), 0);
    var b := ParseBlock(ts, OpenBlock(ts, cond.s));
    StmtResult(Some(While(cond.e, b.block)), EndBlock(ts, b.s))
  }

  function ParseUnsafeBlock(ts: seq<Token>, s: St): (r: StmtResult)
    requires On(ts, s) && Kind(ts, s) == KwUnsafe
    ensures Follows(ts, s, r.s)
    decreases |ts| - s.i, 0
  {
    var b := ParseBlock(ts, OpenBlock(ts, Bump(ts, s)));
    StmtResult(Some(UnsafeBlock(b.block)), EndBlock(ts, b.s))
  }

  function ParseExprStmt(ts: seq<Token>, s: St): (r: StmtResult)
    requires On(ts, s)
    ensures Follows(ts, s, r.s) && (s.i + 1 < |ts| ==> s.i < r.s.i)
  {
    var x := ParseExpr(ts, s, 0);
    StmtResult(Some(ExprStmt(x.e)), Skip(ts, x.s))
  }

  // ----- items -----

  datatype ParamsResult = ParamsResult(params: seq<Param>, s: St)

  function ParseParams(ts: seq<Token>, s: St): (r: ParamsResult)
    requires On(ts, s)
    ensures Follows(ts, s, r.s)
    decreases |ts| - s.i
  {
    if Kind(ts, s) in {Arrow, Eof, Newline} then ParamsResult([], s)
    else
      var name := Expect(ts, s, TokenKind.Ident);
      if !name.ok then ParamsResult([], SyncStatement(ts, Report(name.s, "E0206")))
      else
        var ty := ParseTypeRef(ts, name.s);
        if ty.ty.None? then ParamsResult([], SyncStatement(ts, Report(ty.s, "E0206")))
        else
          var rest := ParseParams(ts, ty.s);
          ParamsResult([Param(ts[s.i].lexeme, ty.ty.value)] + rest.params, rest.s)
  }

  datatype ItemResult = ItemResult(item: Option<Item>, s: St)

  function ParseUse(ts: seq<Token>, s: St): (r: ItemResult)
    requires On(ts, s)
    ensures Follows(ts, s, r.s)
  {
    var e := Expect(ts, s, KwUse);
    if !e.ok then ItemResult(None, e.s)
    else
      var p := ParsePath(ts, e.s);
      match p.path
      case Some(path) => ItemResult(Some(Use(path)), Skip(ts, p.s))
      case None => ItemResult(None, p.s)
  }

  function GiveUp(ts: seq<Token>, s: St, code: string): (r: ItemResult)
    requires On(ts, s)
    ensures Follows(ts, s, r.s)
  {
    ItemResult(None, SyncItem(ts, Report(s, code)))
  }

  predicate IsUnsafeFn(ts: seq<Token>, s: St)
    requires s.i < |ts|
  {
    Kind(ts, s) == KwUnsafe && PeekKind(ts, s, 1) == KwFn
  }

  function ParseFnItem(ts: seq<Token>, s: St): (r: ItemResult)
    requires On(ts, s)
    ensures Follows(ts, s, r.s)
  {
    var isUnsafe := IsUnsafeFn(ts, s);
    var f := Expect(ts, if isUnsafe then Bump(ts, s) else s, KwFn);
    if !f.ok then ItemResult(None, f.s) else ParseNamedFn(ts, f.s, isUnsafe)
  }

  /** From the name on. */
  function ParseNamedFn(ts: seq<Token>, s: St, isUnsafe: bool): (r: ItemResult)
    requires On(ts, s)
    ensures Follows(ts, s, r.s)
  {
    var name := Expect(ts, s, TokenKind.Ident);
    if !name.ok then GiveUp(ts, name.s, "E0201")
    else
      var params := ParseParams(ts, name.s);
      var arrow := Expect(ts, params.s, Arrow);
      if !arrow.ok then GiveUp(ts, arrow.s, "E0202")
      else ParseFnRest(ts, arrow.s, ts[s.i].lexeme, params.params, isUnsafe)
  }

  /** From the return type on. */
  function ParseFnRest(ts: seq<Token>, s: St, name: string, params: seq<Param>, isUnsafe: bool): (r: ItemResult)
    requires On(ts, s)
    ensures Follows(ts, s, r.s)
  {
    var ret := ParseTypeRef(ts, s);
    if ret.ty.None? then GiveUp(ts, ret.s, "E0202")
    else
      var body := ParseBlock(ts, Skip(ts, ret.s));
      ItemResult(Some(Fn(FnDecl(name, params, ret.ty.value, body.block, isUnsafe))), EndBlock(ts, body.s))
  }

  /** One turn of the loop over items. */
  function ItemStep(ts: seq<Token>, s: St): (r: ItemResult)
    requires On(ts, s)
    ensures Follows(ts, s, r.s)
  {
    var r := match Kind(ts, s)
      case KwUse => ParseUse(ts, s)
      case KwUnsafe => ParseFnItem(ts, s)
      case KwFn => ParseFnItem(ts, s)
      case KwEnd => ItemResult(None, Report(Bump(ts, s), "E0204"))
      case KwElse => ItemResult(None, Report(Bump(ts, s), "E0205"))
      case _ => ItemResult(None, Report(Bump(ts, s), "E0206"));
    ItemResult(r.item, Skip(ts, r.s))
  }

  /** The items and diagnostics, or a loop that never ends because a turn of it moves nowhere. */
  datatype Outcome = Parsed(items: seq<Item>, errs: seq<string>) | Hangs

  function ItemsFrom(ts: seq<Token>, s: St): Outcome
    requires On(ts, s)
    decreases |ts| - s.i
  {
    if Kind(ts, s) == Eof then Parsed([], s.errs)
    else
      var first := ItemStep(ts, s);
      if first.s.i == s.i then Hangs
      else
        match ItemsFrom(ts, first.s)
        case Hangs => Hangs
        case Parsed(items, errs) => Parsed((match first.item case Some(item) => [item] case None => []) + items, errs)
  }

  function Parse(ts: seq<Token>): Outcome
    requires Stream(ts)
  {
    ItemsFrom(ts, Skip(ts, St(0, [])))
  }

  // ----- progress -----

  /** A statement is never empty, so the diagnostic for a parser without progress is never reported. */
  lemma {:induction false} StatementsProgress(ts: seq<Token>, s: St)
    requires On(ts, s) && !EndsBlock(Kind(ts, s))
    ensures s.i < ParseStatement(ts, s).s.i
  {
    hide ParseExpr, ParseBlock;
    var t := Skip(ts, s);
    assert t.i + 1 < |ts| || t.i > s.i;
  }

  /** A turn of the loop over items moves on, except at an `unsafe` that no `fn` follows. */
  lemma {:induction false} ItemsProgress(ts: seq<Token>, s: St)
    requires On(ts, s) && Kind(ts, s) != Eof && !IsSpace(Kind(ts, s))
    ensures s.i < ItemStep(ts, s).s.i <==> !(Kind(ts, s) == KwUnsafe && PeekKind(ts, s, 1) != KwFn)
  {
    hide ParseBlock, ParseParams, ParseFnItem, ParseFnRest, Skip, ParsePath;
    if Kind(ts, s) == KwFn || Kind(ts, s) == KwUnsafe {
      FnItemProgress(ts, s);
    }
  }

  lemma {:induction false} FnItemProgress(ts: seq<Token>, s: St)
    requires On(ts, s) && (Kind(ts, s) == KwFn || Kind(ts, s) == KwUnsafe)
    ensures s.i < ParseFnItem(ts, s).s.i <==> !(Kind(ts, s) == KwUnsafe && PeekKind(ts, s, 1) != KwFn)
    ensures ParseFnItem(ts, s).s.i == s.i ==> Skip(ts, ParseFnItem(ts, s).s).i == s.i
  {
    hide ParseNamedFn;
  }

  /** After n turns of the loop over items, which stops at an end-of-file token. */
  function Turns(ts: seq<Token>, s: St, n: nat): (r: St)
    requires On(ts, s)
    ensures On(ts, r)
    decreases n
  {
    if n == 0 || Kind(ts, s) == Eof then s else Turns(ts, ItemStep(ts, s).s, n - 1)
  }

  /** And there it stays for ever: no number of turns moves it. */
  lemma {:induction false} StuckForEver(ts: seq<Token>, s: St, n: nat)
    requires On(ts, s) && Kind(ts, s) == KwUnsafe && PeekKind(ts, s, 1) != KwFn
    ensures Turns(ts, s, n).i == s.i
    decreases n
  {
    hide ItemStep;
    if n > 0 {
      ItemsProgress(ts, s);
      StuckForEver(ts, ItemStep(ts, s).s, n - 1);
    }
  }

  /** Where every `unsafe` is followed by `fn`, parsing ends, with at most 101 diagnostics. */
  lemma {:induction false} ParsingEnds(ts: seq<Token>, s: St)
    requires On(ts, s) && !IsSpace(Kind(ts, s))
    requires forall k :: 0 <= k < |ts| && ts[k].kind == KwUnsafe ==> k + 1 < |ts| && ts[k + 1].kind == KwFn
    ensures ItemsFrom(ts, s).Parsed?
    ensures |s.errs| <= MAX_ERRORS + 1 ==> |ItemsFrom(ts, s).errs| <= MAX_ERRORS + 1
    decreases |ts| - s.i
  {
    if Kind(ts, s) != Eof {
      ItemsProgress(ts, s);
      ParsingEnds(ts, ItemStep(ts, s).s);
    }
  }

  ghost predicate Stuck(ts: seq<Token>, s: St)
    requires s.i < |ts|
  {
    Kind(ts, s) == KwUnsafe && PeekKind(ts, s, 1) != KwFn
  }

  /** The parser hangs exactly when some turn of the loop over items starts at an `unsafe` that no `fn` follows. */
  lemma {:induction false} HangsIff(ts: seq<Token>, s: St)
    requires On(ts, s) && !IsSpace(Kind(ts, s))
    ensures ItemsFrom(ts, s).Hangs? <==> exists n: nat :: Stuck(ts, Turns(ts, s, n))
    decreases |ts| - s.i
  {
    hide ItemsFrom, Turns, ItemStep;
    ItemsUnfold(ts, s);
    if Kind(ts, s) == Eof {
      forall n: nat
        ensures !Stuck(ts, Turns(ts, s, n))
      {
        TurnsUnfold(ts, s, n);
      }
    } else {
      ItemsProgress(ts, s);
      TurnsUnfold(ts, s, 0);
      var t := ItemStep(ts, s).s;
      if t.i == s.i {
        assert Stuck(ts, Turns(ts, s, 0));
      } else {
        HangsIff(ts, t);
        TurnsShift(ts, s);
      }
    }
  }

  lemma {:induction false} ItemsUnfold(ts: seq<Token>, s: St)
    requires On(ts, s)
    ensures Kind(ts, s) == Eof ==> ItemsFrom(ts, s).Parsed?
    ensures Kind(ts, s) != Eof ==>
      var t := ItemStep(ts, s).s;
      && On(ts, t) && !IsSpace(Kind(ts, t)) && s.i <= t.i
      && (ItemsFrom(ts, s).Hangs? <==> t.i == s.i || ItemsFrom(ts, t).Hangs?)
  {
    hide ParseUse, ParseFnItem;
  }

  lemma {:induction false} TurnsUnfold(ts: seq<Token>, s: St, n: nat)
    requires On(ts, s)
    ensures Turns(ts, s, n) == if n == 0 || Kind(ts, s) == Eof then s else Turns(ts, ItemStep(ts, s).s, n - 1)
  {}

  lemma {:induction false} TurnsShift(ts: seq<Token>, s: St)
    requires On(ts, s) && Kind(ts, s) != Eof && !Stuck(ts, s)
    ensures (exists n: nat :: Stuck(ts, Turns(ts, s, n))) <==> exists n: nat :: Stuck(ts, Turns(ts, ItemStep(ts, s).s, n))
  {
    hide Turns, ItemStep;
    var t := ItemStep(ts, s).s;
    if n: nat :| Stuck(ts, Turns(ts, s, n)) {
      TurnsUnfold(ts, s, n);
      assert Stuck(ts, Turns(ts, t, n - 1));
    }
    if m: nat :| Stuck(ts, Turns(ts, t, m)) {
      TurnsUnfold(ts, s, m + 1);
      assert Stuck(ts, Turns(ts, s, m + 1));
    }
  }
}
