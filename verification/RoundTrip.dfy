/** Parsing a printed program yields the program. */
module RoundTrip {
  import opened Ast
  import opened Tokens
  import opened Parsing
  import opened Grammar
  import opened ReadBack
  import opened Printer
  import TokenShapes

  // ----- spaces -----

  lemma {:induction false} SkipLine(ts: seq<Token>, i: nat, errs: seq<string>)
    requires Stream(ts) && i + 1 < |ts| && ts[i].kind == Newline && !IsSpace(ts[i + 1].kind)
    ensures Skip(ts, St(i, errs)) == St(i + 1, errs)
  {}

  lemma {:induction false} SkipNothing(ts: seq<Token>, i: nat, errs: seq<string>)
    requires Stream(ts) && i < |ts| && !IsSpace(ts[i].kind)
    ensures Skip(ts, St(i, errs)) == St(i, errs)
  {}

  /** Past a line end. */
  lemma {:induction false} LineEndReads(ts: seq<Token>, i: nat, errs: seq<string>, next: TokenKind)
    requires Here(ts, i, [LINE_END], next) && !IsSpace(next)
    ensures Skip(ts, St(i, errs)) == St(i + 1, errs) && Stream(ts) && i + 1 < |ts|
  {
    HereEnds(ts, i, [LINE_END], next);
    FirstHere(ts, i, [LINE_END], next);
    SkipLine(ts, i, errs);
  }

  // ----- expressions -----

  lemma {:induction false} ExprReads(ts: seq<Token>, i: nat, errs: seq<string>, full: bool, e: Expr, next: TokenKind)
    requires Printable(e) && Here(ts, i, ExprText(full, e), next) && Closes(next)
    ensures ParseExpr(ts, St(i, errs), 0) == ExprResult(e, St(i + |ExprText(full, e)|, errs))
  {
    hide Show, Fits, Stops, Here, TreeText, ParseExpr, Meaning;
    ShowFits(full, e);
    StopsAtCloser(Show(full, e), next);
    ReadsWhole(ts, i, errs, Show(full, e), 0, next);
  }

  /** An expression that ends its line. */
  lemma {:induction false} ExprLineReads(ts: seq<Token>, i: nat, errs: seq<string>, full: bool, e: Expr, next: TokenKind)
    requires Printable(e) && Here(ts, i, ExprText(full, e) + [LINE_END], next) && !IsSpace(next)
    ensures On(ts, St(i, errs))
    ensures var x := ParseExpr(ts, St(i, errs), 0);
      x.e == e && Skip(ts, x.s) == St(i + |ExprText(full, e)| + 1, errs)
  {
    hide ExprText, Here, ParseExpr, Skip, Printable;
    var text := ExprText(full, e);
    Chain(ts, i, text, [LINE_END], next);
    HereEnds(ts, i, text, Newline);
    ExprReads(ts, i, errs, full, e, Newline);
    LineEndReads(ts, i + |text|, errs, next);
  }

  lemma {:induction false} ExprStarts(full: bool, e: Expr)
    requires Printable(e)
    ensures ExprText(full, e) != [] && StartsArg(ExprText(full, e)[0].kind)
  {
    hide Show, Fits, TreeText, FirstKind, StartsArg;
    ShowFits(full, e);
    FirstToken(Show(full, e), 0);
  }

  ghost predicate NoEq(ps: seq<Spelling>) {
    forall k :: 0 <= k < |ps| ==> ps[k].kind != TokenKind.Eq
  }

  lemma {:induction false} PathHasNoEq(segments: seq<string>, sep: PathSep)
    ensures NoEq(SegmentsText(segments, sep))
    decreases segments
  {
    if segments != [] {
      PathHasNoEq(segments[1..], sep);
    }
  }

  lemma {:induction false} TreeHasNoEq(c: Cst)
    ensures NoEq(TreeText(c))
    decreases c
  {
    match c
    case Name(p) =>
      if p.segments != [] {
        PathHasNoEq(p.segments[1..], p.sep);
      }
    case Paren(x) => TreeHasNoEq(x);
    case Prefixed(_, x) => TreeHasNoEq(x);
    case Infix(op, l, r) =>
      TreeHasNoEq(l);
      TreeHasNoEq(r);
      assert OperatorKind(op) != TokenKind.Eq;
    case Applied(head, args) =>
      TreeHasNoEq(head);
      ArgsHaveNoEq(args);
    case _ =>
  }

  lemma {:induction false} ArgsHaveNoEq(args: seq<Cst>)
    ensures NoEq(ArgsText(args))
    decreases args
  {
    if args != [] {
      TreeHasNoEq(args[0]);
      ArgsHaveNoEq(args[1..]);
    }
  }

  // ----- types -----

  lemma {:induction false} TypeReads(ts: seq<Token>, i: nat, errs: seq<string>, ty: string, next: TokenKind)
    requires ValidType(ty) && Here(ts, i, TypeText(ty), next)
    ensures ParseTypeRef(ts, St(i, errs)) == TypeResult(Some(ty), St(i + |TypeText(ty)|, errs))
  {
    hide Here, FixedText, ValidName;
    HereEnds(ts, i, TypeText(ty), next);
    NotEmpty(ty);
    if ty[0] == '*' {
      assert [Fixed(Star), NameSpelling(ty[1..])] == [Fixed(Star)] + [NameSpelling(ty[1..])];
      Lead(ts, i, Fixed(Star), [NameSpelling(ty[1..])], next);
      assert [NameSpelling(ty[1..])] == [NameSpelling(ty[1..])] + [];
      Lead(ts, i + 1, NameSpelling(ty[1..]), [], next);
      assert ty == "*" + ty[1..];
    } else {
      assert [NameSpelling(ty)] == [NameSpelling(ty)] + [];
      Lead(ts, i, NameSpelling(ty), [], next);
    }
  }

  lemma {:induction false} NotEmpty(ty: string)
    requires ValidType(ty)
    ensures ty != ""
  {
    hide TokenShapes.KeywordText;
  }

  lemma {:induction false} TypeStarts(ty: string)
    requires ValidType(ty)
    ensures TypeText(ty) != [] && TypeText(ty)[0].kind in {Star, TokenKind.Ident}
  {}

  // ----- statements: one step of the parser for each -----

  lemma {:induction false} Dispatch(ts: seq<Token>, s: St)
    requires On(ts, s) && !IsSpace(Kind(ts, s)) && !EndsBlock(Kind(ts, s))
    ensures ParseStatement(ts, s) ==
      var kind := Kind(ts, s);
      if kind == KwLet then ParseVar(ts, s, false)
      else if kind == KwMut then ParseVar(ts, s, true)
      else if kind == KwRet then ParseRet(ts, s)
      else if kind == KwIf then ParseIf(ts, s)
      else if kind == KwLoop then ParseLoop(ts, s)
      else if kind == KwWhile then ParseWhile(ts, s)
      else if kind == KwBreak then StmtResult(Some(Break), Skip(ts, Bump(ts, s)))
      else if kind == KwContinue then StmtResult(Some(Continue), Skip(ts, Bump(ts, s)))
      else if kind == KwUnsafe && PeekKind(ts, s, 1) == Arrow then ParseUnsafeBlock(ts, s)
      else if kind == TokenKind.Ident && PeekKind(ts, s, 1) == TokenKind.Eq then ParseAssign(ts, s)
      else ParseExprStmt(ts, s)
  {
    hide ParseExpr, ParseBlock, ParseVar, ParseAssign, ParseRet, ParseExprStmt, ParseIf, ParseLoop, ParseWhile, ParseUnsafeBlock;
    SkipNothing(ts, s.i, s.errs);
  }

  lemma {:induction false} VarStep(ts: seq<Token>, i: nat, errs: seq<string>, mutable: bool)
    requires Stream(ts) && i + 2 < |ts| && ts[i + 1].kind == TokenKind.Ident
    ensures ParseVar(ts, St(i, errs), mutable) == ParseVarRest(ts, St(i + 2, errs), ts[i + 1].lexeme, mutable)
  {
    hide Expect, ParseVarRest;
    ExpectTakes(ts, i + 1, errs, TokenKind.Ident);
  }

  lemma {:induction false} VarRestStep(ts: seq<Token>, i: nat, errs: seq<string>, name: string, mutable: bool, ty: string, j: nat)
    requires Stream(ts) && i < |ts| && j + 1 < |ts| && ts[j].kind == TokenKind.Eq
    requires ParseTypeRef(ts, St(i, errs)) == TypeResult(Some(ty), St(j, errs))
    ensures var x := ParseExpr(ts, St(j + 1, errs), 0);
      ParseVarRest(ts, St(i, errs), name, mutable)
      == StmtResult(Some(if mutable then Mut(name, ty, x.e) else Let(name, ty, x.e)), Skip(ts, x.s))
  {
    hide ParseExpr, ParseTypeRef, Skip, Expect;
    ExpectTakes(ts, j, errs, TokenKind.Eq);
  }

  lemma {:induction false} ExpectTakes(ts: seq<Token>, i: nat, errs: seq<string>, kind: TokenKind)
    requires Stream(ts) && i + 1 < |ts| && ts[i].kind == kind
    ensures Expect(ts, St(i, errs), kind) == Expected(true, St(i + 1, errs))
  {}

  lemma {:induction false} VarParts(ts: seq<Token>, i: nat, full: bool, keyword: TokenKind, name: string, ty: string, e: Expr, next: TokenKind)
    requires ValidType(ty) && Printable(e) && Here(ts, i, VarText(full, keyword, name, ty, e), next)
    ensures var j := i + 2 + |TypeText(ty)|;
      && Stream(ts) && i + 2 < |ts| && j + 1 < |ts| && ts[i].kind == keyword
      && ts[i + 1].kind == TokenKind.Ident && ts[i + 1].lexeme == name && ts[j].kind == TokenKind.Eq
      && Here(ts, i + 2, TypeText(ty), TokenKind.Eq) && Here(ts, j + 1, ExprText(full, e) + [LINE_END], next)
      && |VarText(full, keyword, name, ty, e)| == j + 2 + |ExprText(full, e)| - i
  {
    hide Spelled, Here, ExprText, TypeText, Printable, ValidType, FixedText;
    var expr := ExprText(full, e) + [LINE_END];
    var afterType := [Fixed(TokenKind.Eq)] + expr;
    var afterName := TypeText(ty) + afterType;
    Lead(ts, i, Fixed(keyword), [NameSpelling(name)] + afterName, next);
    Lead(ts, i + 1, NameSpelling(name), afterName, next);
    Chain(ts, i + 2, TypeText(ty), afterType, next);
    Lead(ts, i + 2 + |TypeText(ty)|, Fixed(TokenKind.Eq), expr, next);
    HereEnds(ts, i + 3 + |TypeText(ty)|, expr, next);
  }

  lemma {:induction false} VarReads(ts: seq<Token>, i: nat, errs: seq<string>, full: bool, s: Stmt, next: TokenKind)
    requires (s.Let? || s.Mut?) && PrintableStmt(s) && Here(ts, i, StmtText(full, s), next) && !IsSpace(next)
    ensures ParseStatement(ts, St(i, errs)) == StmtResult(Some(s), St(i + |StmtText(full, s)|, errs))
  {
    hide Here, ExprText, TypeText, VarText, ParseExpr, ParseTypeRef, ParseVar, ParseVarRest, Skip, Printable, ValidType, ValidName, FixedText, ParseStatement,
         StmtText, PrintableStmt;
    VarPrintable(full, s);
    VarParts(ts, i, full, if s.Mut? then KwMut else KwLet, s.name, s.ty, s.init, next);
    VarTailReads(ts, i + 2, errs, full, s, next);
    VarStep(ts, i, errs, s.Mut?);
    DispatchVar(ts, St(i, errs), s.Mut?);
  }

  lemma {:induction false} VarRestReads(ts: seq<Token>, i: nat, errs: seq<string>, full: bool, s: Stmt, j: nat, next: TokenKind)
    requires (s.Let? || s.Mut?) && Printable(s.init) && !IsSpace(next)
    requires Stream(ts) && i < |ts| && j + 1 < |ts| && ts[j].kind == TokenKind.Eq
    requires ParseTypeRef(ts, St(i, errs)) == TypeResult(Some(s.ty), St(j, errs))
    requires Here(ts, j + 1, ExprText(full, s.init) + [LINE_END], next)
    ensures ParseVarRest(ts, St(i, errs), s.name, s.Mut?) == StmtResult(Some(s), St(j + 2 + |ExprText(full, s.init)|, errs))
  {
    hide *;
    VarRestStep(ts, i, errs, s.name, s.Mut?, s.ty, j);
    ExprLineReads(ts, j + 1, errs, full, s.init, next);
    VarIs(s);
  }

  lemma {:induction false} VarIs(s: Stmt)
    requires s.Let? || s.Mut?
    ensures s == if s.Mut? then Mut(s.name, s.ty, s.init) else Let(s.name, s.ty, s.init)
  {}

  /** From the type on. */
  lemma {:induction false} VarTailReads(ts: seq<Token>, i: nat, errs: seq<string>, full: bool, s: Stmt, next: TokenKind)
    requires (s.Let? || s.Mut?) && ValidType(s.ty) && Printable(s.init) && !IsSpace(next)
    requires var j := i + |TypeText(s.ty)|;
      && Stream(ts) && j + 1 < |ts| && ts[j].kind == TokenKind.Eq
      && Here(ts, i, TypeText(s.ty), TokenKind.Eq) && Here(ts, j + 1, ExprText(full, s.init) + [LINE_END], next)
    ensures ParseVarRest(ts, St(i, errs), s.name, s.Mut?)
         == StmtResult(Some(s), St(i + |TypeText(s.ty)| + 2 + |ExprText(full, s.init)|, errs))
  {
    hide Here, ExprText, TypeText, ParseTypeRef, ParseVarRest, Printable, ValidType;
    TypeReads(ts, i, errs, s.ty, TokenKind.Eq);
    VarRestReads(ts, i, errs, full, s, i + |TypeText(s.ty)|, next);
  }

  lemma {:induction false} VarPrintable(full: bool, s: Stmt)
    requires (s.Let? || s.Mut?) && PrintableStmt(s)
    ensures ValidType(s.ty) && Printable(s.init)
    ensures StmtText(full, s) == VarText(full, if s.Mut? then KwMut else KwLet, s.name, s.ty, s.init)
  {
    hide ValidType, Printable, ValidName, VarText;
  }

  lemma {:induction false} DispatchVar(ts: seq<Token>, s: St, mutable: bool)
    requires On(ts, s) && Kind(ts, s) == (if mutable then KwMut else KwLet)
    ensures ParseStatement(ts, s) == ParseVar(ts, s, mutable)
  {
    hide ParseStatement, ParseVar;
    Dispatch(ts, s);
  }

  lemma {:induction false} AssignStep(ts: seq<Token>, i: nat, errs: seq<string>)
    requires Stream(ts) && i + 2 < |ts| && ts[i].kind == TokenKind.Ident && ts[i + 1].kind == TokenKind.Eq
    ensures var x := ParseExpr(ts, St(i + 2, errs), 0);
      ParseStatement(ts, St(i, errs)) == StmtResult(Some(Assign(ts[i].lexeme, x.e)), Skip(ts, x.s))
  {
    hide ParseExpr, Skip, ParseStatement, Expect;
    DispatchAssign(ts, St(i, errs));
    SkimTakes(ts, St(i + 1, errs), TokenKind.Eq);
  }

  lemma {:induction false} DispatchAssign(ts: seq<Token>, s: St)
    requires On(ts, s) && Kind(ts, s) == TokenKind.Ident && PeekKind(ts, s, 1) == TokenKind.Eq
    ensures ParseStatement(ts, s) == ParseAssign(ts, s)
  {
    hide ParseStatement, ParseAssign;
    Dispatch(ts, s);
  }

  lemma {:induction false} AssignReads(ts: seq<Token>, i: nat, errs: seq<string>, full: bool, s: Stmt, next: TokenKind)
    requires s.Assign? && PrintableStmt(s) && Here(ts, i, StmtText(full, s), next) && !IsSpace(next)
    ensures ParseStatement(ts, St(i, errs)) == StmtResult(Some(s), St(i + |StmtText(full, s)|, errs))
  {
    hide Here, ExprText, ParseExpr, Skip, Printable, ValidName, FixedText, ParseStatement;
    var expr := ExprText(full, s.rhs) + [LINE_END];
    Lead(ts, i, NameSpelling(s.name), [Fixed(TokenKind.Eq)] + expr, next);
    Lead(ts, i + 1, Fixed(TokenKind.Eq), expr, next);
    HereEnds(ts, i + 2, expr, next);
    ExprLineReads(ts, i + 2, errs, full, s.rhs, next);
    AssignStep(ts, i, errs);
  }

  lemma {:induction false} RetReads(ts: seq<Token>, i: nat, errs: seq<string>, full: bool, s: Stmt, next: TokenKind)
    requires s.Ret? && PrintableStmt(s) && Here(ts, i, StmtText(full, s), next) && !IsSpace(next)
    ensures ParseStatement(ts, St(i, errs)) == StmtResult(Some(s), St(i + |StmtText(full, s)|, errs))
  {
    hide Here, ExprText, Printable, Fixed, ParseStatement;
    match s.result
    case None => BareRetReads(ts, i, errs, next);
    case Some(e) => RetExprReads(ts, i, errs, full, e, next);
  }

  lemma {:induction false} BareRetReads(ts: seq<Token>, i: nat, errs: seq<string>, next: TokenKind)
    requires Here(ts, i, [Fixed(KwRet)] + [LINE_END], next) && !IsSpace(next)
    ensures ParseStatement(ts, St(i, errs)) == StmtResult(Some(Ret(None)), St(i + 2, errs))
  {
    hide Here, ParseExpr, Skip, FixedText, ParseStatement;
    Lead(ts, i, Fixed(KwRet), [LINE_END], next);
    FirstHere(ts, i + 1, [LINE_END], next);
    LineEndReads(ts, i + 1, errs, next);
    Dispatch(ts, St(i, errs));
  }

  lemma {:induction false} RetExprReads(ts: seq<Token>, i: nat, errs: seq<string>, full: bool, e: Expr, next: TokenKind)
    requires Printable(e) && Here(ts, i, [Fixed(KwRet)] + (ExprText(full, e) + [LINE_END]), next) && !IsSpace(next)
    ensures ParseStatement(ts, St(i, errs)) == StmtResult(Some(Ret(Some(e))), St(i + 2 + |ExprText(full, e)|, errs))
  {
    hide Here, ExprText, ParseExpr, Skip, Printable, FixedText, ParseStatement, StartsArg;
    var expr := ExprText(full, e) + [LINE_END];
    Lead(ts, i, Fixed(KwRet), expr, next);
    ExprStarts(full, e);
    FirstHere(ts, i + 1, expr, next);
    NoBoundary(ts[i + 1].kind);
    ExprLineReads(ts, i + 1, errs, full, e, next);
    Dispatch(ts, St(i, errs));
  }

  lemma {:induction false} NoBoundary(kind: TokenKind)
    requires StartsArg(kind)
    ensures !IsBoundary(kind) && !IsSpace(kind) && !EndsBlock(kind)
  {}

  lemma {:induction false} ExprStmtReads(ts: seq<Token>, i: nat, errs: seq<string>, full: bool, e: Expr, next: TokenKind)
    requires Printable(e) && Here(ts, i, ExprText(full, e) + [LINE_END], next) && !IsSpace(next)
    ensures ParseStatement(ts, St(i, errs)) == StmtResult(Some(ExprStmt(e)), St(i + |ExprText(full, e)| + 1, errs))
  {
    hide Here, ParseExpr, Skip, Printable, FixedText, ParseStatement, Show;
    var expr := ExprText(full, e) + [LINE_END];
    ExprStarts(full, e);
    FirstHere(ts, i, expr, next);
    NoBoundary(ts[i].kind);
    ExprLineReads(ts, i, errs, full, e, next);
    TreeHasNoEq(Show(full, e));
    SecondIsNotEq(ts, i, expr, next);
    Dispatch(ts, St(i, errs));
  }

  lemma {:induction false} SecondIsNotEq(ts: seq<Token>, i: nat, ps: seq<Spelling>, next: TokenKind)
    requires Here(ts, i, ps, next) && NoEq(ps) && |ps| >= 2
    ensures PeekKind(ts, St(i, []), 1) != TokenKind.Eq
  {
    assert ps[1].kind != TokenKind.Eq;
  }

  // ----- blocks -----

  /** The end of a block is an `end` or an `else`. */
  predicate BlockEnd(next: TokenKind) {
    next == KwEnd || next == KwElse
  }

  lemma {:induction false} StmtStarts(full: bool, s: Stmt)
    requires PrintableStmt(s)
    ensures StmtText(full, s) != []
    ensures var kind := StmtText(full, s)[0].kind; !IsSpace(kind) && !EndsBlock(kind)
  {
    hide ExprText, TypeText, Printable, ValidName, ValidType, BlockText, PrintableBlock, StartsArg;
    match s
    case ExprStmt(e) =>
      ExprStarts(full, e);
      NoBoundary(ExprText(full, e)[0].kind);
    case _ =>
  }

  /** What comes first in a block, or after it where it is empty. */
  lemma {:induction false} BlockStarts(ts: seq<Token>, i: nat, full: bool, b: Block, next: TokenKind)
    requires PrintableBlock(b) && Here(ts, i, BlockText(full, b), next) && BlockEnd(next)
    ensures Stream(ts) && i < |ts| && !IsSpace(ts[i].kind) && (b == [] ==> ts[i].kind == next) && (b != [] ==> !EndsBlock(ts[i].kind))
  {
    hide Here, StmtText, PrintableStmt;
    HereEnds(ts, i, BlockText(full, b), next);
    if b != [] {
      StmtStarts(full, b[0]);
      FirstHere(ts, i, BlockText(full, b), next);
    }
  }

  lemma {:induction false} BlockUnfolds(full: bool, b: Block)
    requires b != [] && PrintableBlock(b)
    ensures PrintableStmt(b[0]) && PrintableBlock(b[1..])
    ensures BlockText(full, b) == StmtText(full, b[0]) + BlockText(full, b[1..])
  {
    hide StmtText, PrintableStmt;
  }

  lemma {:induction false} BlockParts(ts: seq<Token>, i: nat, full: bool, b: Block, next: TokenKind)
    requires b != [] && PrintableBlock(b) && Here(ts, i, BlockText(full, b), next) && BlockEnd(next)
    ensures PrintableStmt(b[0]) && PrintableBlock(b[1..])
    ensures var j := i + |StmtText(full, b[0])|;
      && j < |ts| && i < j && !IsSpace(ts[j].kind) && |BlockText(full, b)| == |StmtText(full, b[0])| + |BlockText(full, b[1..])|
      && Here(ts, i, StmtText(full, b[0]), ts[j].kind) && Here(ts, j, BlockText(full, b[1..]), next)
  {
    hide Here, StmtText, PrintableStmt, EndsBlock, Spelled, BlockText, PrintableBlock, IsSpace;
    BlockUnfolds(full, b);
    StmtStarts(full, b[0]);
    ChainMaybe(ts, i, StmtText(full, b[0]), BlockText(full, b[1..]), next);
    BlockStarts(ts, i + |StmtText(full, b[0])|, full, b[1..], next);
  }

  lemma {:induction false} StepBlock(ts: seq<Token>, s: St)
    requires On(ts, s) && !EndsBlock(Kind(ts, s)) && s.i < ParseStatement(ts, s).s.i
    ensures var first := ParseStatement(ts, s);
      var rest := BlockRest(ts, Skip(ts, first.s));
      BlockRest(ts, s) == BlockResult((match first.stmt case Some(c) => [c] case None => []) + rest.block, rest.s)
  {
    hide ParseStatement, Skip;
  }

  lemma {:induction false} EndOfBlock(ts: seq<Token>, s: St)
    requires On(ts, s) && EndsBlock(Kind(ts, s))
    ensures BlockRest(ts, s) == BlockResult([], s)
  {}

  lemma {:induction false} BlockReads(ts: seq<Token>, i: nat, errs: seq<string>, full: bool, b: Block, next: TokenKind)
    requires PrintableBlock(b) && Here(ts, i, BlockText(full, b), next) && BlockEnd(next)
    ensures BlockRest(ts, St(i, errs)) == BlockResult(b, St(i + |BlockText(full, b)|, errs))
    decreases b, 0
  {
    hide Here, StmtText, PrintableStmt, PrintableBlock, BlockRest, ParseStatement, Skip, BlockText, Spelled, EndsBlock, IsSpace, BlockEnd;
    if b == [] {
      EmptyBlockReads(ts, i, errs, full, next);
    } else {
      BlockStarts(ts, i, full, b, next);
      BlockParts(ts, i, full, b, next);
      var j := i + |StmtText(full, b[0])|;
      StmtReads(ts, i, errs, full, b[0], ts[j].kind);
      StepBlock(ts, St(i, errs));
      SkipNothing(ts, j, errs);
      BlockReads(ts, j, errs, full, b[1..], next);
      assert b == [b[0]] + b[1..];
    }
  }

  lemma {:induction false} EmptyBlockReads(ts: seq<Token>, i: nat, errs: seq<string>, full: bool, next: TokenKind)
    requires Here(ts, i, BlockText(full, []), next) && BlockEnd(next)
    ensures On(ts, St(i, errs)) && BlockRest(ts, St(i, errs)) == BlockResult([], St(i + |BlockText(full, [])|, errs))
  {
    hide Here, BlockRest, BlockText, Spelled;
    BlockStarts(ts, i, full, [], next);
    NoBlockText(full);
    EndOfBlock(ts, St(i, errs));
  }

  lemma {:induction false} NoBlockText(full: bool)
    ensures BlockText(full, []) == []
  {}

  /** A block on its own lines: the arrow, the line end and the statements. */
  lemma {:induction false} BodyReads(ts: seq<Token>, i: nat, errs: seq<string>, full: bool, b: Block, next: TokenKind)
    requires PrintableBlock(b) && Here(ts, i, BodyText(full, b), next) && BlockEnd(next)
    ensures On(ts, St(i, errs)) && ts[i].kind == Arrow
    ensures ParseBlock(ts, OpenBlock(ts, St(i, errs))) == BlockResult(b, St(i + |BodyText(full, b)|, errs))
    decreases b, 1
  {
    hide Here, BlockText, BlockRest, Skip, PrintableBlock, FixedText, Spelled;
    Lead(ts, i, Fixed(Arrow), [LINE_END] + BlockText(full, b), next);
    Lead(ts, i + 1, LINE_END, BlockText(full, b), next);
    BlockStarts(ts, i + 2, full, b, next);
    SkipLine(ts, i + 1, errs);
    SkipNothing(ts, i + 2, errs);
    SkimTakes(ts, St(i, errs), Arrow);
    BlockReads(ts, i + 2, errs, full, b, next);
  }

  lemma {:induction false} EndReads(ts: seq<Token>, i: nat, errs: seq<string>, next: TokenKind)
    requires Here(ts, i, EndText(), next) && !IsSpace(next)
    ensures On(ts, St(i, errs)) && ts[i].kind == KwEnd && EndBlock(ts, St(i, errs)) == St(i + 2, errs)
  {
    hide Here, Skip, FixedText;
    Lead(ts, i, Fixed(KwEnd), [LINE_END], next);
    LineEndReads(ts, i + 1, errs, next);
  }

  /** A block and its `end`. */
  lemma {:induction false} ClosedReads(ts: seq<Token>, i: nat, errs: seq<string>, full: bool, b: Block, next: TokenKind)
    requires PrintableBlock(b) && Here(ts, i, ClosedText(full, b), next) && !IsSpace(next)
    ensures On(ts, St(i, errs)) && ts[i].kind == Arrow
    ensures var r := ParseBlock(ts, OpenBlock(ts, St(i, errs)));
      r.block == b && EndBlock(ts, r.s) == St(i + |ClosedText(full, b)|, errs)
    decreases b, 2
  {
    hide Here, BodyText, ParseBlock, OpenBlock, EndBlock, PrintableBlock, FixedText;
    Chain(ts, i, BodyText(full, b), EndText(), next);
    BodyReads(ts, i, errs, full, b, KwEnd);
    EndReads(ts, i + |BodyText(full, b)|, errs, next);
  }

  lemma {:induction false} LoopStep(ts: seq<Token>, i: nat, errs: seq<string>, loops: bool)
    requires Stream(ts) && i + 1 < |ts| && ts[i].kind == (if loops then KwLoop else KwUnsafe) && ts[i + 1].kind == Arrow
    ensures var b := ParseBlock(ts, OpenBlock(ts, St(i + 1, errs)));
      ParseStatement(ts, St(i, errs))
      == StmtResult(Some(if loops then Loop(b.block) else UnsafeBlock(b.block)), EndBlock(ts, b.s))
  {
    hide ParseBlock, OpenBlock, EndBlock, ParseStatement;
    Dispatch(ts, St(i, errs));
  }

  lemma {:induction false} WhileStep(ts: seq<Token>, i: nat, errs: seq<string>)
    requires Stream(ts) && i + 1 < |ts| && ts[i].kind == KwWhile
    ensures var cond := ParseExpr(ts, St(i + 1, errs), 0);
      var b := ParseBlock(ts, OpenBlock(ts, cond.s));
      ParseStatement(ts, St(i, errs)) == StmtResult(Some(While(cond.e, b.block)), EndBlock(ts, b.s))
  {
    hide ParseBlock, OpenBlock, EndBlock, ParseStatement, ParseExpr;
    DispatchWhile(ts, St(i, errs));
  }

  lemma {:induction false} DispatchWhile(ts: seq<Token>, s: St)
    requires On(ts, s) && Kind(ts, s) == KwWhile
    ensures ParseStatement(ts, s) == ParseWhile(ts, s)
  {
    hide ParseStatement, ParseWhile;
    Dispatch(ts, s);
  }

  lemma {:induction false} IfStep(ts: seq<Token>, i: nat, errs: seq<string>)
    requires Stream(ts) && i + 1 < |ts| && ts[i].kind == KwIf
    ensures var cond := ParseExpr(ts, St(i + 1, errs), 0);
      var thens := ParseBlock(ts, OpenBlock(ts, cond.s));
      var arm := ParseElse(ts, thens.s);
      ParseStatement(ts, St(i, errs)) == StmtResult(Some(If(cond.e, thens.block, arm.arm)), EndBlock(ts, arm.s))
  {
    hide ParseBlock, OpenBlock, EndBlock, ParseStatement, ParseExpr, ParseElse, ParseIf;
    DispatchIf(ts, St(i, errs));
    IfUnfolds(ts, i, errs);
  }

  lemma {:induction false} IfUnfolds(ts: seq<Token>, i: nat, errs: seq<string>)
    requires Stream(ts) && i + 1 < |ts| && ts[i].kind == KwIf
    ensures var cond := ParseExpr(ts, St(i + 1, errs), 0);
      var thens := ParseBlock(ts, OpenBlock(ts, cond.s));
      var arm := ParseElse(ts, thens.s);
      ParseIf(ts, St(i, errs)) == StmtResult(Some(If(cond.e, thens.block, arm.arm)), EndBlock(ts, arm.s))
  {
    hide ParseBlock, OpenBlock, EndBlock, ParseExpr, ParseElse;
  }

  lemma {:induction false} DispatchIf(ts: seq<Token>, s: St)
    requires On(ts, s) && Kind(ts, s) == KwIf
    ensures ParseStatement(ts, s) == ParseIf(ts, s)
  {
    hide ParseStatement, ParseIf;
    Dispatch(ts, s);
  }

  lemma {:induction false} LoopReads(ts: seq<Token>, i: nat, errs: seq<string>, full: bool, s: Stmt, next: TokenKind)
    requires (s.Loop? || s.UnsafeBlock?) && PrintableStmt(s) && Here(ts, i, StmtText(full, s), next) && !IsSpace(next)
    ensures ParseStatement(ts, St(i, errs)) == StmtResult(Some(s), St(i + |StmtText(full, s)|, errs))
    decreases s, 0
  {
    hide Here, ClosedText, ParseBlock, OpenBlock, EndBlock, ParseStatement, FixedText, PrintableBlock;
    Lead(ts, i, Fixed(if s.Loop? then KwLoop else KwUnsafe), ClosedText(full, s.body), next);
    ClosedReads(ts, i + 1, errs, full, s.body, next);
    LoopStep(ts, i, errs, s.Loop?);
  }

  lemma {:induction false} WhilePrintable(s: Stmt)
    requires s.While? && PrintableStmt(s)
    ensures Printable(s.cond) && PrintableBlock(s.body)
  {
    hide Printable, PrintableBlock;
  }

  lemma {:induction false} WhileReads(ts: seq<Token>, i: nat, errs: seq<string>, full: bool, s: Stmt, next: TokenKind)
    requires s.While? && PrintableStmt(s) && Here(ts, i, StmtText(full, s), next) && !IsSpace(next)
    ensures ParseStatement(ts, St(i, errs)) == StmtResult(Some(s), St(i + |StmtText(full, s)|, errs))
    decreases s, 0
  {
    hide Here, ClosedText, ExprText, ParseExpr, ParseBlock, OpenBlock, EndBlock, ParseStatement, PrintableBlock, Printable, StmtText,
         PrintableStmt, IsSpace, Spelled;
    WhilePrintable(s);
    var j := i + 1 + |ExprText(full, s.cond)|;
    WhileParts(ts, i, full, s, next);
    ExprReads(ts, i + 1, errs, full, s.cond, Arrow);
    ClosedReads(ts, j, errs, full, s.body, next);
    WhileStep(ts, i, errs);
  }

  lemma {:induction false} WhileParts(ts: seq<Token>, i: nat, full: bool, s: Stmt, next: TokenKind)
    requires s.While? && PrintableStmt(s) && Here(ts, i, StmtText(full, s), next)
    ensures var j := i + 1 + |ExprText(full, s.cond)|;
      && Stream(ts) && i + 1 < |ts| && ts[i].kind == KwWhile && |StmtText(full, s)| == j - i + |ClosedText(full, s.body)|
      && Here(ts, i + 1, ExprText(full, s.cond), Arrow) && Here(ts, j, ClosedText(full, s.body), next)
  {
    hide Here, ClosedText, ExprText, FixedText, PrintableBlock, Printable;
    HereEnds(ts, i, StmtText(full, s), next);
    Lead(ts, i, Fixed(KwWhile), ExprText(full, s.cond) + ClosedText(full, s.body), next);
    ClosedStarts(full, s.body);
    Chain(ts, i + 1, ExprText(full, s.cond), ClosedText(full, s.body), next);
  }

  lemma {:induction false} ClosedStarts(full: bool, b: Block)
    requires PrintableBlock(b)
    ensures ClosedText(full, b) != [] && ClosedText(full, b)[0].kind == Arrow
    ensures BodyText(full, b) != [] && BodyText(full, b)[0].kind == Arrow
  {
    hide BlockText, PrintableBlock;
  }

  lemma {:induction false} ArmReads(ts: seq<Token>, i: nat, errs: seq<string>, full: bool, arm: ElseArm, next: TokenKind)
    requires (arm.Else? ==> PrintableBlock(arm.block)) && Here(ts, i, ArmText(full, arm), next) && !IsSpace(next)
    ensures On(ts, St(i, errs)) && BlockEnd(ts[i].kind)
    ensures var r := ParseElse(ts, St(i, errs)); r.arm == arm && EndBlock(ts, r.s) == St(i + |ArmText(full, arm)|, errs)
    decreases arm, 0
  {
    hide Here, ClosedText, ParseBlock, OpenBlock, EndBlock, FixedText, PrintableBlock;
    match arm
    case NoElse => EndReads(ts, i, errs, next);
    case Else(b) =>
      Lead(ts, i, Fixed(KwElse), ClosedText(full, b), next);
      ClosedReads(ts, i + 1, errs, full, b, next);
  }

  lemma {:induction false} ClosesArrow()
    ensures Closes(Arrow)
  {}

  lemma {:induction false} IfPrintable(s: Stmt)
    requires s.If? && PrintableStmt(s)
    ensures Printable(s.cond) && PrintableBlock(s.thenBlock) && (s.elseArm.Else? ==> PrintableBlock(s.elseArm.block))
  {
    hide Printable, PrintableBlock;
  }

  lemma {:induction false} IfReads(ts: seq<Token>, i: nat, errs: seq<string>, full: bool, s: Stmt, next: TokenKind)
    requires s.If? && PrintableStmt(s) && Here(ts, i, StmtText(full, s), next) && !IsSpace(next)
    ensures ParseStatement(ts, St(i, errs)) == StmtResult(Some(s), St(i + |StmtText(full, s)|, errs))
    decreases s, 0
  {
    ClosesArrow();
    hide *;
    IfPrintable(s);
    var body, arm := BodyText(full, s.thenBlock), ArmText(full, s.elseArm);
    var j := i + 1 + |ExprText(full, s.cond)|;
    var k := j + |body|;
    IfParts(ts, i, full, s, next);
    ExprReads(ts, i + 1, errs, full, s.cond, Arrow);
    ArmReads(ts, k, errs, full, s.elseArm, next);
    BodyReads(ts, j, errs, full, s.thenBlock, ts[k].kind);
    IfStep(ts, i, errs);
  }

  lemma {:induction false} IfParts(ts: seq<Token>, i: nat, full: bool, s: Stmt, next: TokenKind)
    requires s.If? && PrintableStmt(s) && Here(ts, i, StmtText(full, s), next)
    ensures var j := i + 1 + |ExprText(full, s.cond)|;
      var k := j + |BodyText(full, s.thenBlock)|;
      && Stream(ts) && i + 1 < |ts| && k < |ts| && ts[i].kind == KwIf
      && |StmtText(full, s)| == k - i + |ArmText(full, s.elseArm)|
      && Here(ts, i + 1, ExprText(full, s.cond), Arrow) && Here(ts, j, BodyText(full, s.thenBlock), ts[k].kind)
      && Here(ts, k, ArmText(full, s.elseArm), next)
  {
    hide Here, BodyText, ArmText, ExprText, PrintableBlock, Printable, Fixed;
    ClosedStarts(full, s.thenBlock);
    ArmStarts(full, s.elseArm);
    ThreeParts(ts, i, Fixed(KwIf), ExprText(full, s.cond), BodyText(full, s.thenBlock), ArmText(full, s.elseArm), next);
    FixedKind(KwIf);
  }

  lemma {:induction false} FixedKind(kind: TokenKind)
    ensures Fixed(kind).kind == kind
  {}

  /** A token and three parts. */
  lemma {:induction false} ThreeParts(ts: seq<Token>, i: nat, p: Spelling, a: seq<Spelling>, b: seq<Spelling>, c: seq<Spelling>, next: TokenKind)
    requires Here(ts, i, [p] + (a + (b + c)), next) && b != [] && c != []
    ensures var j := i + 1 + |a|;
      var k := j + |b|;
      && Stream(ts) && i + 1 < |ts| && k < |ts| && ts[i].kind == p.kind && |[p] + (a + (b + c))| == k - i + |c|
      && Here(ts, i + 1, a, b[0].kind) && Here(ts, j, b, ts[k].kind) && Here(ts, k, c, next)
  {
    hide Here;
    LeadTwo(ts, i, p, a, b + c, next);
    Chain(ts, i + 1 + |a|, b, c, next);
  }

  /** A token and two parts. */
  lemma {:induction false} LeadTwo(ts: seq<Token>, i: nat, p: Spelling, a: seq<Spelling>, b: seq<Spelling>, next: TokenKind)
    requires Here(ts, i, [p] + (a + b), next) && b != []
    ensures Stream(ts) && i + 1 + |a| < |ts| && ts[i].kind == p.kind && |[p] + (a + b)| == 1 + |a| + |b|
    ensures Here(ts, i + 1, a, b[0].kind) && Here(ts, i + 1 + |a|, b, next)
  {
    hide Here;
    HereEnds(ts, i, [p] + (a + b), next);
    Lead(ts, i, p, a + b, next);
    Chain(ts, i + 1, a, b, next);
  }

  lemma {:induction false} ArmStarts(full: bool, arm: ElseArm)
    requires arm.Else? ==> PrintableBlock(arm.block)
    ensures ArmText(full, arm) != []
  {
    hide ClosedText, PrintableBlock;
  }

  lemma {:induction false} JumpReads(ts: seq<Token>, i: nat, errs: seq<string>, full: bool, s: Stmt, next: TokenKind)
    requires (s.Break? || s.Continue?) && PrintableStmt(s) && Here(ts, i, StmtText(full, s), next) && !IsSpace(next)
    ensures ParseStatement(ts, St(i, errs)) == StmtResult(Some(s), St(i + |StmtText(full, s)|, errs))
  {
    hide Here, Skip, ParseStatement, FixedText;
    Lead(ts, i, Fixed(if s.Break? then KwBreak else KwContinue), [LINE_END], next);
    LineEndReads(ts, i + 1, errs, next);
    Dispatch(ts, St(i, errs));
  }

  /** One printed statement, read back. */
  lemma {:induction false} StmtReads(ts: seq<Token>, i: nat, errs: seq<string>, full: bool, s: Stmt, next: TokenKind)
    requires PrintableStmt(s) && Here(ts, i, StmtText(full, s), next) && !IsSpace(next)
    ensures ParseStatement(ts, St(i, errs)) == StmtResult(Some(s), St(i + |StmtText(full, s)|, errs))
    decreases s, 1
  {
    hide Here, ParseStatement, IsSpace;
    match s
    case Let(_, _, _) => VarReads(ts, i, errs, full, s, next);
    case Mut(_, _, _) => VarReads(ts, i, errs, full, s, next);
    case Assign(_, _) => AssignReads(ts, i, errs, full, s, next);
    case Ret(_) => RetReads(ts, i, errs, full, s, next);
    case If(_, _, _) => IfReads(ts, i, errs, full, s, next);
    case While(_, _) => WhileReads(ts, i, errs, full, s, next);
    case Loop(_) => LoopReads(ts, i, errs, full, s, next);
    case UnsafeBlock(_) => LoopReads(ts, i, errs, full, s, next);
    case ExprStmt(e) => ExprStmtReads(ts, i, errs, full, e, next);
    case Break => JumpReads(ts, i, errs, full, s, next);
    case Continue => JumpReads(ts, i, errs, full, s, next);
  }

  // ----- items -----

  lemma {:induction false} ParamStep(ts: seq<Token>, i: nat, errs: seq<string>, ty: string, j: nat)
    requires Stream(ts) && i + 1 < |ts| && j < |ts| && ts[i].kind == TokenKind.Ident && i < j
    requires ParseTypeRef(ts, St(i + 1, errs)) == TypeResult(Some(ty), St(j, errs))
    ensures var rest := ParseParams(ts, St(j, errs));
      ParseParams(ts, St(i, errs)) == ParamsResult([Param(ts[i].lexeme, ty)] + rest.params, rest.s)
  {
    hide ParseTypeRef, Expect, SyncStatement;
    ExpectTakes(ts, i, errs, TokenKind.Ident);
  }

  lemma {:induction false} ParamsPrintable(params: seq<Param>)
    requires params != [] && PrintableParams(params)
    ensures ValidType(params[0].ty) && PrintableParams(params[1..])
  {
    hide ValidName, ValidType;
  }

  lemma {:induction false} ParamParts(ts: seq<Token>, i: nat, params: seq<Param>)
    requires params != [] && PrintableParams(params) && Here(ts, i, ParamsText(params), Arrow)
    ensures ValidType(params[0].ty) && PrintableParams(params[1..])
    ensures var j := i + 1 + |TypeText(params[0].ty)|;
      && j < |ts| && i + 1 < |ts| && ts[i].kind == TokenKind.Ident && ts[i].lexeme == params[0].name
      && |ParamsText(params)| == j - i + |ParamsText(params[1..])|
      && Here(ts, i + 1, TypeText(params[0].ty), ts[j].kind) && Here(ts, j, ParamsText(params[1..]), Arrow)
  {
    hide Here, ValidName, ValidType, TypeText, Spelled, PrintableParams;
    ParamsPrintable(params);
    var ty, rest := TypeText(params[0].ty), ParamsText(params[1..]);
    Lead(ts, i, NameSpelling(params[0].name), ty + rest, Arrow);
    ChainMaybe(ts, i + 1, ty, rest, Arrow);
  }

  lemma {:induction false} ParamsRead(ts: seq<Token>, i: nat, errs: seq<string>, params: seq<Param>)
    requires PrintableParams(params) && Here(ts, i, ParamsText(params), Arrow)
    ensures ParseParams(ts, St(i, errs)) == ParamsResult(params, St(i + |ParamsText(params)|, errs))
    decreases params
  {
    hide Here, ValidName, ValidType, TypeText, Spelled, ParseParams, ParseTypeRef, PrintableParams;
    HereEnds(ts, i, ParamsText(params), Arrow);
    if params == [] {
      NoParams(ts, i, errs);
    } else {
      ParamParts(ts, i, params);
      var j := i + 1 + |TypeText(params[0].ty)|;
      TypeStarts(params[0].ty);
      TypeReads(ts, i + 1, errs, params[0].ty, ts[j].kind);
      ParamStep(ts, i, errs, params[0].ty, j);
      ParamsRead(ts, j, errs, params[1..]);
      assert params == [params[0]] + params[1..];
    }
  }

  lemma {:induction false} NoParams(ts: seq<Token>, i: nat, errs: seq<string>)
    requires Stream(ts) && i < |ts| && ts[i].kind == Arrow
    ensures ParseParams(ts, St(i, errs)) == ParamsResult([], St(i, errs))
  {}

  /** The return type, the body and the end of a function. */
  function FnTail(full: bool, f: FnDecl): seq<Spelling>
    requires PrintableFn(f)
  {
    TypeText(f.ret) + ([LINE_END] + (BlockText(full, f.body) + EndText()))
  }

  lemma {:induction false} FnTailParts(ts: seq<Token>, i: nat, full: bool, f: FnDecl, next: TokenKind)
    requires PrintableFn(f) && Here(ts, i, FnTail(full, f), next)
    ensures var j := i + |TypeText(f.ret)|;
      var k := j + 1 + |BlockText(full, f.body)|;
      && Stream(ts) && i < |ts| && j + 1 < |ts| && k < |ts| && ts[j].kind == Newline && |FnTail(full, f)| == k - i + |EndText()|
      && Here(ts, i, TypeText(f.ret), Newline) && Here(ts, j + 1, BlockText(full, f.body), KwEnd) && Here(ts, k, EndText(), next)
  {
    hide Here, TypeText, BlockText, PrintableBlock, ValidType, ValidName, Fixed, PrintableParams;
    LineParts(ts, i, TypeText(f.ret), LINE_END, BlockText(full, f.body), EndText(), next);
    FixedKind(Newline);
    FixedKind(KwEnd);
  }

  /** A part, a token, and two parts. */
  lemma {:induction false} LineParts(ts: seq<Token>, i: nat, a: seq<Spelling>, p: Spelling, b: seq<Spelling>, c: seq<Spelling>, next: TokenKind)
    requires Here(ts, i, a + ([p] + (b + c)), next) && c != []
    ensures var j := i + |a|;
      var k := j + 1 + |b|;
      && Stream(ts) && i < |ts| && j + 1 < |ts| && k < |ts| && ts[j].kind == p.kind && |a + ([p] + (b + c))| == k - i + |c|
      && Here(ts, i, a, p.kind) && Here(ts, j + 1, b, c[0].kind) && Here(ts, k, c, next)
  {
    hide Here;
    var rest := [p] + (b + c);
    Chain(ts, i, a, rest, next);
    LeadTwo(ts, i + |a|, p, b, c, next);
  }

  lemma {:induction false} FnRestStep(ts: seq<Token>, i: nat, errs: seq<string>, name: string, params: seq<Param>, isUnsafe: bool, ret: string, j: nat)
    requires Stream(ts) && i < |ts| && j < |ts| && ParseTypeRef(ts, St(i, errs)) == TypeResult(Some(ret), St(j, errs))
    ensures var body := ParseBlock(ts, Skip(ts, St(j, errs)));
      ParseFnRest(ts, St(i, errs), name, params, isUnsafe)
      == ItemResult(Some(Fn(FnDecl(name, params, ret, body.block, isUnsafe))), EndBlock(ts, body.s))
  {
    hide ParseTypeRef, ParseBlock, Skip, EndBlock, GiveUp;
  }

  lemma {:induction false} FnTailReads(ts: seq<Token>, i: nat, errs: seq<string>, full: bool, f: FnDecl, next: TokenKind)
    requires PrintableFn(f) && Here(ts, i, FnTail(full, f), next) && !IsSpace(next)
    ensures On(ts, St(i, errs))
    ensures ParseFnRest(ts, St(i, errs), f.name, f.params, f.isUnsafe) == ItemResult(Some(Fn(f)), St(i + |FnTail(full, f)|, errs))
  {
    hide Here, TypeText, BlockText, PrintableBlock, ValidType, ValidName, PrintableParams, FnTail, ParseFnRest, EndBlock, ParseTypeRef,
         Skip, BlockRest, EndText;
    FnTailParts(ts, i, full, f, next);
    var j := i + |TypeText(f.ret)|;
    var k := j + 1 + |BlockText(full, f.body)|;
    TypeReads(ts, i, errs, f.ret, Newline);
    FnRestStep(ts, i, errs, f.name, f.params, f.isUnsafe, f.ret, j);
    BlockStarts(ts, j + 1, full, f.body, KwEnd);
    SkipLine(ts, j, errs);
    SkipNothing(ts, j + 1, errs);
    BlockReads(ts, j + 1, errs, full, f.body, KwEnd);
    EndReads(ts, k, errs, next);
    EndIsTwo();
  }

  lemma {:induction false} EndIsTwo()
    ensures |EndText()| == 2
  {}

  lemma {:induction false} FnParts(ts: seq<Token>, i: nat, full: bool, f: FnDecl, next: TokenKind)
    requires PrintableFn(f) && Here(ts, i, FnText(full, f), next)
    ensures PrintableParams(f.params)
    ensures var j := i + 2 + |ParamsText(f.params)|;
      && Stream(ts) && i + 2 < |ts| && j + 1 < |ts| && ts[i].kind == KwFn && ts[i + 1].kind == TokenKind.Ident && ts[i + 1].lexeme == f.name
      && ts[j].kind == Arrow && |FnText(full, f)| == j + 1 - i + |FnTail(full, f)|
      && Here(ts, i + 2, ParamsText(f.params), Arrow) && Here(ts, j + 1, FnTail(full, f), next)
  {
    hide Here, TypeText, BlockText, PrintableBlock, ValidType, ValidName, FixedText, PrintableParams, ParamsText, EndText;
    var params, tail := ParamsText(f.params), FnTail(full, f);
    Lead(ts, i, Fixed(KwFn), [NameSpelling(f.name)] + (params + ([Fixed(Arrow)] + tail)), next);
    Lead(ts, i + 1, NameSpelling(f.name), params + ([Fixed(Arrow)] + tail), next);
    Chain(ts, i + 2, params, [Fixed(Arrow)] + tail, next);
    Lead(ts, i + 2 + |params|, Fixed(Arrow), tail, next);
    HereEnds(ts, i + 3 + |params|, tail, next);
  }

  lemma {:induction false} NamedFnStep(ts: seq<Token>, i: nat, errs: seq<string>, isUnsafe: bool, params: seq<Param>, j: nat)
    requires Stream(ts) && i + 1 < |ts| && j + 1 < |ts| && ts[i].kind == TokenKind.Ident && ts[j].kind == Arrow
    requires ParseParams(ts, St(i + 1, errs)) == ParamsResult(params, St(j, errs))
    ensures ParseNamedFn(ts, St(i, errs), isUnsafe) == ParseFnRest(ts, St(j + 1, errs), ts[i].lexeme, params, isUnsafe)
  {
    hide ParseParams, ParseFnRest, GiveUp, Expect;
    ExpectTakes(ts, i, errs, TokenKind.Ident);
    ExpectTakes(ts, j, errs, Arrow);
  }

  /** From its name on. */
  lemma {:induction false} FnReads(ts: seq<Token>, i: nat, errs: seq<string>, full: bool, f: FnDecl, next: TokenKind)
    requires PrintableFn(f) && Here(ts, i, FnText(full, f), next) && !IsSpace(next)
    ensures Stream(ts) && i + 1 < |ts| && ts[i].kind == KwFn
    ensures ParseNamedFn(ts, St(i + 1, errs), f.isUnsafe) == ItemResult(Some(Fn(f)), St(i + |FnText(full, f)|, errs))
  {
    hide Here, ParamsText, FnTail, FnText, PrintableFn, PrintableParams, ParseNamedFn, ParseFnRest, ParseParams;
    FnParts(ts, i, full, f, next);
    var j := i + 2 + |ParamsText(f.params)|;
    ParamsRead(ts, i + 2, errs, f.params);
    NamedFnStep(ts, i + 1, errs, f.isUnsafe, f.params, j);
    FnTailReads(ts, j + 1, errs, full, f, next);
  }

  lemma {:induction false} FnItemStep(ts: seq<Token>, s: St, isUnsafe: bool)
    requires On(ts, s) && s.i + 2 < |ts|
    requires if isUnsafe then Kind(ts, s) == KwUnsafe && ts[s.i + 1].kind == KwFn else Kind(ts, s) == KwFn
    ensures ParseFnItem(ts, s) == ParseNamedFn(ts, St(s.i + (if isUnsafe then 2 else 1), s.errs), isUnsafe)
  {
    hide ParseNamedFn;
  }

  lemma {:induction false} ItemDispatch(ts: seq<Token>, s: St)
    requires On(ts, s)
    ensures Kind(ts, s) == KwUse ==> ItemStep(ts, s) == ItemResult(ParseUse(ts, s).item, Skip(ts, ParseUse(ts, s).s))
    ensures Kind(ts, s) == KwFn || Kind(ts, s) == KwUnsafe ==>
      ItemStep(ts, s) == ItemResult(ParseFnItem(ts, s).item, Skip(ts, ParseFnItem(ts, s).s))
  {
    hide ParseUse, ParseFnItem, Skip;
  }

  lemma {:induction false} UseReads(ts: seq<Token>, i: nat, errs: seq<string>, full: bool, item: Item, next: TokenKind)
    requires item.Use? && PrintableItem(item) && Here(ts, i, ItemText(full, item), next) && !IsSpace(next)
    ensures Stream(ts) && i < |ts| && ts[i].kind == KwUse && i + |ItemText(full, item)| < |ts|
    ensures ParseUse(ts, St(i, errs)) == ItemResult(Some(item), St(i + |ItemText(full, item)|, errs))
  {
    hide Here, PathText, ParsePath, Skip, Fixed, ValidName, ContinuesPath, ParseUse;
    HereEnds(ts, i, ItemText(full, item), next);
    var path := PathText(item.path);
    Lead(ts, i, Fixed(KwUse), path + [LINE_END], next);
    Chain(ts, i + 1, path, [LINE_END], next);
    FixedKind(KwUse);
    FixedKind(Newline);
    NewlineEndsPath();
    PathReads(ts, i + 1, errs, item.path, Newline);
    LineEndReads(ts, i + 1 + |path|, errs, next);
    UseStep(ts, i, errs);
  }

  lemma {:induction false} UseStep(ts: seq<Token>, i: nat, errs: seq<string>)
    requires Stream(ts) && i + 1 < |ts| && ts[i].kind == KwUse
    ensures var p := ParsePath(ts, St(i + 1, errs));
      p.path.Some? ==> ParseUse(ts, St(i, errs)) == ItemResult(Some(Use(p.path.value)), Skip(ts, p.s))
  {
    hide ParsePath, Skip, Expect;
    ExpectTakes(ts, i, errs, KwUse);
  }

  lemma {:induction false} NewlineEndsPath()
    ensures !ContinuesPath(Newline)
  {}

  lemma {:induction false} FnItemText(full: bool, item: Item)
    requires item.Fn? && PrintableItem(item)
    ensures PrintableFn(item.decl)
    ensures ItemText(full, item) == if item.decl.isUnsafe then [Fixed(KwUnsafe)] + FnText(full, item.decl) else FnText(full, item.decl)
  {
    hide FnText, PrintableFn, Fixed;
  }

  lemma {:induction false} FnItemReads(ts: seq<Token>, i: nat, errs: seq<string>, full: bool, item: Item, next: TokenKind)
    requires item.Fn? && PrintableItem(item) && Here(ts, i, ItemText(full, item), next) && !IsSpace(next)
    ensures Stream(ts) && i < |ts| && ts[i].kind in {KwFn, KwUnsafe} && i + |ItemText(full, item)| < |ts|
    ensures ParseFnItem(ts, St(i, errs)) == ItemResult(Some(item), St(i + |ItemText(full, item)|, errs))
  {
    hide Here, FnText, PrintableFn, PrintableItem, ItemText, ParseFnItem, ParseNamedFn, Fixed, IsSpace, Spelled;
    HereEnds(ts, i, ItemText(full, item), next);
    var f := item.decl;
    FnItemText(full, item);
    FixedKind(KwUnsafe);
    if f.isUnsafe {
      Lead(ts, i, Fixed(KwUnsafe), FnText(full, f), next);
      FnReads(ts, i + 1, errs, full, f, next);
    } else {
      FnReads(ts, i, errs, full, f, next);
    }
    FnIsLong(full, f);
    FnItemStep(ts, St(i, errs), f.isUnsafe);
  }

  lemma {:induction false} FnIsLong(full: bool, f: FnDecl)
    requires PrintableFn(f)
    ensures |FnText(full, f)| >= 3 && FnText(full, f)[0].kind == KwFn
  {
    hide BlockText, TypeText, ParamsText, PrintableBlock, ValidName, ValidType;
  }

  /** One printed item, read back. */
  lemma {:induction false} ItemReads(ts: seq<Token>, i: nat, errs: seq<string>, full: bool, item: Item, next: TokenKind)
    requires PrintableItem(item) && Here(ts, i, ItemText(full, item), next) && !IsSpace(next)
    ensures Stream(ts) && i < |ts| && ts[i].kind != Eof && i + |ItemText(full, item)| < |ts|
    ensures ItemStep(ts, St(i, errs)) == ItemResult(Some(item), St(i + |ItemText(full, item)|, errs))
  {
    hide Here, ItemText, PrintableItem, ItemStep, ParseUse, ParseFnItem, Skip, IsSpace, Spelled;
    HereEnds(ts, i, ItemText(full, item), next);
    if item.Use? {
      UseReads(ts, i, errs, full, item, next);
    } else {
      FnItemReads(ts, i, errs, full, item, next);
    }
    ItemDispatch(ts, St(i, errs));
    SkipNothing(ts, i + |ItemText(full, item)|, errs);
  }

  lemma {:induction false} ItemStarts(full: bool, item: Item)
    requires PrintableItem(item)
    ensures ItemText(full, item) != [] && !IsSpace(ItemText(full, item)[0].kind)
  {
    hide FnText, PathText, PrintableFn;
    match item
    case Fn(f) => FnIsLong(full, f);
    case _ =>
  }

  lemma {:induction false} ItemsParts(ts: seq<Token>, i: nat, full: bool, items: seq<Item>)
    requires items != [] && PrintableItems(items) && Here(ts, i, ItemsText(full, items), Eof)
    ensures PrintableItem(items[0]) && PrintableItems(items[1..])
    ensures var j := i + |ItemText(full, items[0])|;
      && i < j < |ts| && !IsSpace(ts[j].kind)
      && Here(ts, i, ItemText(full, items[0]), ts[j].kind) && Here(ts, j, ItemsText(full, items[1..]), Eof)
  {
    hide Here, ItemText, PrintableItem, Spelled;
    ItemStarts(full, items[0]);
    if |items| > 1 {
      ItemStarts(full, items[1]);
    }
    ChainMaybe(ts, i, ItemText(full, items[0]), ItemsText(full, items[1..]), Eof);
  }

  lemma {:induction false} ItemsStep(ts: seq<Token>, s: St)
    requires On(ts, s) && Kind(ts, s) != Eof && s.i < ItemStep(ts, s).s.i && ItemStep(ts, s).item.Some?
    ensures ItemsFrom(ts, ItemStep(ts, s).s).Parsed? ==>
      var rest := ItemsFrom(ts, ItemStep(ts, s).s); ItemsFrom(ts, s) == Parsed([ItemStep(ts, s).item.value] + rest.items, rest.errs)
  {
    hide ItemStep;
  }

  lemma {:induction false} ItemsRead(ts: seq<Token>, i: nat, errs: seq<string>, full: bool, items: seq<Item>)
    requires PrintableItems(items) && Here(ts, i, ItemsText(full, items), Eof)
    ensures ItemsFrom(ts, St(i, errs)) == Parsed(items, errs)
    decreases items
  {
    hide Here, ItemText, ItemsText, PrintableItem, PrintableItems, ItemStep, ItemsFrom, Spelled;
    if items == [] {
      NoItems(ts, i, errs, full);
    } else {
      ItemsParts(ts, i, full, items);
      var j := i + |ItemText(full, items[0])|;
      ItemReads(ts, i, errs, full, items[0], ts[j].kind);
      ItemsRead(ts, j, errs, full, items[1..]);
      ItemsStep(ts, St(i, errs));
      assert items == [items[0]] + items[1..];
    }
  }

  lemma {:induction false} NoItems(ts: seq<Token>, i: nat, errs: seq<string>, full: bool)
    requires Here(ts, i, ItemsText(full, []), Eof)
    ensures ItemsFrom(ts, St(i, errs)) == Parsed([], errs)
  {
    HereEnds(ts, i, [], Eof);
  }

  /** The round trip on tokens: a printed program, in either style, parses to itself without diagnostics. */
  lemma {:induction false} ProgramReads(ts: seq<Token>, full: bool, items: seq<Item>)
    requires PrintableItems(items) && Here(ts, 0, ItemsText(full, items), Eof)
    ensures Parse(ts) == Parsed(items, [])
  {
    HereEnds(ts, 0, ItemsText(full, items), Eof);
    ProgramStarts(ts, full, items);
    hide Here, ItemsText, PrintableItems, ItemsFrom, Skip;
    SkipNothing(ts, 0, []);
    ItemsRead(ts, 0, [], full, items);
  }

  lemma {:induction false} ProgramStarts(ts: seq<Token>, full: bool, items: seq<Item>)
    requires PrintableItems(items) && Here(ts, 0, ItemsText(full, items), Eof)
    ensures |ts| > 0 && !IsSpace(ts[0].kind)
  {
    hide Here, ItemText, PrintableItem, Spelled;
    HereEnds(ts, 0, ItemsText(full, items), Eof);
    if items != [] {
      ItemStarts(full, items[0]);
      FirstHere(ts, 0, ItemsText(full, items), Eof);
    }
  }
}
