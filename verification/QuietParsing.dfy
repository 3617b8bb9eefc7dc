/** A parse that reports nothing: its trees have no error nodes, and it hangs exactly when an `unsafe` that no `fn`
    follows stands outside every body. */
module QuietParsing {
  import opened Ast
  import opened Tokens
  import opened Parsing

  // ----- how deep a token stands -----

  /** What opens a body and what ends one. */
  function Weight(ts: seq<Token>, k: nat): int
    requires k < |ts|
  {
    match ts[k].kind
    case KwFn => 1
    case KwIf => 1
    case KwLoop => 1
    case KwWhile => 1
    case KwUnsafe => if k + 1 < |ts| && ts[k + 1].kind == Arrow then 1 else 0
    case KwEnd => -1
    case _ => 0
  }

  function Depth(ts: seq<Token>, i: nat, j: nat): int
    requires i <= j <= |ts|
    decreases j
  {
    if i == j then 0 else Depth(ts, i, j - 1) + Weight(ts, j - 1)
  }

  lemma {:induction false} DepthJoin(ts: seq<Token>, i: nat, j: nat, k: nat)
    requires i <= j <= k <= |ts|
    ensures Depth(ts, i, k) == Depth(ts, i, j) + Depth(ts, j, k)
    decreases k
  {
    if j < k {
      DepthJoin(ts, i, j, k - 1);
    }
  }

  /** As many bodies are ended as opened, and none that was open before. */
  ghost predicate Steady(ts: seq<Token>, i: nat, j: nat) {
    && i <= j <= |ts| && Depth(ts, i, j) == 0
    && forall k :: i <= k <= j ==> Depth(ts, i, k) >= 0
  }

  lemma {:induction false} SteadyJoin(ts: seq<Token>, i: nat, j: nat, k: nat)
    requires Steady(ts, i, j) && Steady(ts, j, k)
    ensures Steady(ts, i, k)
  {
    hide Depth;
    DepthJoin(ts, i, j, k);
    forall m | i <= m <= k
      ensures Depth(ts, i, m) >= 0
    {
      if m > j {
        DepthJoin(ts, i, j, m);
      }
    }
  }

  predicate Level(kind: TokenKind) {
    kind !in {KwFn, KwIf, KwLoop, KwWhile, KwUnsafe, KwEnd}
  }

  lemma {:induction false} SteadyOne(ts: seq<Token>, i: nat)
    requires i < |ts| && Weight(ts, i) == 0
    ensures Steady(ts, i, i + 1)
  {
    assert Depth(ts, i, i + 1) == Depth(ts, i, i) + Weight(ts, i);
  }

  lemma {:induction false} SteadyNone(ts: seq<Token>, i: nat)
    requires i <= |ts|
    ensures Steady(ts, i, i)
  {}

  /** A body from what opens it to its end; between them it is open. */
  lemma {:induction false} SteadyNest(ts: seq<Token>, i: nat, j: nat)
    requires i < j < |ts| && Weight(ts, i) == 1 && Steady(ts, i + 1, j) && ts[j].kind == KwEnd
    ensures Steady(ts, i, j + 1)
    ensures forall k :: i < k <= j ==> Depth(ts, i, k) > 0
  {
    forall k | i < k <= j
      ensures Depth(ts, i, k) > 0
    {
      DepthJoin(ts, i, i + 1, k);
      assert Depth(ts, i, i + 1) == Depth(ts, i, i) + Weight(ts, i);
    }
    DepthJoin(ts, i, i + 1, j);
    assert Depth(ts, i, i + 1) == Depth(ts, i, i) + Weight(ts, i);
    assert Depth(ts, i, j + 1) == Depth(ts, i, j) + Weight(ts, j);
  }

  // ----- trees without error nodes -----

  predicate ExprWhole(e: Expr) {
    match e
    case Unary(_, x) => ExprWhole(x)
    case Binary(_, l, r) => ExprWhole(l) && ExprWhole(r)
    case Call(_, args) => ArgsWhole(args)
    case ErrorExpr => false
    case _ => true
  }

  predicate ArgsWhole(args: seq<Expr>) {
    args == [] || (ExprWhole(args[0]) && ArgsWhole(args[1..]))
  }

  predicate BlockWhole(b: Block) {
    b == [] || (StmtWhole(b[0]) && BlockWhole(b[1..]))
  }

  predicate StmtWhole(s: Stmt) {
    match s
    case Let(_, _, e) => ExprWhole(e)
    case Mut(_, _, e) => ExprWhole(e)
    case Assign(_, e) => ExprWhole(e)
    case Ret(Some(e)) => ExprWhole(e)
    case If(c, t, arm) => ExprWhole(c) && BlockWhole(t) && ArmWhole(arm)
    case Loop(b) => BlockWhole(b)
    case While(c, b) => ExprWhole(c) && BlockWhole(b)
    case UnsafeBlock(b) => BlockWhole(b)
    case ExprStmt(e) => ExprWhole(e)
    case ErrorStmt => false
    case _ => true
  }

  predicate ArmWhole(arm: ElseArm) {
    match arm case NoElse => true case Else(b) => BlockWhole(b)
  }

  predicate ItemsWhole(items: seq<Item>) {
    forall it :: it in items && it.Fn? ==> BlockWhole(it.decl.body)
  }

  // ----- moving on without a report -----

  /** Where nothing is reported, nothing was reported before, and the step is steady. */
  ghost predicate Still(ts: seq<Token>, s: St, t: St) {
    t.errs == [] ==> s.errs == [] && Steady(ts, s.i, t.i)
  }

  lemma {:induction false} StillJoin(ts: seq<Token>, a: St, b: St, c: St)
    requires Still(ts, a, b) && Still(ts, b, c)
    ensures Still(ts, a, c)
  {
    hide Steady;
    if c.errs == [] {
      SteadyJoin(ts, a.i, b.i, c.i);
    }
  }

  lemma {:induction false} StillBump(ts: seq<Token>, s: St)
    requires On(ts, s) && Level(Kind(ts, s))
    ensures Still(ts, s, Bump(ts, s))
  {
    SteadyOne(ts, s.i);
    SteadyNone(ts, s.i);
  }

  lemma {:induction false} StillExpect(ts: seq<Token>, s: St, kind: TokenKind)
    requires On(ts, s) && Level(kind)
    ensures Still(ts, s, Expect(ts, s, kind).s)
    ensures !Expect(ts, s, kind).ok ==> Expect(ts, s, kind).s.errs != []
  {
    hide Steady;
    if Kind(ts, s) == kind {
      StillBump(ts, s);
    }
  }

  lemma {:induction false} StillSkip(ts: seq<Token>, s: St)
    requires On(ts, s)
    ensures Still(ts, s, Skip(ts, s))
    decreases |ts| - s.i
  {
    hide Steady;
    SteadyNone(ts, s.i);
    if IsSpace(Kind(ts, s)) {
      StillBump(ts, s);
      StillSkip(ts, Bump(ts, s));
      StillJoin(ts, s, Bump(ts, s), Skip(ts, Bump(ts, s)));
    }
  }

  lemma {:induction false} StillHere(ts: seq<Token>, s: St)
    requires On(ts, s)
    ensures Still(ts, s, s)
  {
    SteadyNone(ts, s.i);
  }

  // ----- paths and types -----

  lemma {:induction false} PathRestQuiet(ts: seq<Token>, s: St, segments: seq<string>, sep: PathSep)
    requires On(ts, s)
    ensures Still(ts, s, PathRest(ts, s, segments, sep).s)
    decreases |ts| - s.i
  {
    hide Steady, Still, Expect;
    StillHere(ts, s);
    match SeparatorAt(Kind(ts, s))
    case None =>
    case Some(next) =>
      if sep != Single && sep != next {
        Reported(ts, s, s, "E0206");
      } else {
        var t := Bump(ts, s);
        var e := Expect(ts, t, TokenKind.Ident);
        StillBump(ts, s);
        StillExpect(ts, t, TokenKind.Ident);
        StillJoin(ts, s, t, e.s);
        if e.ok {
          PathRestQuiet(ts, e.s, segments + [ts[t.i].lexeme], next);
          StillJoin(ts, s, e.s, PathRest(ts, e.s, segments + [ts[t.i].lexeme], next).s);
        }
      }
  }

  lemma {:induction false} Reported(ts: seq<Token>, s: St, t: St, code: string)
    ensures Report(t, code).errs != [] && Still(ts, s, Report(t, code))
  {}

  lemma {:induction false} PathQuiet(ts: seq<Token>, s: St)
    requires On(ts, s)
    ensures Still(ts, s, ParsePath(ts, s).s)
    ensures ParsePath(ts, s).path.None? ==> ParsePath(ts, s).s.errs != []
  {
    hide Steady, Still, PathRest, Expect;
    var e := Expect(ts, s, TokenKind.Ident);
    StillExpect(ts, s, TokenKind.Ident);
    if e.ok {
      PathRestQuiet(ts, e.s, [ts[s.i].lexeme], Single);
      StillJoin(ts, s, e.s, PathRest(ts, e.s, [ts[s.i].lexeme], Single).s);
    }
  }

  lemma {:induction false} TypeQuiet(ts: seq<Token>, s: St)
    requires On(ts, s)
    ensures Still(ts, s, ParseTypeRef(ts, s).s)
    ensures ParseTypeRef(ts, s).ty.None? ==> ParseTypeRef(ts, s).s.errs != []
  {
    hide Steady, Still, Expect;
    if Kind(ts, s) == Star {
      var t := Bump(ts, s);
      StillBump(ts, s);
      StillExpect(ts, t, TokenKind.Ident);
      StillJoin(ts, s, t, Expect(ts, t, TokenKind.Ident).s);
    } else {
      StillExpect(ts, s, TokenKind.Ident);
    }
  }

  // ----- expressions -----

  /** And the tree is whole. */
  ghost predicate ExprQuiet(ts: seq<Token>, s: St, r: ExprResult) {
    Still(ts, s, r.s) && (r.s.errs == [] ==> ExprWhole(r.e))
  }

  lemma {:induction false} ParseExprQuiet(ts: seq<Token>, s: St, min: nat)
    requires On(ts, s)
    ensures ExprQuiet(ts, s, ParseExpr(ts, s, min))
    decreases |ts| - s.i, 6
  {
    hide Steady, Still, ParsePrefix, FinishCall, BinaryRest, ExprWhole;
    var prefix := ParsePrefix(ts, s);
    var lhs := FinishCall(ts, prefix.s, prefix.e);
    PrefixQuiet(ts, s);
    FinishQuiet(ts, prefix.s, prefix.e);
    StillJoin(ts, s, prefix.s, lhs.s);
    BinaryQuiet(ts, lhs.s, lhs.e, min);
    StillJoin(ts, s, lhs.s, BinaryRest(ts, lhs.s, lhs.e, min).s);
  }

  lemma {:induction false} BinaryQuiet(ts: seq<Token>, s: St, lhs: Expr, min: nat)
    requires On(ts, s) && (s.errs == [] ==> ExprWhole(lhs))
    ensures ExprQuiet(ts, s, BinaryRest(ts, s, lhs, min))
    decreases |ts| - s.i, 5
  {
    hide Steady, ParseExpr;
    StillHere(ts, s);
    match BinaryOperator(Kind(ts, s))
    case None =>
    case Some(o) =>
      if o.left >= min {
        var t := Bump(ts, s);
        var rhs := ParseExpr(ts, t, o.right);
        StillBump(ts, s);
        ParseExprQuiet(ts, t, o.right);
        StillJoin(ts, s, t, rhs.s);
        BinaryQuiet(ts, rhs.s, Binary(o.op, lhs, rhs.e), min);
        StillJoin(ts, s, rhs.s, BinaryRest(ts, rhs.s, Binary(o.op, lhs, rhs.e), min).s);
      }
  }

  lemma {:induction false} PrefixQuiet(ts: seq<Token>, s: St)
    requires On(ts, s)
    ensures ExprQuiet(ts, s, ParsePrefix(ts, s))
    decreases |ts| - s.i, 2
  {
    hide Steady, Still, ParseExpr, ParsePrimary;
    match PrefixOp(Kind(ts, s))
    case Some(op) =>
      StillBump(ts, s);
      ParseExprQuiet(ts, Bump(ts, s), 8);
      StillJoin(ts, s, Bump(ts, s), ParseExpr(ts, Bump(ts, s), 8).s);
    case None => PrimaryQuiet(ts, s);
  }

  lemma {:induction false} FinishQuiet(ts: seq<Token>, s: St, lhs: Expr)
    requires On(ts, s) && (s.errs == [] ==> ExprWhole(lhs))
    ensures ExprQuiet(ts, s, FinishCall(ts, s, lhs))
    decreases |ts| - s.i, 5
  {
    hide Steady, ParseArgs;
    StillHere(ts, s);
    if CalleeOf(lhs).Some? && StartsArg(Kind(ts, s)) {
      ArgsQuiet(ts, s);
    }
  }

  lemma {:induction false} ArgsQuiet(ts: seq<Token>, s: St)
    requires On(ts, s)
    ensures Still(ts, s, ParseArgs(ts, s).s) && (ParseArgs(ts, s).s.errs == [] ==> ArgsWhole(ParseArgs(ts, s).args))
    decreases |ts| - s.i, 3
  {
    hide Steady, ParsePrefix, ExprWhole;
    StillHere(ts, s);
    if StartsArg(Kind(ts, s)) {
      var first := ParsePrefix(ts, s);
      var rest := ParseArgs(ts, first.s);
      PrefixQuiet(ts, s);
      ArgsQuiet(ts, first.s);
      StillJoin(ts, s, first.s, rest.s);
      assert ([first.e] + rest.args)[1..] == rest.args;
    }
  }

  lemma {:induction false} PrimaryQuiet(ts: seq<Token>, s: St)
    requires On(ts, s)
    ensures ExprQuiet(ts, s, ParsePrimary(ts, s))
    decreases |ts| - s.i, 1
  {
    hide Steady, Still, ParseExpr, ParsePath, Expect, Report, ParseIntValue, Level;
    match Kind(ts, s)
    case LParen => ParenQuiet(ts, s);
    case Ident => PathQuiet(ts, s);
    case _ =>
      Reported(ts, s, Bump(ts, s), "E0206");
      LiteralQuiet(ts, s);
  }

  lemma {:induction false} LiteralQuiet(ts: seq<Token>, s: St)
    requires On(ts, s)
    ensures Kind(ts, s) in {TokenKind.IntLit, TokenKind.StrLit, KwTrue, KwFalse} ==> Still(ts, s, Bump(ts, s))
  {
    if Level(Kind(ts, s)) {
      StillBump(ts, s);
    }
  }

  lemma {:induction false} ParenQuiet(ts: seq<Token>, s: St)
    requires On(ts, s) && Kind(ts, s) == LParen
    ensures ExprQuiet(ts, s, ParsePrimary(ts, s))
    decreases |ts| - s.i, 0
  {
    hide Steady, ParseExpr, Expect;
    var t := Bump(ts, s);
    var x := ParseExpr(ts, t, 0);
    StillBump(ts, s);
    ParseExprQuiet(ts, t, 0);
    StillJoin(ts, s, t, x.s);
    StillExpect(ts, x.s, RParen);
    StillJoin(ts, s, x.s, Expect(ts, x.s, RParen).s);
  }

  // ----- statements -----

  ghost predicate BlockQuiet(ts: seq<Token>, s: St, r: BlockResult) {
    Still(ts, s, r.s) && (r.s.errs == [] ==> BlockWhole(r.block))
  }

  ghost predicate StmtQuiet(ts: seq<Token>, s: St, r: StmtResult) {
    Still(ts, s, r.s) && (r.s.errs == [] && r.stmt.Some? ==> StmtWhole(r.stmt.value))
  }

  lemma {:induction false} ParseBlockQuiet(ts: seq<Token>, s: St)
    requires On(ts, s)
    ensures BlockQuiet(ts, s, ParseBlock(ts, s))
    decreases |ts| - s.i, 4
  {
    hide Steady, Still, BlockRest, BlockWhole, Skip;
    StillSkip(ts, s);
    BlockRestQuiet(ts, Skip(ts, s));
    StillJoin(ts, s, Skip(ts, s), BlockRest(ts, Skip(ts, s)).s);
  }

  lemma {:induction false} BlockRestQuiet(ts: seq<Token>, s: St)
    requires On(ts, s)
    ensures BlockQuiet(ts, s, BlockRest(ts, s))
    decreases |ts| - s.i, 3
  {
    hide Steady, Still, ParseStatement, BlockRest, Skip, StmtWhole, BlockWhole;
    BlockRestSteps(ts, s);
    if EndsBlock(Kind(ts, s)) {
      StillHere(ts, s);
      NothingWhole();
    } else {
      var first := ParseStatement(ts, s);
      StatementQuiet(ts, s);
      var t := Skip(ts, first.s);
      StillSkip(ts, first.s);
      StillJoin(ts, s, first.s, t);
      var rest := BlockRest(ts, t);
      BlockRestQuiet(ts, t);
      StillJoin(ts, s, t, rest.s);
      if rest.s.errs == [] {
        Only(ts, t, rest.s);
        Only(ts, first.s, t);
        WholeThen(first.stmt, rest.block);
      }
    }
  }

  lemma {:induction false} Only(ts: seq<Token>, s: St, t: St)
    requires Still(ts, s, t)
    ensures t.errs == [] ==> s.errs == []
  {}

  lemma {:induction false} NothingWhole()
    ensures BlockWhole([])
  {}

  lemma {:induction false} BlockRestSteps(ts: seq<Token>, s: St)
    requires On(ts, s)
    ensures EndsBlock(Kind(ts, s)) ==> BlockRest(ts, s) == BlockResult([], s)
    ensures !EndsBlock(Kind(ts, s)) ==>
      var first := ParseStatement(ts, s);
      var rest := BlockRest(ts, Skip(ts, first.s));
      s.i < first.s.i && BlockRest(ts, s) == BlockResult((match first.stmt case Some(c) => [c] case None => []) + rest.block, rest.s)
  {
    hide ParseStatement, Skip;
    if !EndsBlock(Kind(ts, s)) {
      StatementsProgress(ts, s);
    }
  }

  lemma {:induction false} WholeThen(first: Option<Stmt>, rest: Block)
    requires BlockWhole(rest) && (first.Some? ==> StmtWhole(first.value))
    ensures BlockWhole((match first case Some(c) => [c] case None => []) + rest)
  {
    match first
    case Some(c) => assert ([c] + rest)[1..] == rest;
    case None => assert [] + rest == rest;
  }

  lemma {:induction false} StatementQuiet(ts: seq<Token>, s: St)
    requires On(ts, s)
    ensures StmtQuiet(ts, s, ParseStatement(ts, s))
    decreases |ts| - s.i, 2
  {
    hide Steady, Skip, StmtWhole, ParseVar, ParseRet, ParseIf, ParseLoop, ParseWhile, ParseUnsafeBlock, ParseAssign, ParseExprStmt;
    var t := Skip(ts, s);
    StillSkip(ts, s);
    SkipOnce(ts, s);
    SomeStatementQuiet(ts, t);
    StillJoin(ts, s, t, ParseStatement(ts, t).s);
  }

  lemma {:induction false} SkipOnce(ts: seq<Token>, s: St)
    requires On(ts, s)
    ensures Skip(ts, Skip(ts, s)) == Skip(ts, s)
    decreases |ts| - s.i
  {
    if IsSpace(Kind(ts, s)) {
      SkipOnce(ts, Bump(ts, s));
    }
  }

  /** From its first token. */
  lemma {:induction false} SomeStatementQuiet(ts: seq<Token>, s: St)
    requires On(ts, s) && Skip(ts, s) == s
    ensures StmtQuiet(ts, s, ParseStatement(ts, s))
    decreases |ts| - s.i, 1
  {
    hide Steady, Still, Skip, StmtWhole, ParseVar, ParseRet, ParseIf, ParseLoop, ParseWhile, ParseUnsafeBlock, ParseAssign, ParseExprStmt, Report, Level;
    StillHere(ts, s);
    Reported(ts, s, Bump(ts, s), "E0205");
    match Kind(ts, s)
    case KwLet => VarQuiet(ts, s, false);
    case KwMut => VarQuiet(ts, s, true);
    case KwRet => RetQuiet(ts, s);
    case KwIf => IfQuiet(ts, s);
    case KwLoop => LoopQuiet(ts, s);
    case KwWhile => WhileQuiet(ts, s);
    case KwBreak => LeafQuiet(ts, s, Break);
    case KwContinue => LeafQuiet(ts, s, Continue);
    case KwUnsafe =>
      if PeekKind(ts, s, 1) == Arrow {
        UnsafeQuiet(ts, s);
      } else {
        ExprStmtQuiet(ts, s);
      }
    case KwElse =>
    case Ident =>
      if PeekKind(ts, s, 1) == TokenKind.Eq {
        AssignQuiet(ts, s);
      } else {
        ExprStmtQuiet(ts, s);
      }
    case Eof =>
    case KwEnd =>
    case _ => ExprStmtQuiet(ts, s);
  }

  lemma {:induction false} LeafQuiet(ts: seq<Token>, s: St, c: Stmt)
    requires On(ts, s) && Kind(ts, s) in {KwBreak, KwContinue} && c in {Break, Continue}
    ensures StmtQuiet(ts, s, StmtResult(Some(c), Skip(ts, Bump(ts, s))))
  {
    hide Steady, Still, Skip;
    StillBump(ts, s);
    StillSkip(ts, Bump(ts, s));
    StillJoin(ts, s, Bump(ts, s), Skip(ts, Bump(ts, s)));
  }

  /** An expression and the line end after it. */
  lemma {:induction false} LastExprQuiet(ts: seq<Token>, s: St, t: St)
    requires On(ts, t) && Still(ts, s, t)
    ensures var x := ParseExpr(ts, t, 0);
      Still(ts, s, Skip(ts, x.s)) && (Skip(ts, x.s).errs == [] ==> ExprWhole(x.e))
  {
    hide Steady, Skip, ParseExpr, ExprWhole;
    var x := ParseExpr(ts, t, 0);
    ParseExprQuiet(ts, t, 0);
    StillJoin(ts, s, t, x.s);
    StillSkip(ts, x.s);
    StillJoin(ts, s, x.s, Skip(ts, x.s));
  }

  lemma {:induction false} VarQuiet(ts: seq<Token>, s: St, mutable: bool)
    requires On(ts, s) && Kind(ts, s) in {KwLet, KwMut}
    ensures StmtQuiet(ts, s, ParseVar(ts, s, mutable))
  {
    hide Steady, Still, Skip, ParseVarRest, Expect;
    var name := Bump(ts, s);
    var e := Expect(ts, name, TokenKind.Ident);
    StillBump(ts, s);
    StillExpect(ts, name, TokenKind.Ident);
    StillJoin(ts, s, name, e.s);
    if e.ok {
      VarRestQuiet(ts, e.s, ts[name.i].lexeme, mutable);
      StillJoin(ts, s, e.s, ParseVarRest(ts, e.s, ts[name.i].lexeme, mutable).s);
    }
  }

  lemma {:induction false} VarRestQuiet(ts: seq<Token>, s: St, name: string, mutable: bool)
    requires On(ts, s)
    ensures StmtQuiet(ts, s, ParseVarRest(ts, s, name, mutable))
  {
    hide Steady, Still, Skip, ParseTypeRef, ParseExpr, Expect, ExprWhole;
    var ty := ParseTypeRef(ts, s);
    TypeQuiet(ts, s);
    if ty.ty.Some? {
      var eq := Expect(ts, ty.s, TokenKind.Eq);
      StillExpect(ts, ty.s, TokenKind.Eq);
      StillJoin(ts, s, ty.s, eq.s);
      if eq.ok {
        LastExprQuiet(ts, s, eq.s);
      }
    }
  }

  lemma {:induction false} AssignQuiet(ts: seq<Token>, s: St)
    requires On(ts, s) && Kind(ts, s) == TokenKind.Ident
    ensures StmtQuiet(ts, s, ParseAssign(ts, s))
  {
    hide Steady, Still, Skip, ParseExpr, Expect, ExprWhole;
    var t := Bump(ts, s);
    StillBump(ts, s);
    StillExpect(ts, t, TokenKind.Eq);
    StillJoin(ts, s, t, Skim(ts, t, TokenKind.Eq));
    LastExprQuiet(ts, s, Skim(ts, t, TokenKind.Eq));
  }

  lemma {:induction false} RetQuiet(ts: seq<Token>, s: St)
    requires On(ts, s) && Kind(ts, s) == KwRet
    ensures StmtQuiet(ts, s, ParseRet(ts, s))
  {
    hide Steady, Still, Skip, ParseExpr, ExprWhole;
    var t := Bump(ts, s);
    StillBump(ts, s);
    StillSkip(ts, t);
    StillJoin(ts, s, t, Skip(ts, t));
    LastExprQuiet(ts, s, t);
  }

  lemma {:induction false} ExprStmtQuiet(ts: seq<Token>, s: St)
    requires On(ts, s)
    ensures StmtQuiet(ts, s, ParseExprStmt(ts, s))
  {
    hide Steady, Still, Skip, ParseExpr, ExprWhole;
    StillHere(ts, s);
    LastExprQuiet(ts, s, s);
  }

  // ----- bodies -----

  lemma {:induction false} StillOpen(ts: seq<Token>, s: St)
    requires On(ts, s)
    ensures Still(ts, s, OpenBlock(ts, s))
  {
    hide Steady, Still, Skip, Expect;
    StillExpect(ts, s, Arrow);
    StillSkip(ts, Skim(ts, s, Arrow));
    StillJoin(ts, s, Skim(ts, s, Arrow), OpenBlock(ts, s));
  }

  /** What opens a body, steady steps, and its end. */
  lemma {:induction false} StillNest(ts: seq<Token>, s: St, t: St)
    requires On(ts, s) && On(ts, t) && Weight(ts, s.i) == 1 && Still(ts, Bump(ts, s), t)
    ensures Still(ts, s, EndBlock(ts, t))
    ensures EndBlock(ts, t).errs == [] ==> s.errs == [] && s.i < t.i && forall k :: s.i < k <= t.i ==> Depth(ts, s.i, k) > 0
  {
    hide Steady, Skip, Depth;
    var e := Expect(ts, t, KwEnd);
    if e.ok {
      var end := Bump(ts, t);
      if end.errs == [] {
        SteadyBounds(ts, s.i + 1, t.i);
        SteadyNest(ts, s.i, t.i);
      }
      StillSkip(ts, end);
      StillJoin(ts, s, end, Skip(ts, end));
    } else {
      Reported(ts, s, e.s, "E0203");
    }
  }

  lemma {:induction false} SteadyBounds(ts: seq<Token>, i: nat, j: nat)
    requires Steady(ts, i, j)
    ensures i <= j <= |ts|
  {}

  lemma {:induction false} InBlock(ts: seq<Token>, s: St, t: St)
    requires On(ts, t) && Still(ts, s, t)
    ensures var b := ParseBlock(ts, OpenBlock(ts, t));
      Still(ts, s, b.s) && (b.s.errs == [] ==> t.errs == [] && BlockWhole(b.block))
    decreases |ts| - t.i, 5
  {
    hide Steady, OpenBlock, ParseBlock, BlockWhole;
    var u := OpenBlock(ts, t);
    StillOpen(ts, t);
    StillJoin(ts, s, t, u);
    ParseBlockQuiet(ts, u);
    StillJoin(ts, s, u, ParseBlock(ts, u).s);
  }

  lemma {:induction false} LoopQuiet(ts: seq<Token>, s: St)
    requires On(ts, s) && Kind(ts, s) == KwLoop
    ensures StmtQuiet(ts, s, ParseLoop(ts, s))
    decreases |ts| - s.i, 0
  {
    hide Steady, Still, OpenBlock, ParseBlock, BlockWhole, EndBlock, Depth;
    var t := Bump(ts, s);
    StillHere(ts, t);
    InBlock(ts, t, t);
    StillNest(ts, s, ParseBlock(ts, OpenBlock(ts, t)).s);
    EndOnly(ts, ParseBlock(ts, OpenBlock(ts, t)).s);
  }

  lemma {:induction false} EndOnly(ts: seq<Token>, t: St)
    requires On(ts, t)
    ensures EndBlock(ts, t).errs == [] ==> t.errs == []
  {
    hide Skip;
  }

  lemma {:induction false} UnsafeQuiet(ts: seq<Token>, s: St)
    requires On(ts, s) && Kind(ts, s) == KwUnsafe && PeekKind(ts, s, 1) == Arrow
    ensures StmtQuiet(ts, s, ParseUnsafeBlock(ts, s))
    decreases |ts| - s.i, 0
  {
    hide Steady, Still, OpenBlock, ParseBlock, BlockWhole, EndBlock, Depth;
    var t := Bump(ts, s);
    StillHere(ts, t);
    InBlock(ts, t, t);
    StillNest(ts, s, ParseBlock(ts, OpenBlock(ts, t)).s);
    EndOnly(ts, ParseBlock(ts, OpenBlock(ts, t)).s);
  }

  lemma {:induction false} WhileQuiet(ts: seq<Token>, s: St)
    requires On(ts, s) && Kind(ts, s) == KwWhile
    ensures StmtQuiet(ts, s, ParseWhile(ts, s))
    decreases |ts| - s.i, 0
  {
    hide Steady, OpenBlock, ParseBlock, ParseExpr, BlockWhole, ExprWhole, EndBlock, Depth;
    var t := Bump(ts, s);
    var c := ParseExpr(ts, t, 0);
    ParseExprQuiet(ts, t, 0);
    InBlock(ts, t, c.s);
    StillNest(ts, s, ParseBlock(ts, OpenBlock(ts, c.s)).s);
    EndOnly(ts, ParseBlock(ts, OpenBlock(ts, c.s)).s);
  }

  lemma {:induction false} IfQuiet(ts: seq<Token>, s: St)
    requires On(ts, s) && Kind(ts, s) == KwIf
    ensures StmtQuiet(ts, s, ParseIf(ts, s))
    decreases |ts| - s.i, 0
  {
    hide Steady, OpenBlock, ParseBlock, ParseExpr, ParseElse, BlockWhole, ExprWhole, ArmWhole, EndBlock, Depth;
    var t := Bump(ts, s);
    var c := ParseExpr(ts, t, 0);
    ParseExprQuiet(ts, t, 0);
    InBlock(ts, t, c.s);
    var thens := ParseBlock(ts, OpenBlock(ts, c.s));
    ElseQuiet(ts, thens.s);
    StillJoin(ts, t, thens.s, ParseElse(ts, thens.s).s);
    StillNest(ts, s, ParseElse(ts, thens.s).s);
    EndOnly(ts, ParseElse(ts, thens.s).s);
  }

  lemma {:induction false} ElseQuiet(ts: seq<Token>, s: St)
    requires On(ts, s)
    ensures Still(ts, s, ParseElse(ts, s).s) && (ParseElse(ts, s).s.errs == [] ==> ArmWhole(ParseElse(ts, s).arm))
    decreases |ts| - s.i, 0
  {
    hide Steady, Still, OpenBlock, ParseBlock, BlockWhole;
    StillHere(ts, s);
    if Kind(ts, s) == KwElse {
      StillBump(ts, s);
      InBlock(ts, s, Bump(ts, s));
    }
  }

  // ----- items -----

  /** An `unsafe` that no `fn` follows. */
  predicate StrayAt(ts: seq<Token>, k: nat)
    requires k < |ts|
  {
    ts[k].kind == KwUnsafe && !(k + 1 < |ts| && ts[k + 1].kind == KwFn)
  }

  /** Steady, and every such `unsafe` is inside a body. */
  ghost predicate Shut(ts: seq<Token>, i: nat, j: nat) {
    Steady(ts, i, j) && forall k :: i <= k < j && Depth(ts, i, k) == 0 ==> !StrayAt(ts, k)
  }

  lemma {:induction false} ShutJoin(ts: seq<Token>, i: nat, j: nat, k: nat)
    requires Shut(ts, i, j) && Shut(ts, j, k)
    ensures Shut(ts, i, k)
  {
    SteadyJoin(ts, i, j, k);
    SteadyBounds(ts, i, j);
    SteadyBounds(ts, j, k);
    assert Depth(ts, i, j) == 0;
    hide Steady, Depth, StrayAt;
    forall m | i <= m < k && Depth(ts, i, m) == 0
      ensures !StrayAt(ts, m)
    {
      if m >= j {
        DepthJoin(ts, i, j, m);
      }
    }
  }

  /** No `unsafe` at all. */
  ghost predicate Safe(ts: seq<Token>, i: nat, j: nat) {
    forall k :: i <= k < j && k < |ts| ==> ts[k].kind != KwUnsafe
  }

  lemma {:induction false} SafeJoin(ts: seq<Token>, i: nat, j: nat, k: nat)
    requires Safe(ts, i, j) && Safe(ts, j, k)
    ensures Safe(ts, i, k)
  {}

  lemma {:induction false} SafeBump(ts: seq<Token>, s: St)
    requires On(ts, s) && Kind(ts, s) != KwUnsafe
    ensures Safe(ts, s.i, Bump(ts, s).i) && Safe(ts, s.i, s.i)
  {}

  lemma {:induction false} SkipSafe(ts: seq<Token>, s: St)
    requires On(ts, s)
    ensures Safe(ts, s.i, Skip(ts, s).i)
    decreases |ts| - s.i
  {
    if IsSpace(Kind(ts, s)) {
      hide Safe;
      SafeBump(ts, s);
      SkipSafe(ts, Bump(ts, s));
      SafeJoin(ts, s.i, Bump(ts, s).i, Skip(ts, s).i);
    }
  }

  lemma {:induction false} PathRestSafe(ts: seq<Token>, s: St, segments: seq<string>, sep: PathSep)
    requires On(ts, s)
    ensures Safe(ts, s.i, PathRest(ts, s, segments, sep).s.i)
    decreases |ts| - s.i
  {
    if SeparatorAt(Kind(ts, s)).Some? {
      hide Safe;
      var t := Bump(ts, s);
      SafeBump(ts, s);
      if Kind(ts, t) == TokenKind.Ident {
        var rest := segments + [ts[t.i].lexeme];
        SafeBump(ts, t);
        SafeJoin(ts, s.i, t.i, Bump(ts, t).i);
        PathRestSafe(ts, Bump(ts, t), rest, SeparatorAt(Kind(ts, s)).value);
        SafeJoin(ts, s.i, Bump(ts, t).i, PathRest(ts, Bump(ts, t), rest, SeparatorAt(Kind(ts, s)).value).s.i);
      }
    }
  }

  lemma {:induction false} SafeShut(ts: seq<Token>, i: nat, j: nat)
    requires Steady(ts, i, j) && Safe(ts, i, j)
    ensures Shut(ts, i, j)
  {
    hide Depth;
  }

  /** Nothing reported before, every stray `unsafe` passed was inside a body, and the item's trees are whole. */
  ghost predicate ItemQuiet(ts: seq<Token>, s: St, r: ItemResult) {
    r.s.errs == [] ==>
      s.errs == [] && Shut(ts, s.i, r.s.i) && (r.item.Some? && r.item.value.Fn? ==> BlockWhole(r.item.value.decl.body))
  }

  lemma {:induction false} UseQuiet(ts: seq<Token>, s: St)
    requires On(ts, s) && Kind(ts, s) == KwUse
    ensures ItemQuiet(ts, s, ParseUse(ts, s))
  {
    hide Steady, Skip, ParsePath, Shut, Safe;
    var t := Bump(ts, s);
    var p := ParsePath(ts, t);
    StillBump(ts, s);
    PathQuiet(ts, t);
    StillJoin(ts, s, t, p.s);
    if p.path.Some? {
      var end := Skip(ts, p.s);
      StillSkip(ts, p.s);
      StillJoin(ts, s, p.s, end);
      UseSafe(ts, s);
      if end.errs == [] {
        SafeShut(ts, s.i, end.i);
      }
    }
  }

  lemma {:induction false} UseSafe(ts: seq<Token>, s: St)
    requires On(ts, s) && Kind(ts, s) == KwUse && ParsePath(ts, Bump(ts, s)).path.Some?
    ensures Safe(ts, s.i, Skip(ts, ParsePath(ts, Bump(ts, s)).s).i)
  {
    hide Skip, PathRest, Safe;
    var t := Bump(ts, s);
    var p := ParsePath(ts, t);
    PathRestSafe(ts, Bump(ts, t), [ts[t.i].lexeme], Single);
    SafeBump(ts, s);
    SafeBump(ts, t);
    SkipSafe(ts, p.s);
    SafeJoin(ts, s.i, t.i, Bump(ts, t).i);
    SafeJoin(ts, s.i, Bump(ts, t).i, p.s.i);
    SafeJoin(ts, s.i, p.s.i, Skip(ts, p.s).i);
  }

  lemma {:induction false} ParamsQuiet(ts: seq<Token>, s: St)
    requires On(ts, s)
    ensures Still(ts, s, ParseParams(ts, s).s)
    decreases |ts| - s.i
  {
    hide Steady, Still, Expect, ParseTypeRef, SyncStatement;
    StillHere(ts, s);
    if Kind(ts, s) !in {Arrow, Eof, Newline} {
      var name := Expect(ts, s, TokenKind.Ident);
      StillExpect(ts, s, TokenKind.Ident);
      if name.ok {
        var ty := ParseTypeRef(ts, name.s);
        TypeQuiet(ts, name.s);
        StillJoin(ts, s, name.s, ty.s);
        if ty.ty.Some? {
          ParamsQuiet(ts, ty.s);
          StillJoin(ts, s, ty.s, ParseParams(ts, ty.s).s);
        } else {
          StillSynced(ts, s, ty.s);
        }
      } else {
        StillSynced(ts, s, name.s);
      }
    }
  }

  lemma {:induction false} StillSynced(ts: seq<Token>, s: St, t: St)
    requires On(ts, t)
    ensures Still(ts, s, SyncStatement(ts, Report(t, "E0206")))
  {
    hide Steady, SyncStatement;
  }

  lemma {:induction false} GivenUp(ts: seq<Token>, s: St, code: string)
    requires On(ts, s)
    ensures GiveUp(ts, s, code).s.errs != []
  {
    hide SyncItem;
  }

  /** A function from its `fn`, with its name next. */
  lemma {:induction false} NamedFnQuiet(ts: seq<Token>, s: St, isUnsafe: bool)
    requires On(ts, s) && Kind(ts, s) == KwFn
    ensures ItemQuiet(ts, s, ParseNamedFn(ts, Bump(ts, s), isUnsafe))
  {
    hide Steady, Shut, Still, Expect, ParseParams, ParseFnRest, GiveUp, BlockWhole;
    var t := Bump(ts, s);
    var name := Expect(ts, t, TokenKind.Ident);
    StillExpect(ts, t, TokenKind.Ident);
    if name.ok {
      var params := ParseParams(ts, name.s);
      ParamsQuiet(ts, name.s);
      StillJoin(ts, t, name.s, params.s);
      var arrow := Expect(ts, params.s, Arrow);
      StillExpect(ts, params.s, Arrow);
      StillJoin(ts, t, params.s, arrow.s);
      if arrow.ok {
        FnRestQuiet(ts, s, arrow.s, ts[t.i].lexeme, params.params, isUnsafe);
      } else {
        GivenUp(ts, arrow.s, "E0202");
      }
    } else {
      GivenUp(ts, name.s, "E0201");
    }
  }

  lemma {:induction false} FnRestQuiet(ts: seq<Token>, s: St, t: St, name: string, params: seq<Param>, isUnsafe: bool)
    requires On(ts, s) && On(ts, t) && Kind(ts, s) == KwFn && Still(ts, Bump(ts, s), t)
    ensures ItemQuiet(ts, s, ParseFnRest(ts, t, name, params, isUnsafe))
  {
    hide Steady, Shut, Still, ParseTypeRef, Skip, GiveUp, ParseBlock, BlockWhole, EndBlock;
    var ret := ParseTypeRef(ts, t);
    TypeQuiet(ts, t);
    if ret.ty.Some? {
      var u := Skip(ts, ret.s);
      StillSkip(ts, ret.s);
      StillJoin(ts, Bump(ts, s), t, ret.s);
      StillJoin(ts, Bump(ts, s), ret.s, u);
      var body := ParseBlock(ts, u);
      ParseBlockQuiet(ts, u);
      StillJoin(ts, Bump(ts, s), u, body.s);
      FnShut(ts, s, body.s);
      EndOnly(ts, body.s);
    } else {
      GivenUp(ts, ret.s, "E0202");
    }
  }

  lemma {:induction false} FnShut(ts: seq<Token>, s: St, t: St)
    requires On(ts, s) && On(ts, t) && Kind(ts, s) == KwFn && Still(ts, Bump(ts, s), t)
    ensures EndBlock(ts, t).errs == [] ==> s.errs == [] && Shut(ts, s.i, EndBlock(ts, t).i)
  {
    hide Steady, Skip, Depth;
    StillNest(ts, s, t);
    var end := EndBlock(ts, t);
    if end.errs == [] {
      SkipSafe(ts, Bump(ts, t));
      forall k | s.i <= k < end.i && Depth(ts, s.i, k) == 0
        ensures !StrayAt(ts, k)
      {
        assert k == s.i || k > t.i;
      }
    }
  }

  lemma {:induction false} FnItemQuiet(ts: seq<Token>, s: St)
    requires On(ts, s) && (Kind(ts, s) == KwFn || Kind(ts, s) == KwUnsafe)
    ensures ItemQuiet(ts, s, ParseFnItem(ts, s))
  {
    hide Steady, Shut, ParseNamedFn, BlockWhole, Depth;
    if IsUnsafeFn(ts, s) {
      var t := Bump(ts, s);
      NamedFnQuiet(ts, t, true);
      var r := ParseNamedFn(ts, Bump(ts, t), true);
      if r.s.errs == [] {
        UnsafeFnShut(ts, s.i);
        ShutJoin(ts, s.i, s.i + 1, r.s.i);
      }
    } else if Kind(ts, s) == KwFn {
      NamedFnQuiet(ts, s, false);
    }
  }

  lemma {:induction false} UnsafeFnShut(ts: seq<Token>, i: nat)
    requires i + 1 < |ts| && ts[i].kind == KwUnsafe && ts[i + 1].kind == KwFn
    ensures Shut(ts, i, i + 1)
  {
    SteadyOne(ts, i);
  }

  lemma {:induction false} ItemStepQuiet(ts: seq<Token>, s: St)
    requires On(ts, s)
    ensures ItemQuiet(ts, s, ItemStep(ts, s))
  {
    hide Steady, Shut, Skip, ParseFnItem, ParseUse, BlockWhole, Report, Safe;
    Reported(ts, s, Bump(ts, s), "E0204");
    Reported(ts, s, Bump(ts, s), "E0205");
    Reported(ts, s, Bump(ts, s), "E0206");
    if Kind(ts, s) in {KwUse, KwFn, KwUnsafe} {
      var r := if Kind(ts, s) == KwUse then ParseUse(ts, s) else ParseFnItem(ts, s);
      if Kind(ts, s) == KwUse {
        UseQuiet(ts, s);
      } else {
        FnItemQuiet(ts, s);
      }
      var end := Skip(ts, r.s);
      StillSkip(ts, r.s);
      SkipSafe(ts, r.s);
      if end.errs == [] {
        SafeShut(ts, r.s.i, end.i);
        ShutJoin(ts, s.i, r.s.i, end.i);
      }
    }
  }

  // ----- whole streams -----

  /** Nothing is reported before the end, or before the parser hangs. */
  ghost predicate Silent(ts: seq<Token>, s: St)
    requires On(ts, s)
    decreases |ts| - s.i
  {
    Kind(ts, s) == Eof || Stuck(ts, s)
    || var t := ItemStep(ts, s).s; (t.errs == [] && s.i < t.i && Silent(ts, t))
  }

  /** An `unsafe` that no `fn` follows stands outside every body. */
  ghost predicate StrayOutside(ts: seq<Token>, i: nat)
    requires i <= |ts|
  {
    exists k :: i <= k < |ts| && Depth(ts, i, k) == 0 && StrayAt(ts, k)
  }

  /** The end-of-file token is the last, and no other. */
  ghost predicate EndsOnce(ts: seq<Token>) {
    forall k :: 0 <= k < |ts| - 1 ==> ts[k].kind != Eof
  }

  lemma {:induction false} StrayShift(ts: seq<Token>, i: nat, j: nat)
    requires Shut(ts, i, j)
    ensures StrayOutside(ts, i) <==> StrayOutside(ts, j)
  {
    SteadyBounds(ts, i, j);
    assert Depth(ts, i, j) == 0;
    hide Steady, Depth, StrayAt;
    forall k | j <= k < |ts|
      ensures Depth(ts, i, k) == Depth(ts, j, k)
    {
      DepthJoin(ts, i, j, k);
    }
    if StrayOutside(ts, i) {
      var k :| i <= k < |ts| && Depth(ts, i, k) == 0 && StrayAt(ts, k);
      assert k >= j;
    }
    if StrayOutside(ts, j) {
      var k :| j <= k < |ts| && Depth(ts, j, k) == 0 && StrayAt(ts, k);
    }
  }

  /** As long as the parser reports nothing, it hangs exactly when an `unsafe` that no `fn` follows stands outside
      every body. */
  lemma {:induction false} SilentHangs(ts: seq<Token>, s: St)
    requires On(ts, s) && EndsOnce(ts) && !IsSpace(Kind(ts, s)) && Silent(ts, s)
    ensures ItemsFrom(ts, s).Hangs? <==> StrayOutside(ts, s.i)
    decreases |ts| - s.i
  {
    hide ItemStep, ItemsFrom, StrayOutside;
    ItemsUnfold(ts, s);
    SilentEnds(ts, s);
    if Kind(ts, s) != Eof {
      ItemsProgress(ts, s);
      if !Stuck(ts, s) {
        var t := ItemStep(ts, s).s;
        SilentHangs(ts, t);
        ItemStepQuiet(ts, s);
        StrayShift(ts, s.i, t.i);
      }
    }
  }

  lemma {:induction false} SilentEnds(ts: seq<Token>, s: St)
    requires On(ts, s) && EndsOnce(ts)
    ensures Kind(ts, s) == Eof ==> !StrayOutside(ts, s.i)
    ensures Stuck(ts, s) ==> StrayOutside(ts, s.i)
  {
    assert Depth(ts, s.i, s.i) == 0;
  }

  lemma {:induction false} ParsedSilently(ts: seq<Token>, s: St)
    requires On(ts, s) && !IsSpace(Kind(ts, s)) && ItemsFrom(ts, s).Parsed? && ItemsFrom(ts, s).errs == []
    ensures s.errs == [] && Silent(ts, s) && ItemsWhole(ItemsFrom(ts, s).items)
    decreases |ts| - s.i
  {
    hide ItemStep, BlockWhole, Shut, Stuck;
    if Kind(ts, s) != Eof {
      ItemsUnfold(ts, s);
      ParsedSilently(ts, ItemStep(ts, s).s);
      ItemStepQuiet(ts, s);
    }
  }

  /** Where every `unsafe` that no `fn` follows stands in a body, the parser ends, or else reports something before it
      hangs. */
  lemma {:induction false} EnclosedEnds(ts: seq<Token>)
    requires Stream(ts) && EndsOnce(ts) && !StrayOutside(ts, 0)
    ensures Parse(ts).Parsed? || !Silent(ts, Skip(ts, St(0, [])))
  {
    hide ItemsFrom, Silent, Steady;
    FromStart(ts);
    var s := Skip(ts, St(0, []));
    if Silent(ts, s) {
      SilentHangs(ts, s);
    }
  }

  lemma {:induction false} FromStart(ts: seq<Token>)
    requires Stream(ts)
    ensures StrayOutside(ts, 0) <==> StrayOutside(ts, Skip(ts, St(0, [])).i)
    ensures !IsSpace(Kind(ts, Skip(ts, St(0, []))))
  {
    hide Skip, Steady;
    StillSkip(ts, St(0, []));
    SkipSafe(ts, St(0, []));
    SafeShut(ts, 0, Skip(ts, St(0, [])).i);
    StrayShift(ts, 0, Skip(ts, St(0, [])).i);
  }

  /** And where one stands outside, the parser hangs or reports something. */
  lemma {:induction false} StrayIsNoticed(ts: seq<Token>)
    requires Stream(ts) && EndsOnce(ts) && StrayOutside(ts, 0)
    ensures Parse(ts).Hangs? || Parse(ts).errs != []
  {
    hide ItemsFrom, Silent, Steady, Skip;
    FromStart(ts);
    var s := Skip(ts, St(0, []));
    if Parse(ts).Parsed? && Parse(ts).errs == [] {
      ParsedSilently(ts, s);
      SilentHangs(ts, s);
    }
  }

  /** What is parsed without a diagnostic has no error nodes. */
  lemma {:induction false} ParsedWhole(ts: seq<Token>)
    requires Stream(ts) && Parse(ts).Parsed? && Parse(ts).errs == []
    ensures ItemsWhole(Parse(ts).items)
  {
    hide ItemsFrom, Silent, Skip;
    ParsedSilently(ts, Skip(ts, St(0, [])));
  }
}
