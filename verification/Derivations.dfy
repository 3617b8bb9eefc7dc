/** The parser accepts a row of tokens without a diagnostic exactly when the grammar derives it, and yields the items
    that the grammar derives. */
module Derivations {
  import opened Ast
  import opened Tokens
  import opened Parsing
  import opened Grammar
  import opened ReadBack
  import opened SourceGrammar
  import RoundTrip
  import StringLiterals

  // ----- what the grammar derives is parsed so -----

  lemma {:induction false} SpacesSkipped(ts: seq<Token>, i: nat, j: nat, errs: seq<string>)
    requires Stream(ts) && Spaces(ts, i, j)
    ensures Skip(ts, St(i, errs)) == St(j, errs)
    decreases j - i
  {
    hide Skip;
    if i < j {
      assert IsSpace(ts[i].kind);
      SkipOver(ts, i, errs);
      SpacesSkipped(ts, i + 1, j, errs);
    } else {
      RoundTrip.SkipNothing(ts, i, errs);
    }
  }

  lemma {:induction false} SkipOver(ts: seq<Token>, i: nat, errs: seq<string>)
    requires Stream(ts) && i + 1 < |ts| && IsSpace(ts[i].kind)
    ensures Skip(ts, St(i, errs)) == Skip(ts, St(i + 1, errs))
  {}

  lemma {:induction false} SpacesEnd(ts: seq<Token>, i: nat, j: nat)
    requires Spaces(ts, i, j)
    ensures i <= j < |ts| && !IsSpace(ts[j].kind)
  {}

  lemma {:induction false} More(ts: seq<Token>, i: nat, kind: TokenKind)
    requires Stream(ts) && Is(ts, i, kind) && kind != Eof
    ensures i + 1 < |ts|
  {}

  lemma {:induction false} ExprParsed(ts: seq<Token>, i: nat, j: nat, errs: seq<string>, e: Expr)
    requires Stream(ts) && ExprAt(ts, i, j, e)
    ensures i < j < |ts| && StartsArg(ts[i].kind)
    ensures ParseExpr(ts, St(i, errs), 0) == ExprResult(e, St(j, errs))
  {
    hide ParseExpr, Fits, Stops, OperatorStops, TreeText, Spelled, StartsArg;
    var c :| TreeAt(ts, i, j, c, 0) && Meaning(c) == e;
    assert Here(ts, i, TreeText(c), ts[j].kind);
    ReadsWhole(ts, i, errs, c, 0, ts[j].kind);
    FirstToken(c, 0);
    FirstSpelled(ts, i, TreeText(c));
  }

  lemma {:induction false} LastParsed(ts: seq<Token>, i: nat, j: nat, errs: seq<string>, e: Expr)
    requires Stream(ts) && LastAt(ts, i, j, e)
    ensures i < j < |ts| && StartsArg(ts[i].kind) && !IsSpace(ts[j].kind)
    ensures var x := ParseExpr(ts, St(i, errs), 0); x.e == e && Skip(ts, x.s) == St(j, errs)
  {
    hide ExprAt, Spaces, ParseExpr, Skip, StartsArg;
    var m: nat :| ExprAt(ts, i, m, e) && Spaces(ts, m, j);
    ExprParsed(ts, i, m, errs, e);
    SpacesSkipped(ts, m, j, errs);
    SpacesEnd(ts, m, j);
  }

  lemma {:induction false} TypeParsed(ts: seq<Token>, i: nat, j: nat, errs: seq<string>, ty: string)
    requires Stream(ts) && TypeAt(ts, i, j, ty)
    ensures i < j < |ts| && ParseTypeRef(ts, St(i, errs)) == TypeResult(Some(ty), St(j, errs))
  {}

  lemma {:induction false} VarParsed(ts: seq<Token>, i: nat, j: nat, errs: seq<string>, mutable: bool, name: string, ty: string, e: Expr)
    requires Stream(ts) && VarAt(ts, i, j, if mutable then KwMut else KwLet, name, ty, e)
    ensures i < j < |ts| && !IsSpace(ts[j].kind)
    ensures ParseStatement(ts, St(i, errs)) == StmtResult(Some(if mutable then Mut(name, ty, e) else Let(name, ty, e)), St(j, errs))
  {
    hide TypeAt, LastAt, ParseExpr, Skip, ParseStatement, ParseTypeRef, ParseVar, ParseVarRest, StartsArg;
    var k: nat :| TypeAt(ts, i + 2, k, ty) && Is(ts, k, TokenKind.Eq) && LastAt(ts, k + 1, j, e);
    TypeParsed(ts, i + 2, k, errs, ty);
    LastParsed(ts, k + 1, j, errs, e);
    RoundTrip.VarRestStep(ts, i + 2, errs, name, mutable, ty, k);
    RoundTrip.VarStep(ts, i, errs, mutable);
    RoundTrip.DispatchVar(ts, St(i, errs), mutable);
  }

  lemma {:induction false} AssignParsed(ts: seq<Token>, i: nat, j: nat, errs: seq<string>, name: string, e: Expr)
    requires Stream(ts) && StmtAt(ts, i, j, Assign(name, e))
    ensures i < j < |ts| && !IsSpace(ts[j].kind)
    ensures ParseStatement(ts, St(i, errs)) == StmtResult(Some(Assign(name, e)), St(j, errs))
  {
    hide LastAt, ParseExpr, Skip, ParseStatement, StartsArg;
    LastParsed(ts, i + 2, j, errs, e);
    RoundTrip.AssignStep(ts, i, errs);
  }

  lemma {:induction false} RetParsed(ts: seq<Token>, i: nat, j: nat, errs: seq<string>, result: Option<Expr>)
    requires Stream(ts) && StmtAt(ts, i, j, Ret(result))
    ensures i < j < |ts| && !IsSpace(ts[j].kind)
    ensures ParseStatement(ts, St(i, errs)) == StmtResult(Some(Ret(result)), St(j, errs))
  {
    hide LastAt, Spaces, ParseExpr, Skip, ParseStatement, StartsArg;
    More(ts, i, KwRet);
    match result
    case None =>
      SpacesSkipped(ts, i + 1, j, errs);
      SpacesEnd(ts, i + 1, j);
      RoundTrip.Dispatch(ts, St(i, errs));
    case Some(e) =>
      LastParsed(ts, i + 1, j, errs, e);
      RoundTrip.NoBoundary(ts[i + 1].kind);
      RoundTrip.Dispatch(ts, St(i, errs));
  }

  lemma {:induction false} ExprStmtParsed(ts: seq<Token>, i: nat, j: nat, errs: seq<string>, e: Expr)
    requires Stream(ts) && StmtAt(ts, i, j, ExprStmt(e))
    ensures i < j < |ts| && !IsSpace(ts[j].kind)
    ensures ParseStatement(ts, St(i, errs)) == StmtResult(Some(ExprStmt(e)), St(j, errs))
  {
    hide LastAt, ParseExpr, Skip, ParseStatement, StartsArg;
    LastParsed(ts, i, j, errs, e);
    ExprStmtDispatch(ts, St(i, errs));
  }

  lemma {:induction false} ExprStmtDispatch(ts: seq<Token>, s: St)
    requires On(ts, s) && StartsArg(Kind(ts, s)) && !(Is(ts, s.i, TokenKind.Ident) && Is(ts, s.i + 1, TokenKind.Eq))
    ensures ParseStatement(ts, s) == ParseExprStmt(ts, s)
  {
    hide ParseExpr, Skip, ParseStatement, ParseExprStmt;
    RoundTrip.NoBoundary(Kind(ts, s));
    RoundTrip.Dispatch(ts, s);
  }

  lemma {:induction false} JumpParsed(ts: seq<Token>, i: nat, j: nat, errs: seq<string>, s: Stmt)
    requires Stream(ts) && (s.Break? || s.Continue?) && StmtAt(ts, i, j, s)
    ensures i < j < |ts| && !IsSpace(ts[j].kind)
    ensures ParseStatement(ts, St(i, errs)) == StmtResult(Some(s), St(j, errs))
  {
    hide Spaces, Skip, ParseStatement;
    More(ts, i, if s.Break? then KwBreak else KwContinue);
    SpacesSkipped(ts, i + 1, j, errs);
    SpacesEnd(ts, i + 1, j);
    RoundTrip.Dispatch(ts, St(i, errs));
  }

  lemma {:induction false} EndParsed(ts: seq<Token>, i: nat, j: nat, errs: seq<string>)
    requires Stream(ts) && EndAt(ts, i, j)
    ensures i < j < |ts| && !IsSpace(ts[j].kind) && ts[i].kind == KwEnd && EndBlock(ts, St(i, errs)) == St(j, errs)
  {
    hide Spaces, Skip;
    More(ts, i, KwEnd);
    SpacesSkipped(ts, i + 1, j, errs);
    SpacesEnd(ts, i + 1, j);
  }

  // ----- blocks -----

  lemma {:induction false} BodyParsed(ts: seq<Token>, i: nat, j: nat, errs: seq<string>, b: Block)
    requires Stream(ts) && BodyAt(ts, i, j, b)
    ensures i < j < |ts| && ts[i].kind == Arrow
    ensures ParseBlock(ts, OpenBlock(ts, St(i, errs))) == BlockResult(b, St(j, errs))
    decreases b, 3
  {
    hide Spaces, BlockAt, BlockRest, ParseBlock, OpenBlock;
    var q: nat :| Spaces(ts, i + 1, q) && BlockAt(ts, q, j, b);
    OpenParsed(ts, i, q, errs);
    BlockParsed(ts, q, j, errs, b);
  }

  /** From the arrow to the first statement. */
  lemma {:induction false} OpenParsed(ts: seq<Token>, i: nat, q: nat, errs: seq<string>)
    requires Stream(ts) && Is(ts, i, Arrow) && Spaces(ts, i + 1, q)
    ensures i < q < |ts| && !IsSpace(ts[q].kind) && ParseBlock(ts, OpenBlock(ts, St(i, errs))) == BlockRest(ts, St(q, errs))
  {
    hide Spaces, Skip, BlockRest, Skim;
    More(ts, i, Arrow);
    SkimTakes(ts, St(i, errs), Arrow);
    SpacesSkipped(ts, i + 1, q, errs);
    SpacesEnd(ts, i + 1, q);
    RoundTrip.SkipNothing(ts, q, errs);
  }

  lemma {:induction false} BlockParsed(ts: seq<Token>, i: nat, j: nat, errs: seq<string>, b: Block)
    requires Stream(ts) && i < |ts| && !IsSpace(ts[i].kind) && BlockAt(ts, i, j, b)
    ensures i <= j < |ts| && EndsBlock(ts[j].kind)
    ensures BlockRest(ts, St(i, errs)) == BlockResult(b, St(j, errs))
    decreases b, 2
  {
    hide StmtAt, BlockRest, ParseStatement, Skip;
    if b == [] {
      RoundTrip.EndOfBlock(ts, St(i, errs));
    } else {
      var k: nat :| StmtAt(ts, i, k, b[0]) && BlockAt(ts, k, j, b[1..]);
      StmtParsed(ts, i, k, errs, b[0]);
      RoundTrip.SkipNothing(ts, k, errs);
      RoundTrip.StepBlock(ts, St(i, errs));
      BlockParsed(ts, k, j, errs, b[1..]);
      assert b == [b[0]] + b[1..];
    }
  }

  lemma {:induction false} StmtParsed(ts: seq<Token>, i: nat, j: nat, errs: seq<string>, s: Stmt)
    requires Stream(ts) && StmtAt(ts, i, j, s)
    ensures i < j < |ts| && !IsSpace(ts[j].kind) && !EndsBlock(ts[i].kind)
    ensures ParseStatement(ts, St(i, errs)) == StmtResult(Some(s), St(j, errs))
    decreases s, 1
  {
    StmtStart(ts, i, j, s);
    hide StmtAt, ParseStatement;
    match s
    case Let(name, ty, e) => VarParsed(ts, i, j, errs, false, name, ty, e);
    case Mut(name, ty, e) => VarParsed(ts, i, j, errs, true, name, ty, e);
    case Assign(name, e) => AssignParsed(ts, i, j, errs, name, e);
    case Ret(result) => RetParsed(ts, i, j, errs, result);
    case If(_, _, _) => IfParsed(ts, i, j, errs, s);
    case Loop(_) => LoopParsed(ts, i, j, errs, s);
    case UnsafeBlock(_) => LoopParsed(ts, i, j, errs, s);
    case While(_, _) => WhileParsed(ts, i, j, errs, s);
    case ExprStmt(e) => ExprStmtParsed(ts, i, j, errs, e);
    case _ => JumpParsed(ts, i, j, errs, s);
  }

  lemma {:induction false} StmtStart(ts: seq<Token>, i: nat, j: nat, s: Stmt)
    requires Stream(ts) && StmtAt(ts, i, j, s)
    ensures i < |ts| && !EndsBlock(ts[i].kind) && !s.ErrorStmt?
    ensures s.Let? ==> VarAt(ts, i, j, KwLet, s.name, s.ty, s.init)
    ensures s.Mut? ==> VarAt(ts, i, j, KwMut, s.name, s.ty, s.init)
  {
    hide BodyAt, ArmAt, EndAt, VarAt, BlockAt, LastAt, Spaces, ExprAt, ParseExpr, Skip, StartsArg;
    if s.ExprStmt? {
      LastParsed(ts, i, j, [], s.expr);
      RoundTrip.NoBoundary(ts[i].kind);
    } else if s.Let? {
      VarStarts(ts, i, j, KwLet, s.name, s.ty, s.init);
    } else if s.Mut? {
      VarStarts(ts, i, j, KwMut, s.name, s.ty, s.init);
    }
  }

  lemma {:induction false} VarStarts(ts: seq<Token>, i: nat, j: nat, keyword: TokenKind, name: string, ty: string, e: Expr)
    requires VarAt(ts, i, j, keyword, name, ty, e)
    ensures Is(ts, i, keyword)
  {}

  lemma {:induction false} LoopIs(ts: seq<Token>, i: nat, j: nat, s: Stmt)
    requires s.Loop? || s.UnsafeBlock?
    ensures StmtAt(ts, i, j, s) <==>
      (Is(ts, i, if s.Loop? then KwLoop else KwUnsafe) && exists k: nat :: BodyAt(ts, i + 1, k, s.body) && EndAt(ts, k, j))
  {
    hide BodyAt, EndAt;
  }

  lemma {:induction false} WhileParts(ts: seq<Token>, i: nat, j: nat, s: Stmt) returns (m: nat, k: nat)
    requires s.While? && StmtAt(ts, i, j, s)
    ensures Is(ts, i, KwWhile) && ExprAt(ts, i + 1, m, s.cond) && BodyAt(ts, m, k, s.body) && EndAt(ts, k, j)
  {
    hide ExprAt, BodyAt, EndAt;
    m, k :| ExprAt(ts, i + 1, m, s.cond) && BodyAt(ts, m, k, s.body) && EndAt(ts, k, j);
  }

  lemma {:induction false} WhileMade(ts: seq<Token>, i: nat, m: nat, k: nat, j: nat, s: Stmt)
    requires s.While? && Is(ts, i, KwWhile) && ExprAt(ts, i + 1, m, s.cond) && BodyAt(ts, m, k, s.body) && EndAt(ts, k, j)
    ensures StmtAt(ts, i, j, s)
  {
    hide ExprAt, BodyAt, EndAt;
  }

  lemma {:induction false} LoopParsed(ts: seq<Token>, i: nat, j: nat, errs: seq<string>, s: Stmt)
    requires Stream(ts) && (s.Loop? || s.UnsafeBlock?) && StmtAt(ts, i, j, s)
    ensures i < j < |ts| && !IsSpace(ts[j].kind)
    ensures ParseStatement(ts, St(i, errs)) == StmtResult(Some(s), St(j, errs))
    decreases s, 0
  {
    hide StmtAt, BodyAt, EndAt, ParseBlock, OpenBlock, EndBlock, ParseStatement;
    LoopIs(ts, i, j, s);
    var k: nat :| BodyAt(ts, i + 1, k, s.body) && EndAt(ts, k, j);
    BodyParsed(ts, i + 1, k, errs, s.body);
    EndParsed(ts, k, j, errs);
    RoundTrip.LoopStep(ts, i, errs, s.Loop?);
  }

  lemma {:induction false} WhileParsed(ts: seq<Token>, i: nat, j: nat, errs: seq<string>, s: Stmt)
    requires Stream(ts) && s.While? && StmtAt(ts, i, j, s)
    ensures i < j < |ts| && !IsSpace(ts[j].kind)
    ensures ParseStatement(ts, St(i, errs)) == StmtResult(Some(s), St(j, errs))
    decreases s, 0
  {
    hide StmtAt, ExprAt, BodyAt, EndAt, ParseBlock, OpenBlock, EndBlock, ParseStatement, ParseExpr, StartsArg;
    var m, k := WhileParts(ts, i, j, s);
    ExprParsed(ts, i + 1, m, errs, s.cond);
    BodyParsed(ts, m, k, errs, s.body);
    EndParsed(ts, k, j, errs);
    RoundTrip.WhileStep(ts, i, errs);
  }

  lemma {:induction false} ArmParsed(ts: seq<Token>, i: nat, j: nat, errs: seq<string>, arm: ElseArm)
    requires Stream(ts) && i < |ts| && ArmAt(ts, i, j, arm)
    ensures i <= j < |ts| && ParseElse(ts, St(i, errs)) == ArmResult(arm, St(j, errs))
    decreases arm, 0
  {
    hide BodyAt, ParseBlock, OpenBlock;
    match arm
    case NoElse =>
    case Else(b) =>
      More(ts, i, KwElse);
      BodyParsed(ts, i + 1, j, errs, b);
  }

  lemma {:induction false} IfParsed(ts: seq<Token>, i: nat, j: nat, errs: seq<string>, s: Stmt)
    requires Stream(ts) && s.If? && StmtAt(ts, i, j, s)
    ensures i < j < |ts| && !IsSpace(ts[j].kind)
    ensures ParseStatement(ts, St(i, errs)) == StmtResult(Some(s), St(j, errs))
    decreases s, 0
  {
    hide ExprAt, BodyAt, ArmAt, EndAt, ParseBlock, OpenBlock, EndBlock, ParseStatement, ParseExpr, ParseElse, StartsArg, StmtAt;
    var m, k, p := IfParts(ts, i, j, s);
    ExprParsed(ts, i + 1, m, errs, s.cond);
    BodyParsed(ts, m, k, errs, s.thenBlock);
    ArmParsed(ts, k, p, errs, s.elseArm);
    EndParsed(ts, p, j, errs);
    RoundTrip.IfStep(ts, i, errs);
  }

  lemma {:induction false} IfParts(ts: seq<Token>, i: nat, j: nat, s: Stmt) returns (m: nat, k: nat, p: nat)
    requires s.If? && StmtAt(ts, i, j, s)
    ensures Is(ts, i, KwIf) && ExprAt(ts, i + 1, m, s.cond) && BodyAt(ts, m, k, s.thenBlock)
    ensures ArmAt(ts, k, p, s.elseArm) && EndAt(ts, p, j)
  {
    hide ExprAt, BodyAt, ArmAt, EndAt;
    m, k, p :| ExprAt(ts, i + 1, m, s.cond) && BodyAt(ts, m, k, s.thenBlock) && ArmAt(ts, k, p, s.elseArm) && EndAt(ts, p, j);
  }

  // ----- items -----

  lemma {:induction false} ParamsParsed(ts: seq<Token>, i: nat, j: nat, errs: seq<string>, params: seq<Param>)
    requires Stream(ts) && ParamsAt(ts, i, j, params)
    ensures i <= j < |ts| && ParseParams(ts, St(i, errs)) == ParamsResult(params, St(j, errs))
    decreases params
  {
    hide TypeAt, ParseParams, ParseTypeRef;
    if params == [] {
      RoundTrip.NoParams(ts, i, errs);
    } else {
      var k: nat :| TypeAt(ts, i + 1, k, params[0].ty) && ParamsAt(ts, k, j, params[1..]);
      TypeParsed(ts, i + 1, k, errs, params[0].ty);
      ParamsParsed(ts, k, j, errs, params[1..]);
      RoundTrip.ParamStep(ts, i, errs, params[0].ty, k);
      assert params == [params[0]] + params[1..];
    }
  }

  lemma {:induction false} FnParsed(ts: seq<Token>, i: nat, j: nat, errs: seq<string>, f: FnDecl)
    requires Stream(ts) && FnAt(ts, i, j, f)
    ensures i + 1 < j < |ts| && ts[i].kind == KwFn
    ensures ParseNamedFn(ts, St(i + 1, errs), f.isUnsafe) == ItemResult(Some(Fn(f)), St(j, errs))
  {
    hide ParamsAt, ReturnsAt, ParseNamedFn, ParseFnRest, ParseParams;
    var k: nat :| ParamsAt(ts, i + 2, k, f.params) && ReturnsAt(ts, k, j, f);
    ParamsParsed(ts, i + 2, k, errs, f.params);
    ReturnsParsed(ts, k, j, errs, f);
    RoundTrip.NamedFnStep(ts, i + 1, errs, f.isUnsafe, f.params, k);
  }

  lemma {:induction false} ReturnsParsed(ts: seq<Token>, i: nat, j: nat, errs: seq<string>, f: FnDecl)
    requires Stream(ts) && ReturnsAt(ts, i, j, f)
    ensures i + 1 < j < |ts| && ts[i].kind == Arrow
    ensures ParseFnRest(ts, St(i + 1, errs), f.name, f.params, f.isUnsafe) == ItemResult(Some(Fn(f)), St(j, errs))
  {
    hide TypeAt, Spaces, BlockAt, EndAt, ParseFnRest, ParseTypeRef, BlockRest, EndBlock, Skip;
    var m: nat, q: nat, p: nat :| TypeAt(ts, i + 1, m, f.ret) && Spaces(ts, m, q) && BlockAt(ts, q, p, f.body) && EndAt(ts, p, j);
    TypeParsed(ts, i + 1, m, errs, f.ret);
    SpacesSkipped(ts, m, q, errs);
    SpacesEnd(ts, m, q);
    RoundTrip.SkipNothing(ts, q, errs);
    BlockParsed(ts, q, p, errs, f.body);
    EndParsed(ts, p, j, errs);
    RoundTrip.FnRestStep(ts, i + 1, errs, f.name, f.params, f.isUnsafe, f.ret, m);
  }

  lemma {:induction false} PathParsed(ts: seq<Token>, i: nat, j: nat, errs: seq<string>, p: Path)
    requires Stream(ts) && PathAt(ts, i, j, p)
    ensures i < j < |ts| && ParsePath(ts, St(i, errs)) == PathResult(Some(p), St(j, errs))
  {
    hide Spelled, PathText, ContinuesPath, ParsePath, CanonicalPath;
    assert Here(ts, i, PathText(p), ts[j].kind);
    PathReads(ts, i, errs, p, ts[j].kind);
  }

  lemma {:induction false} ItemParsed(ts: seq<Token>, i: nat, j: nat, errs: seq<string>, item: Item)
    requires Stream(ts) && ItemAt(ts, i, j, item)
    ensures i < j < |ts| && !IsSpace(ts[j].kind) && ts[i].kind != Eof && !IsSpace(ts[i].kind)
    ensures ItemStep(ts, St(i, errs)) == ItemResult(Some(item), St(j, errs))
  {
    hide ItemAt, ItemStep;
    if item.Use? {
      UseParsed(ts, i, j, errs, item);
    } else {
      FnItemParsed(ts, i, j, errs, item);
    }
  }

  lemma {:induction false} UseParsed(ts: seq<Token>, i: nat, j: nat, errs: seq<string>, item: Item)
    requires Stream(ts) && item.Use? && ItemAt(ts, i, j, item)
    ensures i < j < |ts| && !IsSpace(ts[j].kind) && ts[i].kind == KwUse
    ensures ItemStep(ts, St(i, errs)) == ItemResult(Some(item), St(j, errs))
  {
    hide PathAt, Spaces, FnAt, ParsePath, ParseUse, Skip, ItemStep;
    var m: nat :| PathAt(ts, i + 1, m, item.path) && Spaces(ts, m, j);
    PathParsed(ts, i + 1, m, errs, item.path);
    SpacesSkipped(ts, m, j, errs);
    SpacesEnd(ts, m, j);
    RoundTrip.UseStep(ts, i, errs);
    RoundTrip.SkipNothing(ts, j, errs);
    RoundTrip.ItemDispatch(ts, St(i, errs));
  }

  lemma {:induction false} FnItemParsed(ts: seq<Token>, i: nat, j: nat, errs: seq<string>, item: Item)
    requires Stream(ts) && item.Fn? && ItemAt(ts, i, j, item)
    ensures i < j < |ts| && !IsSpace(ts[j].kind) && (ts[i].kind == KwFn || ts[i].kind == KwUnsafe)
    ensures ItemStep(ts, St(i, errs)) == ItemResult(Some(item), St(j, errs))
  {
    hide PathAt, Spaces, FnAt, ParseFnItem, ParseNamedFn, Skip, ItemStep;
    var f := item.decl;
    var start := if f.isUnsafe then i + 1 else i;
    FnParsed(ts, start, j, errs, f);
    FnEnds(ts, start, j, f);
    RoundTrip.FnItemStep(ts, St(i, errs), f.isUnsafe);
    RoundTrip.ItemDispatch(ts, St(i, errs));
    RoundTrip.SkipNothing(ts, j, errs);
  }

  lemma {:induction false} FnEnds(ts: seq<Token>, i: nat, j: nat, f: FnDecl)
    requires Stream(ts) && FnAt(ts, i, j, f)
    ensures i + 2 < |ts| && j < |ts| && !IsSpace(ts[j].kind) && ts[i].kind == KwFn
  {
    hide ParamsAt, ReturnsAt;
    var k: nat :| ParamsAt(ts, i + 2, k, f.params) && ReturnsAt(ts, k, j, f);
    ReturnsEnd(ts, k, j, f);
    More(ts, i + 1, TokenKind.Ident);
  }

  lemma {:induction false} ReturnsEnd(ts: seq<Token>, i: nat, j: nat, f: FnDecl)
    requires Stream(ts) && ReturnsAt(ts, i, j, f)
    ensures j < |ts| && !IsSpace(ts[j].kind)
  {
    hide TypeAt, BlockAt, Spaces, EndAt, EndBlock;
    var m: nat, q: nat, p: nat :| TypeAt(ts, i + 1, m, f.ret) && Spaces(ts, m, q) && BlockAt(ts, q, p, f.body) && EndAt(ts, p, j);
    EndParsed(ts, p, j, []);
  }

  lemma {:induction false} ItemsParsed(ts: seq<Token>, i: nat, errs: seq<string>, items: seq<Item>)
    requires Stream(ts) && ItemsAt(ts, i, items)
    ensures i < |ts| && ItemsFrom(ts, St(i, errs)) == Parsed(items, errs)
    decreases items
  {
    hide ItemAt, ItemsFrom, ItemStep;
    if items == [] {
      NoItemsParsed(ts, i, errs);
    } else {
      var j: nat :| ItemAt(ts, i, j, items[0]) && ItemsAt(ts, j, items[1..]);
      ItemParsed(ts, i, j, errs, items[0]);
      ItemsParsed(ts, j, errs, items[1..]);
      RoundTrip.ItemsStep(ts, St(i, errs));
      assert items == [items[0]] + items[1..];
    }
  }

  lemma {:induction false} NoItemsParsed(ts: seq<Token>, i: nat, errs: seq<string>)
    requires Stream(ts) && Is(ts, i, Eof)
    ensures ItemsFrom(ts, St(i, errs)) == Parsed([], errs)
  {}

  lemma {:induction false} DerivedParses(ts: seq<Token>, items: seq<Item>)
    requires Stream(ts) && Derives(ts, items)
    ensures Parse(ts) == Parsed(items, [])
  {
    hide Spaces, ItemsAt, ItemsFrom, Skip;
    var j: nat :| Spaces(ts, 0, j) && ItemsAt(ts, j, items);
    SpacesSkipped(ts, 0, j, []);
    ItemsParsed(ts, j, [], items);
  }

  // ----- what is parsed silently is derived so -----

  /** What was reported stays reported. */
  predicate Keeps(s: St, t: St) {
    t.errs == [] ==> s.errs == []
  }

  lemma {:induction false} ReportKeeps(s: St, code: string)
    ensures Report(s, code).errs != [] && Report(s, code).i == s.i
  {}

  lemma {:induction false} ExpectKeeps(ts: seq<Token>, s: St, kind: TokenKind)
    requires On(ts, s)
    ensures var e := Expect(ts, s, kind);
      e.s.errs == [] ==> e.ok && s.errs == [] && Is(ts, s.i, kind) && (kind != Eof ==> e.s.i == s.i + 1)
  {}

  lemma {:induction false} SkimKeeps(ts: seq<Token>, s: St, kind: TokenKind)
    requires On(ts, s) && kind != Eof
    ensures var t := Skim(ts, s, kind); t.errs == [] ==> s.errs == [] && Is(ts, s.i, kind) && t.i == s.i + 1
  {}

  lemma {:induction false} SkipsSpaces(ts: seq<Token>, s: St)
    requires On(ts, s)
    ensures Spaces(ts, s.i, Skip(ts, s).i) && Skip(ts, s).errs == s.errs
    decreases |ts| - s.i
  {
    if IsSpace(Kind(ts, s)) {
      SkipsSpaces(ts, Bump(ts, s));
    }
  }

  lemma {:induction false} SpelledToken(ts: seq<Token>, i: nat, p: Spelling)
    requires i < |ts| && Matches(ts[i], p)
    ensures Spelled(ts, i, [p])
  {}

  lemma {:induction false} PathEnds(ts: seq<Token>, s: St, done: seq<string>, sep: PathSep)
    requires On(ts, s) && done != []
    ensures SeparatorAt(Kind(ts, s)).None? ==> PathRest(ts, s, done, sep) == Segments(Path(done, sep), s)
    ensures SeparatorAt(Kind(ts, s)).Some? && sep != Single && sep != SeparatorAt(Kind(ts, s)).value ==> PathRest(ts, s, done, sep).s.errs != []
  {
    hide Expect;
    ReportKeeps(s, "E0206");
  }

  lemma {:induction false} PathStep(ts: seq<Token>, s: St, done: seq<string>, sep: PathSep)
    requires On(ts, s) && done != [] && SeparatorAt(Kind(ts, s)).Some? && (sep == Single || sep == SeparatorAt(Kind(ts, s)).value)
    ensures s.i + 1 < |ts|
    ensures Is(ts, s.i + 1, TokenKind.Ident) ==> (
      s.i + 2 < |ts|
      && PathRest(ts, s, done, sep) == PathRest(ts, St(s.i + 2, s.errs), done + [ts[s.i + 1].lexeme], SeparatorAt(Kind(ts, s)).value))
    ensures !Is(ts, s.i + 1, TokenKind.Ident) ==> PathRest(ts, s, done, sep).s.errs != []
  {
    hide Expect;
    var t := Bump(ts, s);
    ExpectKeeps(ts, t, TokenKind.Ident);
    ExpectIs(ts, t, TokenKind.Ident);
  }

  lemma {:induction false} ExpectIs(ts: seq<Token>, s: St, kind: TokenKind)
    requires On(ts, s) && kind != Eof
    ensures Kind(ts, s) == kind ==> s.i + 1 < |ts| && Expect(ts, s, kind) == Expected(true, St(s.i + 1, s.errs))
    ensures Kind(ts, s) != kind ==> !Expect(ts, s, kind).ok && Expect(ts, s, kind).s.errs != []
  {
    ReportKeeps(s, "E0206");
  }

  /** A path read silently, and what ends it. */
  lemma {:induction false} PathRestDerived(ts: seq<Token>, s: St, done: seq<string>, sep: PathSep) returns (more: seq<string>)
    requires On(ts, s) && done != [] && (|done| == 1 <==> sep == Single)
    ensures var r := PathRest(ts, s, done, sep);
      r.s.errs == [] ==>
        && s.errs == [] && r.path.segments == done + more && (more == [] ==> r.path.sep == sep) && CanonicalPath(r.path)
        && (sep != Single ==> r.path.sep == sep)
        && Spelled(ts, s.i, SegmentsText(more, r.path.sep)) && r.s.i == s.i + |SegmentsText(more, r.path.sep)|
        && !ContinuesPath(Kind(ts, r.s))
    decreases |ts| - s.i
  {
    hide PathRest, FixedText, Spelled, ContinuesPath, SeparatorAt;
    more := [];
    NothingSpelled(ts, s.i);
    PathGoesOn(Kind(ts, s));
    PathEnds(ts, s, done, sep);
    match SeparatorAt(Kind(ts, s))
    case None => assert done + [] == done;
    case Some(next) =>
      if sep == Single || sep == next {
        PathStep(ts, s, done, sep);
        if Is(ts, s.i + 1, TokenKind.Ident) {
          var segment := ts[s.i + 1].lexeme;
          SeparatorIsOne(Kind(ts, s));
          var rest := PathRestDerived(ts, St(s.i + 2, s.errs), done + [segment], next);
          more := [segment] + rest;
          assert done + [segment] + rest == done + more;
          if PathRest(ts, s, done, sep).s.errs == [] {
            SegmentSpelled(ts, s.i, next, segment, rest);
          }
        }
      }
  }

  lemma {:induction false} SeparatorIsOne(kind: TokenKind)
    ensures SeparatorAt(kind) != Some(Single)
  {}

  lemma {:induction false} NothingSpelled(ts: seq<Token>, i: nat)
    requires i <= |ts|
    ensures Spelled(ts, i, [])
  {}

  lemma {:induction false} PathGoesOn(kind: TokenKind)
    ensures ContinuesPath(kind) <==> SeparatorAt(kind).Some?
  {}

  lemma {:induction false} SegmentSpelled(ts: seq<Token>, i: nat, sep: PathSep, segment: string, rest: seq<string>)
    requires sep != Single && i + 1 < |ts| && SeparatorAt(ts[i].kind) == Some(sep) && Is(ts, i + 1, TokenKind.Ident) && ts[i + 1].lexeme == segment
    requires Spelled(ts, i + 2, SegmentsText(rest, sep))
    ensures Spelled(ts, i, SegmentsText([segment] + rest, sep)) && |SegmentsText([segment] + rest, sep)| == 2 + |SegmentsText(rest, sep)|
  {
    hide FixedText;
    assert ([segment] + rest)[1..] == rest;
    var ps := [SepSpelling(sep), NameSpelling(segment)];
    forall k | 0 <= k < |ps|
      ensures Matches(ts[i + k], ps[k])
    {}
    SpelledSplit(ts, i, ps, SegmentsText(rest, sep));
  }

  lemma {:induction false} PathDerived(ts: seq<Token>, s: St)
    requires On(ts, s) && Kind(ts, s) == TokenKind.Ident
    ensures var r := ParsePath(ts, s); r.s.errs == [] ==> s.errs == [] && r.path.Some? && PathAt(ts, s.i, r.s.i, r.path.value)
  {
    hide PathRest, FixedText;
    var e := Expect(ts, s, TokenKind.Ident);
    ExpectKeeps(ts, s, TokenKind.Ident);
    var name := ts[s.i].lexeme;
    var more := PathRestDerived(ts, e.s, [name], Single);
    var r := ParsePath(ts, s);
    if r.s.errs == [] {
      var p := r.path.value;
      assert p.segments == [name] + more && p.segments[1..] == more;
      SpelledToken(ts, s.i, NameSpelling(name));
      SpelledSplit(ts, s.i, [NameSpelling(name)], SegmentsText(more, p.sep));
    }
  }

  // ----- expressions -----

  /** Where nothing is reported, nothing was before, and the tokens read are the tree's. */
  ghost predicate Read(ts: seq<Token>, s: St, r: ExprResult, c: Cst)
    requires r.s.i < |ts|
  {
    r.s.errs == [] ==> s.errs == [] && Spelled(ts, s.i, TreeText(c)) && r.s.i == s.i + |TreeText(c)| && Meaning(c) == r.e
  }

  /** A tree in argument position. */
  ghost predicate UnitRead(ts: seq<Token>, s: St, r: ExprResult, c: Cst)
    requires r.s.i < |ts|
  {
    Read(ts, s, r, c) && (r.s.errs == [] ==> ArgFits(c) && ArgStops(c, Kind(ts, r.s)))
  }

  /** A tree that operators may follow. */
  ghost predicate TreeRead(ts: seq<Token>, s: St, r: ExprResult, c: Cst, min: nat)
    requires r.s.i < |ts|
  {
    Read(ts, s, r, c) && (r.s.errs == [] ==> Fits(c, min) && Stops(c, Kind(ts, r.s)))
  }

  ghost predicate WholeRead(ts: seq<Token>, s: St, r: ExprResult, c: Cst, min: nat)
    requires r.s.i < |ts|
  {
    TreeRead(ts, s, r, c, min) && (r.s.errs == [] ==> OperatorStops(min, Kind(ts, r.s)))
  }

  ghost predicate ArgsRead(ts: seq<Token>, s: St, r: ArgsResult, cs: seq<Cst>)
    requires r.s.i < |ts|
  {
    r.s.errs == [] ==>
      && s.errs == [] && Spelled(ts, s.i, ArgsText(cs)) && r.s.i == s.i + |ArgsText(cs)| && Meanings(cs) == r.args
      && ArgsFit(cs) && !StartsArg(Kind(ts, r.s)) && (cs != [] ==> ArgStops(cs[|cs| - 1], Kind(ts, r.s)))
  }

  /** The literal that a token is. */
  function LiteralOf(t: Token): Cst {
    match t.kind
    case IntLit => IntText(t.lexeme)
    case StrLit => StrText(t.lexeme)
    case KwTrue => Truth(true)
    case _ => Truth(false)
  }

  lemma {:induction false} LiteralTree(ts: seq<Token>, i: nat)
    requires i < |ts| && ts[i].kind in {TokenKind.IntLit, TokenKind.StrLit, KwTrue, KwFalse}
    ensures var c := LiteralOf(ts[i]); Spelled(ts, i, TreeText(c)) && |TreeText(c)| == 1 && ArgFits(c) && forall next :: ArgStops(c, next)
  {
    var c := LiteralOf(ts[i]);
    hide FixedText;
    assert TreeText(c) == [TreeText(c)[0]];
    SpelledToken(ts, i, TreeText(c)[0]);
  }

  lemma {:induction false} LiteralStep(ts: seq<Token>, s: St)
    requires On(ts, s) && Kind(ts, s) !in {TokenKind.Ident, LParen}
    ensures var text := ts[s.i].lexeme;
      match Kind(ts, s)
      case IntLit => ParsePrimary(ts, s) == ExprResult(Meaning(IntText(text)), Bump(ts, s))
      case StrLit => ParsePrimary(ts, s) == ExprResult(Meaning(StrText(text)), Bump(ts, s))
      case KwTrue => ParsePrimary(ts, s) == ExprResult(BoolLit(true), Bump(ts, s))
      case KwFalse => ParsePrimary(ts, s) == ExprResult(BoolLit(false), Bump(ts, s))
      case _ => ParsePrimary(ts, s).s.errs != []
  {
    ReportKeeps(Bump(ts, s), "E0206");
    hide ParseExpr, ParsePath, ParseIntValue, StringLiterals.Decode, Report;
  }

  lemma {:induction false} LiteralDerived(ts: seq<Token>, s: St) returns (c: Cst)
    requires On(ts, s) && Kind(ts, s) !in {TokenKind.Ident, LParen}
    ensures UnitRead(ts, s, ParsePrimary(ts, s), c)
  {
    LiteralStep(ts, s);
    hide ParsePrimary, ParseIntValue, StringLiterals.Decode, TreeText, Spelled, ArgFits, ArgStops;
    c := LiteralOf(ts[s.i]);
    if ParsePrimary(ts, s).s.errs == [] {
      More(ts, s.i, Kind(ts, s));
      LiteralTree(ts, s.i);
    }
  }

  lemma {:induction false} NameDerived(ts: seq<Token>, s: St) returns (c: Cst)
    requires On(ts, s) && Kind(ts, s) == TokenKind.Ident
    ensures UnitRead(ts, s, ParsePrimary(ts, s), c)
  {
    hide ParseExpr, ParsePath, ParseIntValue, StringLiterals.Decode, Spelled, PathText, CanonicalPath, ContinuesPath;
    PathDerived(ts, s);
    var r := ParsePath(ts, s);
    c := Name(r.path.value);
    if r.s.errs == [] {
      NameOfPath(r.path.value);
    }
  }

  lemma {:induction false} ParenDerived(ts: seq<Token>, s: St) returns (c: Cst)
    requires On(ts, s) && Kind(ts, s) == LParen
    ensures UnitRead(ts, s, ParsePrimary(ts, s), c)
    decreases |ts| - s.i, 0
  {
    hide ParseExpr, Skim, Fits, Stops, TreeText, Spelled, OperatorStops, Meaning, ParsePrimary;
    More(ts, s.i, LParen);
    PrimaryParen(ts, s);
    var t := Bump(ts, s);
    var inner := ExprDerived(ts, t, 0);
    var x := ParseExpr(ts, t, 0);
    SkimKeeps(ts, x.s, RParen);
    c := Paren(inner);
    if ParsePrimary(ts, s).s.errs == [] {
      ParenTree(ts, s.i, x.s.i, inner);
    }
  }

  lemma {:induction false} ParenTree(ts: seq<Token>, i: nat, j: nat, c: Cst)
    requires Is(ts, i, LParen) && Spelled(ts, i + 1, TreeText(c)) && j == i + 1 + |TreeText(c)| && Is(ts, j, RParen) && Fits(c, 0)
    ensures Spelled(ts, i, TreeText(Paren(c))) && |TreeText(Paren(c))| == |TreeText(c)| + 2 && Meaning(Paren(c)) == Meaning(c)
    ensures ArgFits(Paren(c)) && forall next :: ArgStops(Paren(c), next)
  {
    hide FixedText, Fits, Spelled, Meaning;
    SpelledToken(ts, i, Fixed(LParen));
    SpelledToken(ts, j, Fixed(RParen));
    SpelledSplit(ts, i + 1, TreeText(c), [Fixed(RParen)]);
    SpelledSplit(ts, i, [Fixed(LParen)], TreeText(c) + [Fixed(RParen)]);
    ParenFits(c);
  }

  lemma {:induction false} ParenFits(c: Cst)
    requires Fits(c, 0)
    ensures ArgFits(Paren(c)) && Meaning(Paren(c)) == Meaning(c) && forall next :: ArgStops(Paren(c), next)
  {}

  lemma {:induction false} PrefixedTree(ts: seq<Token>, i: nat, op: UnaryOp, c: Cst)
    requires Is(ts, i, PrefixKind(op)) && Spelled(ts, i + 1, TreeText(c)) && Fits(c, 8)
    ensures Spelled(ts, i, TreeText(Prefixed(op, c))) && |TreeText(Prefixed(op, c))| == 1 + |TreeText(c)|
    ensures ArgFits(Prefixed(op, c)) && Meaning(Prefixed(op, c)) == Unary(op, Meaning(c))
    ensures forall next :: ArgStops(Prefixed(op, c), next) <==> Stops(c, next) && OperatorStops(8, next)
  {
    hide FixedText, Spelled, Stops, OperatorStops;
    SpelledToken(ts, i, Fixed(PrefixKind(op)));
    SpelledSplit(ts, i, [Fixed(PrefixKind(op))], TreeText(c));
  }

  lemma {:induction false} PrefixDerived(ts: seq<Token>, s: St) returns (c: Cst)
    requires On(ts, s)
    ensures UnitRead(ts, s, ParsePrefix(ts, s), c)
    decreases |ts| - s.i, 2
  {
    hide ParseExpr, ParsePrimary, Fits, ArgFits, Stops, ArgStops, TreeText, Spelled, OperatorStops, Meaning;
    match PrefixOp(Kind(ts, s))
    case Some(op) =>
      More(ts, s.i, PrefixKind(op));
      var t := Bump(ts, s);
      var x := ExprDerived(ts, t, 8);
      c := Prefixed(op, x);
      if ParseExpr(ts, t, 8).s.errs == [] {
        PrefixedTree(ts, s.i, op, x);
      }
    case None => c := PrimaryDerived(ts, s);
  }

  lemma {:induction false} PrimaryDerived(ts: seq<Token>, s: St) returns (c: Cst)
    requires On(ts, s)
    ensures UnitRead(ts, s, ParsePrimary(ts, s), c)
    decreases |ts| - s.i, 1
  {
    hide UnitRead, ParsePrimary;
    if Kind(ts, s) == TokenKind.Ident {
      c := NameDerived(ts, s);
    } else if Kind(ts, s) == LParen {
      c := ParenDerived(ts, s);
    } else {
      c := LiteralDerived(ts, s);
    }
  }

  lemma {:induction false} ArgsDerived(ts: seq<Token>, s: St) returns (cs: seq<Cst>)
    requires On(ts, s)
    ensures ArgsRead(ts, s, ParseArgs(ts, s), cs) && (StartsArg(Kind(ts, s)) ==> cs != [])
    decreases |ts| - s.i, 3
  {
    hide ParsePrefix, ParseArgs, StartsArg, ArgFits, ArgStops, TreeText, ArgsText, Spelled, ArgsFit;
    if !StartsArg(Kind(ts, s)) {
      cs := [];
      NoArg(ts, s);
      NoArgs(ts, s.i);
    } else {
      var first := PrefixDerived(ts, s);
      var p := ParsePrefix(ts, s);
      ArgMoves(ts, s);
      var rest := ArgsDerived(ts, p.s);
      ArgStep(ts, s);
      cs := [first] + rest;
      if ParseArgs(ts, s).s.errs == [] {
        ArgsGrow(ts, s.i, first, rest);
        if rest != [] {
          ArgsStart(ts, p.s.i, rest);
        }
        assert rest == [] ==> ParseArgs(ts, p.s).s.i == p.s.i by { NoArgs(ts, 0); }
      }
    }
  }

  lemma {:induction false} ArgMoves(ts: seq<Token>, s: St)
    requires On(ts, s) && StartsArg(Kind(ts, s))
    ensures s.i < ParsePrefix(ts, s).s.i
  {
    hide ParsePrefix;
    assert Kind(ts, s) != Eof;
  }

  lemma {:induction false} NoArgs(ts: seq<Token>, i: nat)
    requires i <= |ts|
    ensures Spelled(ts, i, ArgsText([])) && ArgsText([]) == [] && Meanings([]) == [] && ArgsFit([])
  {}

  lemma {:induction false} ArgsStart(ts: seq<Token>, i: nat, cs: seq<Cst>)
    requires cs != [] && ArgsFit(cs) && Spelled(ts, i, ArgsText(cs))
    ensures i < |ts| && ts[i].kind == FirstKind(cs[0])
  {
    FirstArg(cs);
    hide ArgsText, FirstKind, ArgsFit;
    FirstSpelled(ts, i, ArgsText(cs));
  }

  lemma {:induction false} ArgsGrow(ts: seq<Token>, i: nat, first: Cst, rest: seq<Cst>)
    requires Spelled(ts, i, TreeText(first)) && Spelled(ts, i + |TreeText(first)|, ArgsText(rest))
    ensures var cs := [first] + rest;
      && Spelled(ts, i, ArgsText(cs)) && |ArgsText(cs)| == |TreeText(first)| + |ArgsText(rest)|
      && Meanings(cs) == [Meaning(first)] + Meanings(rest)
      && (ArgFits(first) && ArgsFit(rest) && (rest != [] ==> ArgStops(first, FirstKind(rest[0]))) ==> ArgsFit(cs))
  {
    hide Spelled, TreeText, Meaning, ArgFits, ArgStops, FirstKind;
    var cs := [first] + rest;
    assert cs[0] == first && cs[1..] == rest && (rest != [] ==> cs[1] == rest[0]);
    SpelledSplit(ts, i, TreeText(first), ArgsText(rest));
  }

  /** A name and its arguments, or what was read before. */
  lemma {:induction false} FinishDerived(ts: seq<Token>, s: St, p: ExprResult, unit: Cst, min: nat) returns (c: Cst)
    requires On(ts, s) && s.i <= p.s.i < |ts| && UnitRead(ts, s, p, unit)
    ensures TreeRead(ts, s, FinishCall(ts, p.s, p.e), c, min)
    decreases |ts| - p.s.i, 5
  {
    hide ParseArgs, StartsArg, FinishCall, Fits, ArgFits, Stops, ArgStops, TreeText, ArgsText, Spelled, Meaning, ArgsFit;
    if IsName(p.e) && StartsArg(Kind(ts, p.s)) {
      var cs := ArgsDerived(ts, p.s);
      CallStep(ts, p.s, p.e);
      c := Applied(unit, cs);
      if ParseArgs(ts, p.s).s.errs == [] {
        AppliedTree(ts, s.i, unit, cs, Kind(ts, ParseArgs(ts, p.s).s), min);
      }
    } else {
      NoCall(ts, p.s, p.e);
      c := unit;
      if p.s.errs == [] {
        UnitTree(unit, Kind(ts, p.s), min);
      }
    }
  }

  lemma {:induction false} AppliedTree(ts: seq<Token>, i: nat, head: Cst, cs: seq<Cst>, next: TokenKind, min: nat)
    requires Spelled(ts, i, TreeText(head)) && Spelled(ts, i + |TreeText(head)|, ArgsText(cs)) && ArgFits(head) && IsName(Meaning(head))
    requires cs != [] && ArgsFit(cs) && !StartsArg(next) && ArgStops(cs[|cs| - 1], next)
    ensures var c := Applied(head, cs);
      && Spelled(ts, i, TreeText(c)) && |TreeText(c)| == |TreeText(head)| + |ArgsText(cs)| && Fits(c, min) && Stops(c, next)
      && Meaning(c) == Call(NameOf(Meaning(head)), Meanings(cs))
  {
    hide Spelled, StartsArg, ArgStops, ArgFits, ArgsFit, Fits, Stops, Meaning, IsName;
    AppliedShape(head, cs, next, min);
    SpelledSplit(ts, i, TreeText(head), ArgsText(cs));
  }

  lemma {:induction false} AppliedShape(head: Cst, cs: seq<Cst>, next: TokenKind, min: nat)
    requires ArgFits(head) && IsName(Meaning(head)) && cs != [] && ArgsFit(cs) && !StartsArg(next) && ArgStops(cs[|cs| - 1], next)
    ensures var c := Applied(head, cs); Fits(c, min) && Stops(c, next) && Meaning(c) == Call(NameOf(Meaning(head)), Meanings(cs))
  {
    hide StartsArg, ArgStops, ArgFits, ArgsFit, Meanings;
  }

  lemma {:induction false} UnitTree(c: Cst, next: TokenKind, min: nat)
    requires ArgFits(c) && ArgStops(c, next) && (IsName(Meaning(c)) ==> !StartsArg(next))
    ensures Fits(c, min) && Stops(c, next)
  {
    hide StartsArg, ContinuesPath, OperatorStops;
  }

  /** Operators after a tree. */
  lemma {:induction false} BinaryDerived(ts: seq<Token>, s: St, l: ExprResult, left: Cst, min: nat) returns (c: Cst)
    requires On(ts, s) && s.i <= l.s.i < |ts| && TreeRead(ts, s, l, left, min)
    ensures WholeRead(ts, s, BinaryRest(ts, l.s, l.e, min), c, min)
    decreases |ts| - l.s.i, 5
  {
    hide ParseExpr, BinaryRest, Fits, Stops, TreeText, Spelled, Meaning, BinaryOperator;
    if OperatorStops(min, Kind(ts, l.s)) {
      NoOperator(ts, l.s, l.e, min);
      c := left;
    } else {
      var op := BinaryOperator(Kind(ts, l.s)).value.op;
      IsOperator(Kind(ts, l.s));
      More(ts, l.s.i, OperatorKind(op));
      var t := Bump(ts, l.s);
      var right := ExprDerived(ts, t, Power(op).right);
      OneOperator(ts, l.s, l.e, op, min);
      var r := ParseExpr(ts, t, Power(op).right);
      var both := ExprResult(Binary(op, l.e, r.e), r.s);
      if r.s.errs == [] {
        InfixTree(ts, s.i, op, left, right, l.s.i, Kind(ts, r.s), min);
      }
      c := BinaryDerived(ts, s, both, Infix(op, left, right), min);
    }
  }

  lemma {:induction false} IsOperator(kind: TokenKind)
    requires BinaryOperator(kind).Some?
    ensures OperatorKind(BinaryOperator(kind).value.op) == kind && kind != Eof && Power(BinaryOperator(kind).value.op) == BinaryOperator(kind).value
  {}

  lemma {:induction false} InfixTree(ts: seq<Token>, i: nat, op: BinaryOp, l: Cst, r: Cst, at: nat, next: TokenKind, min: nat)
    requires Spelled(ts, i, TreeText(l)) && at == i + |TreeText(l)| && Is(ts, at, OperatorKind(op)) && Spelled(ts, at + 1, TreeText(r))
    requires Fits(l, min) && Stops(l, OperatorKind(op)) && Fits(r, Power(op).right) && Power(op).left >= min
    requires Stops(r, next) && OperatorStops(Power(op).right, next)
    ensures var c := Infix(op, l, r);
      && Spelled(ts, i, TreeText(c)) && |TreeText(c)| == |TreeText(l)| + 1 + |TreeText(r)| && Fits(c, min) && Stops(c, next)
      && Meaning(c) == Binary(op, Meaning(l), Meaning(r))
  {
    hide Spelled, OperatorStops, OperatorKind, FixedText, Fits, Stops, Power, Meaning;
    InfixShape(op, l, r, next, min);
    var o := [Fixed(OperatorKind(op))];
    SpelledToken(ts, at, o[0]);
    SpelledSplit(ts, at, o, TreeText(r));
    SpelledSplit(ts, i, TreeText(l), o + TreeText(r));
  }

  lemma {:induction false} InfixShape(op: BinaryOp, l: Cst, r: Cst, next: TokenKind, min: nat)
    requires Fits(l, min) && Stops(l, OperatorKind(op)) && Fits(r, Power(op).right) && Power(op).left >= min
    requires Stops(r, next) && OperatorStops(Power(op).right, next)
    ensures var c := Infix(op, l, r); Fits(c, min) && Stops(c, next) && Meaning(c) == Binary(op, Meaning(l), Meaning(r))
  {
    hide OperatorKind, BinaryOperator;
  }

  lemma {:induction false} ExprDerived(ts: seq<Token>, s: St, min: nat) returns (c: Cst)
    requires On(ts, s)
    ensures WholeRead(ts, s, ParseExpr(ts, s, min), c, min)
    decreases |ts| - s.i, 6
  {
    hide ParseExpr, ParsePrefix, FinishCall, BinaryRest, UnitRead, TreeRead, WholeRead;
    Joins(ts, s, min);
    var unit := PrefixDerived(ts, s);
    var p := ParsePrefix(ts, s);
    var head := FinishDerived(ts, s, p, unit, min);
    c := BinaryDerived(ts, s, FinishCall(ts, p.s, p.e), head, min);
  }

  lemma {:induction false} WholeIsExpr(ts: seq<Token>, s: St)
    requires On(ts, s)
    ensures var x := ParseExpr(ts, s, 0); x.s.errs == [] ==> s.errs == [] && ExprAt(ts, s.i, x.s.i, x.e)
  {
    hide ParseExpr, Fits, Stops, TreeText, Spelled, Meaning, OperatorStops;
    var c := ExprDerived(ts, s, 0);
    var x := ParseExpr(ts, s, 0);
    if x.s.errs == [] {
      assert TreeAt(ts, s.i, x.s.i, c, 0);
    }
  }

  // ----- statements -----

  lemma {:induction false} LastDerived(ts: seq<Token>, s: St)
    requires On(ts, s)
    ensures var x := ParseExpr(ts, s, 0);
      var t := Skip(ts, x.s);
      t.errs == [] ==> s.errs == [] && LastAt(ts, s.i, t.i, x.e)
  {
    hide ParseExpr, Skip, ExprAt, Spaces;
    WholeIsExpr(ts, s);
    SkipsSpaces(ts, ParseExpr(ts, s, 0).s);
  }

  lemma {:induction false} TypeDerived(ts: seq<Token>, s: St)
    requires On(ts, s)
    ensures var r := ParseTypeRef(ts, s); r.s.errs == [] ==> s.errs == [] && r.ty.Some? && TypeAt(ts, s.i, r.s.i, r.ty.value)
  {
    hide Expect;
    ExpectKeeps(ts, s, TokenKind.Ident);
    ExpectKeeps(ts, Bump(ts, s), TokenKind.Ident);
  }

  /** A statement read silently. */
  ghost predicate StmtRead(ts: seq<Token>, s: St, r: StmtResult) {
    r.s.errs == [] ==> s.errs == [] && r.stmt.Some? && StmtAt(ts, s.i, r.s.i, r.stmt.value)
  }

  lemma {:induction false} VarDerived(ts: seq<Token>, s: St, mutable: bool)
    requires On(ts, s) && Is(ts, s.i, if mutable then KwMut else KwLet)
    ensures StmtRead(ts, s, ParseVar(ts, s, mutable))
  {
    hide Expect, ParseVarRest, StmtAt, TypeAt, LastAt;
    More(ts, s.i, if mutable then KwMut else KwLet);
    var t := Bump(ts, s);
    ExpectKeeps(ts, t, TokenKind.Ident);
    var e := Expect(ts, t, TokenKind.Ident);
    if e.ok {
      VarRestDerived(ts, e.s, ts[t.i].lexeme, mutable);
      var r := ParseVar(ts, s, mutable);
      if r.s.errs == [] {
        IsVar(ts, s.i, r.s.i, r.stmt.value);
      }
    }
  }

  lemma {:induction false} IsVar(ts: seq<Token>, i: nat, j: nat, s: Stmt)
    requires (s.Let? || s.Mut?) && VarAt(ts, i, j, if s.Mut? then KwMut else KwLet, s.name, s.ty, s.init)
    ensures StmtAt(ts, i, j, s)
  {
    hide VarAt;
  }

  lemma {:induction false} VarRestDerived(ts: seq<Token>, s: St, name: string, mutable: bool)
    requires On(ts, s)
    ensures var r := ParseVarRest(ts, s, name, mutable);
      r.s.errs == [] ==>
        && s.errs == [] && r.stmt.Some? && (if mutable then r.stmt.value.Mut? else r.stmt.value.Let?) && r.stmt.value.name == name
        && exists k: nat :: TypeAt(ts, s.i, k, r.stmt.value.ty) && Is(ts, k, TokenKind.Eq) && LastAt(ts, k + 1, r.s.i, r.stmt.value.init)
  {
    hide Expect, ParseTypeRef, ParseExpr, Skip, TypeAt, LastAt;
    TypeDerived(ts, s);
    var ty := ParseTypeRef(ts, s);
    ExpectKeeps(ts, ty.s, TokenKind.Eq);
    var eq := Expect(ts, ty.s, TokenKind.Eq);
    LastDerived(ts, eq.s);
    if ParseVarRest(ts, s, name, mutable).s.errs == [] {
      assert TypeAt(ts, s.i, ty.s.i, ty.ty.value) && Is(ts, ty.s.i, TokenKind.Eq);
    }
  }

  lemma {:induction false} AssignDerived(ts: seq<Token>, s: St)
    requires On(ts, s) && Is(ts, s.i, TokenKind.Ident) && Is(ts, s.i + 1, TokenKind.Eq)
    ensures StmtRead(ts, s, ParseAssign(ts, s))
  {
    hide ParseExpr, Skip, LastAt, Skim, StmtAt, ParseAssign;
    More(ts, s.i, TokenKind.Ident);
    var t := Skim(ts, Bump(ts, s), TokenKind.Eq);
    AssignUnfolds(ts, s);
    SkimKeeps(ts, Bump(ts, s), TokenKind.Eq);
    LastDerived(ts, t);
    if ParseAssign(ts, s).s.errs == [] {
      IsAssign(ts, s.i, ParseAssign(ts, s).s.i, ParseExpr(ts, t, 0).e);
    }
  }

  lemma {:induction false} AssignUnfolds(ts: seq<Token>, s: St)
    requires On(ts, s)
    ensures var x := ParseExpr(ts, Skim(ts, Bump(ts, s), TokenKind.Eq), 0);
      ParseAssign(ts, s) == StmtResult(Some(Assign(ts[s.i].lexeme, x.e)), Skip(ts, x.s))
  {
    hide ParseExpr, Skip, Skim;
  }

  lemma {:induction false} IsAssign(ts: seq<Token>, i: nat, j: nat, e: Expr)
    requires Is(ts, i, TokenKind.Ident) && Is(ts, i + 1, TokenKind.Eq) && LastAt(ts, i + 2, j, e)
    ensures StmtAt(ts, i, j, Assign(ts[i].lexeme, e))
  {
    hide LastAt;
  }

  lemma {:induction false} RetDerived(ts: seq<Token>, s: St)
    requires On(ts, s) && Is(ts, s.i, KwRet)
    ensures StmtRead(ts, s, ParseRet(ts, s))
  {
    hide ParseExpr, Skip, LastAt, Spaces;
    More(ts, s.i, KwRet);
    var t := Bump(ts, s);
    SkipsSpaces(ts, t);
    LastDerived(ts, t);
  }

  lemma {:induction false} ExprStmtDerived(ts: seq<Token>, s: St)
    requires On(ts, s) && !(Is(ts, s.i, TokenKind.Ident) && Is(ts, s.i + 1, TokenKind.Eq))
    ensures StmtRead(ts, s, ParseExprStmt(ts, s))
  {
    hide ParseExpr, Skip, LastAt;
    LastDerived(ts, s);
  }

  lemma {:induction false} JumpDerived(ts: seq<Token>, s: St)
    requires On(ts, s) && Kind(ts, s) in {KwBreak, KwContinue}
    ensures StmtRead(ts, s, StmtResult(Some(if Kind(ts, s) == KwBreak then Break else Continue), Skip(ts, Bump(ts, s))))
  {
    hide Skip, Spaces, VarAt, LastAt, BodyAt, ArmAt, EndAt, ExprAt;
    More(ts, s.i, Kind(ts, s));
    SkipsSpaces(ts, Bump(ts, s));
  }

  lemma {:induction false} EndDerived(ts: seq<Token>, s: St)
    requires On(ts, s)
    ensures var t := EndBlock(ts, s); t.errs == [] ==> s.errs == [] && EndAt(ts, s.i, t.i)
  {
    hide Expect, Skip, Spaces, Report;
    ExpectKeeps(ts, s, KwEnd);
    var e := Expect(ts, s, KwEnd);
    if e.ok {
      SkipsSpaces(ts, e.s);
    } else {
      ReportKeeps(e.s, "E0203");
      SkipsSpaces(ts, Report(e.s, "E0203"));
    }
  }

  /** From the arrow to the end of a block. */
  lemma {:induction false} BodyDerived(ts: seq<Token>, s: St)
    requires On(ts, s)
    ensures var r := ParseBlock(ts, OpenBlock(ts, s));
      r.s.errs == [] ==> s.errs == [] && BodyAt(ts, s.i, r.s.i, r.block)
    decreases |ts| - s.i, 4
  {
    hide Skim, Skip, Spaces, BlockRest, BlockAt;
    var t := Skim(ts, s, Arrow);
    SkimKeeps(ts, s, Arrow);
    SkipsSpaces(ts, t);
    var u := Skip(ts, t);
    RoundTrip.SkipNothing(ts, u.i, u.errs);
    BlockDerived(ts, u);
  }

  lemma {:induction false} BlockDerived(ts: seq<Token>, s: St)
    requires On(ts, s) && !IsSpace(Kind(ts, s))
    ensures var r := BlockRest(ts, s); r.s.errs == [] ==> s.errs == [] && BlockAt(ts, s.i, r.s.i, r.block)
    decreases |ts| - s.i, 3
  {
    hide BlockRest, ParseStatement, Skip, StmtAt;
    if EndsBlock(Kind(ts, s)) {
      RoundTrip.EndOfBlock(ts, s);
    } else {
      StatementsProgress(ts, s);
      RoundTrip.StepBlock(ts, s);
      StatementDerived(ts, s);
      var first := ParseStatement(ts, s);
      var t := Skip(ts, first.s);
      StatementEnds(ts, s);
      BlockDerived(ts, t);
      var rest := BlockRest(ts, t);
      if rest.s.errs == [] {
        assert ([first.stmt.value] + rest.block)[1..] == rest.block;
      }
    }
  }

  /** After a statement read silently nothing is left to skip. */
  lemma {:induction false} StatementEnds(ts: seq<Token>, s: St)
    requires On(ts, s) && StmtRead(ts, s, ParseStatement(ts, s))
    ensures var t := ParseStatement(ts, s).s; Skip(ts, t).errs == t.errs && (t.errs == [] ==> Skip(ts, t) == t)
  {
    hide ParseStatement, StmtAt, Skip;
    var r := ParseStatement(ts, s);
    if r.s.errs == [] {
      StmtParsed(ts, s.i, r.s.i, [], r.stmt.value);
      RoundTrip.SkipNothing(ts, r.s.i, r.s.errs);
    }
  }

  lemma {:induction false} StatementDerived(ts: seq<Token>, s: St)
    requires On(ts, s) && !IsSpace(Kind(ts, s)) && !EndsBlock(Kind(ts, s))
    ensures StmtRead(ts, s, ParseStatement(ts, s))
    decreases |ts| - s.i, 2
  {
    hide ParseStatement, StmtRead, ParseVar, ParseRet, ParseIf, ParseLoop, ParseWhile, ParseUnsafeBlock, ParseAssign, ParseExprStmt, Skip;
    RoundTrip.Dispatch(ts, s);
    match Kind(ts, s)
    case KwLet => VarDerived(ts, s, false);
    case KwMut => VarDerived(ts, s, true);
    case KwRet => RetDerived(ts, s);
    case KwIf => IfDerived(ts, s);
    case KwLoop => LoopDerived(ts, s);
    case KwWhile => WhileDerived(ts, s);
    case KwBreak => JumpDerived(ts, s);
    case KwContinue => JumpDerived(ts, s);
    case KwUnsafe =>
      if PeekKind(ts, s, 1) == Arrow {
        UnsafeDerived(ts, s);
      } else {
        ExprStmtDerived(ts, s);
      }
    case Ident =>
      if PeekKind(ts, s, 1) == TokenKind.Eq {
        AssignDerived(ts, s);
      } else {
        ExprStmtDerived(ts, s);
      }
    case _ => ExprStmtDerived(ts, s);
  }

  lemma {:induction false} LoopDerived(ts: seq<Token>, s: St)
    requires On(ts, s) && Kind(ts, s) == KwLoop
    ensures StmtRead(ts, s, ParseLoop(ts, s))
    decreases |ts| - s.i, 0
  {
    hide ParseBlock, OpenBlock, EndBlock, BodyAt, EndAt;
    More(ts, s.i, KwLoop);
    BodyDerived(ts, Bump(ts, s));
    EndDerived(ts, ParseBlock(ts, OpenBlock(ts, Bump(ts, s))).s);
  }

  lemma {:induction false} UnsafeDerived(ts: seq<Token>, s: St)
    requires On(ts, s) && Kind(ts, s) == KwUnsafe
    ensures StmtRead(ts, s, ParseUnsafeBlock(ts, s))
    decreases |ts| - s.i, 0
  {
    hide ParseBlock, OpenBlock, EndBlock, BodyAt, EndAt;
    More(ts, s.i, KwUnsafe);
    BodyDerived(ts, Bump(ts, s));
    EndDerived(ts, ParseBlock(ts, OpenBlock(ts, Bump(ts, s))).s);
  }

  lemma {:induction false} WhileDerived(ts: seq<Token>, s: St)
    requires On(ts, s) && Kind(ts, s) == KwWhile
    ensures StmtRead(ts, s, ParseWhile(ts, s))
    decreases |ts| - s.i, 0
  {
    hide ParseExpr, ParseBlock, OpenBlock, EndBlock, ExprAt, BodyAt, EndAt;
    More(ts, s.i, KwWhile);
    var c := ParseExpr(ts, Bump(ts, s), 0);
    WholeIsExpr(ts, Bump(ts, s));
    BodyDerived(ts, c.s);
    EndDerived(ts, ParseBlock(ts, OpenBlock(ts, c.s)).s);
  }

  lemma {:induction false} ElseDerived(ts: seq<Token>, s: St)
    requires On(ts, s)
    ensures var r := ParseElse(ts, s); r.s.errs == [] ==> s.errs == [] && ArmAt(ts, s.i, r.s.i, r.arm)
    decreases |ts| - s.i, 5
  {
    hide ParseBlock, OpenBlock, BodyAt;
    if Kind(ts, s) == KwElse {
      More(ts, s.i, KwElse);
      BodyDerived(ts, Bump(ts, s));
    }
  }

  lemma {:induction false} IfDerived(ts: seq<Token>, s: St)
    requires On(ts, s) && Kind(ts, s) == KwIf
    ensures StmtRead(ts, s, ParseIf(ts, s))
    decreases |ts| - s.i, 0
  {
    hide ParseExpr, ParseBlock, OpenBlock, ParseElse, EndBlock, ExprAt, BodyAt, ArmAt, EndAt;
    More(ts, s.i, KwIf);
    var c := ParseExpr(ts, Bump(ts, s), 0);
    WholeIsExpr(ts, Bump(ts, s));
    BodyDerived(ts, c.s);
    var thens := ParseBlock(ts, OpenBlock(ts, c.s));
    ElseDerived(ts, thens.s);
    EndDerived(ts, ParseElse(ts, thens.s).s);
  }

  // ----- items -----

  lemma {:induction false} GiveUpKeeps(ts: seq<Token>, s: St, code: string)
    requires On(ts, s)
    ensures GiveUp(ts, s, code).s.errs != []
  {
    ReportKeeps(s, code);
    hide SyncItem, Report;
  }

  lemma {:induction false} SyncKeeps(ts: seq<Token>, s: St)
    requires On(ts, s)
    ensures SyncStatement(ts, Report(s, "E0206")).errs != []
  {
    ReportKeeps(s, "E0206");
    hide SyncStatement, Report;
  }

  lemma {:induction false} ParamsUnfold(ts: seq<Token>, s: St)
    requires On(ts, s)
    ensures Kind(ts, s) in {Arrow, Eof, Newline} ==> ParseParams(ts, s) == ParamsResult([], s)
    ensures Kind(ts, s) !in {Arrow, Eof, Newline, TokenKind.Ident} ==> ParseParams(ts, s).s.errs != []
    ensures Is(ts, s.i, TokenKind.Ident) ==> (
      s.i + 1 < |ts| && (ParseTypeRef(ts, St(s.i + 1, s.errs)).ty.None? ==> ParseParams(ts, s).s.errs != []))
  {
    hide Expect, ParseTypeRef, SyncStatement, Report;
    ExpectIs(ts, s, TokenKind.Ident);
    SyncKeeps(ts, Expect(ts, s, TokenKind.Ident).s);
    if Is(ts, s.i, TokenKind.Ident) {
      SyncKeeps(ts, ParseTypeRef(ts, St(s.i + 1, s.errs)).s);
    }
  }

  lemma {:induction false} ParamsDerived(ts: seq<Token>, s: St)
    requires On(ts, s)
    ensures var r := ParseParams(ts, s); r.s.errs == [] ==> s.errs == [] && (Is(ts, r.s.i, Arrow) ==> ParamsAt(ts, s.i, r.s.i, r.params))
    decreases |ts| - s.i
  {
    hide ParseParams, ParseTypeRef, TypeAt;
    ParamsUnfold(ts, s);
    if Is(ts, s.i, TokenKind.Ident) {
      var ty := ParseTypeRef(ts, St(s.i + 1, s.errs));
      TypeDerived(ts, St(s.i + 1, s.errs));
      if ty.ty.Some? {
        ParamDerived(ts, s, ty);
        ParamsDerived(ts, ty.s);
        var rest := ParseParams(ts, ty.s);
        if rest.s.errs == [] && Is(ts, rest.s.i, Arrow) {
          ParamGrows(ts, s.i, ty.s.i, rest.s.i, ty.ty.value, rest.params);
        }
      }
    }
  }

  lemma {:induction false} ParamDerived(ts: seq<Token>, s: St, ty: TypeResult)
    requires On(ts, s) && Is(ts, s.i, TokenKind.Ident) && s.i + 1 < |ts| && ty == ParseTypeRef(ts, St(s.i + 1, s.errs)) && ty.ty.Some?
    ensures s.i < ty.s.i < |ts|
    ensures var rest := ParseParams(ts, ty.s); ParseParams(ts, s) == ParamsResult([Param(ts[s.i].lexeme, ty.ty.value)] + rest.params, rest.s)
  {
    hide Expect, ParseTypeRef, SyncStatement, Report;
    ExpectIs(ts, s, TokenKind.Ident);
  }

  lemma {:induction false} ParamGrows(ts: seq<Token>, i: nat, k: nat, j: nat, ty: string, rest: seq<Param>)
    requires Is(ts, i, TokenKind.Ident) && TypeAt(ts, i + 1, k, ty) && ParamsAt(ts, k, j, rest)
    ensures ParamsAt(ts, i, j, [Param(ts[i].lexeme, ty)] + rest)
  {
    hide TypeAt;
    var all := [Param(ts[i].lexeme, ty)] + rest;
    assert all[1..] == rest && all[0] == Param(ts[i].lexeme, ty);
  }

  /** An item read silently. */
  ghost predicate ItemRead(ts: seq<Token>, s: St, r: ItemResult) {
    r.s.errs == [] ==> s.errs == [] && r.item.Some? && ItemAt(ts, s.i, r.s.i, r.item.value)
  }

  lemma {:induction false} FnRestDerived(ts: seq<Token>, s: St, name: string, params: seq<Param>, isUnsafe: bool)
    requires On(ts, s) && s.i > 0 && Is(ts, s.i - 1, Arrow)
    ensures var r := ParseFnRest(ts, s, name, params, isUnsafe);
      r.s.errs == [] ==>
        && s.errs == [] && r.item.Some? && r.item.value.Fn? && r.item.value.decl.name == name && r.item.value.decl.params == params
        && r.item.value.decl.isUnsafe == isUnsafe && ReturnsAt(ts, s.i - 1, r.s.i, r.item.value.decl)
  {
    hide ParseTypeRef, Skip, BlockRest, EndBlock, GiveUp, TypeAt, Spaces, BlockAt, EndAt;
    var ret := ParseTypeRef(ts, s);
    TypeDerived(ts, s);
    GiveUpKeeps(ts, ret.s, "E0202");
    if ret.ty.Some? {
      var t := Skip(ts, ret.s);
      SkipsSpaces(ts, ret.s);
      SpacesEnd(ts, ret.s.i, t.i);
      RoundTrip.SkipNothing(ts, t.i, t.errs);
      BlockDerived(ts, t);
      EndDerived(ts, BlockRest(ts, t).s);
    }
  }

  lemma {:induction false} NamedFnDerived(ts: seq<Token>, s: St, isUnsafe: bool)
    requires On(ts, s) && s.i > 0 && Is(ts, s.i - 1, KwFn)
    ensures var r := ParseNamedFn(ts, s, isUnsafe);
      r.s.errs == [] ==>
        s.errs == [] && r.item.Some? && r.item.value.Fn? && r.item.value.decl.isUnsafe == isUnsafe && FnAt(ts, s.i - 1, r.s.i, r.item.value.decl)
  {
    hide Expect, ParseParams, ParseFnRest, GiveUp, ParamsAt, ReturnsAt;
    var name := Expect(ts, s, TokenKind.Ident);
    ExpectKeeps(ts, s, TokenKind.Ident);
    GiveUpKeeps(ts, name.s, "E0201");
    if name.ok {
      var params := ParseParams(ts, name.s);
      ParamsDerived(ts, name.s);
      var arrow := Expect(ts, params.s, Arrow);
      ExpectKeeps(ts, params.s, Arrow);
      GiveUpKeeps(ts, arrow.s, "E0202");
      if arrow.ok {
        ArrowTaken(ts, params.s);
        FnRestDerived(ts, arrow.s, ts[s.i].lexeme, params.params, isUnsafe);
      }
    }
  }

  lemma {:induction false} ArrowTaken(ts: seq<Token>, s: St)
    requires On(ts, s) && Expect(ts, s, Arrow).ok
    ensures Expect(ts, s, Arrow).s == St(s.i + 1, s.errs) && Is(ts, s.i, Arrow)
  {}

  lemma {:induction false} FnItemDerived(ts: seq<Token>, s: St)
    requires On(ts, s) && Kind(ts, s) in {KwFn, KwUnsafe}
    ensures ItemRead(ts, s, ParseFnItem(ts, s))
  {
    hide ParseNamedFn, FnAt;
    More(ts, s.i, Kind(ts, s));
    if IsUnsafeFn(ts, s) {
      More(ts, s.i + 1, KwFn);
      NamedFnDerived(ts, St(s.i + 2, s.errs), true);
    } else if Kind(ts, s) == KwFn {
      NamedFnDerived(ts, St(s.i + 1, s.errs), false);
    } else {
      ReportKeeps(s, "E0206");
    }
  }

  lemma {:induction false} UseDerived(ts: seq<Token>, s: St)
    requires On(ts, s) && Kind(ts, s) == KwUse
    ensures ItemRead(ts, s, ParseUse(ts, s))
  {
    hide ParsePath, Skip, PathAt, Spaces;
    More(ts, s.i, KwUse);
    var t := Bump(ts, s);
    var p := ParsePath(ts, t);
    if Kind(ts, t) == TokenKind.Ident {
      PathDerived(ts, t);
      SkipsSpaces(ts, p.s);
    } else {
      NoPath(ts, t);
    }
  }

  lemma {:induction false} NoPath(ts: seq<Token>, s: St)
    requires On(ts, s) && Kind(ts, s) != TokenKind.Ident
    ensures ParsePath(ts, s).path.None? && ParsePath(ts, s).s.errs != []
  {
    ReportKeeps(s, "E0206");
    hide Report, PathRest;
  }

  lemma {:induction false} ItemDerived(ts: seq<Token>, s: St)
    requires On(ts, s) && Kind(ts, s) != Eof
    ensures ItemRead(ts, s, ItemStep(ts, s))
  {
    hide ParseUse, ParseFnItem, Skip, Report, ItemAt;
    if Kind(ts, s) in {KwUse, KwFn, KwUnsafe} {
      var r := if Kind(ts, s) == KwUse then ParseUse(ts, s) else ParseFnItem(ts, s);
      if Kind(ts, s) == KwUse {
        UseDerived(ts, s);
      } else {
        FnItemDerived(ts, s);
      }
      SkipsSpaces(ts, r.s);
      if r.s.errs == [] {
        ItemParsed(ts, s.i, r.s.i, [], r.item.value);
        RoundTrip.SkipNothing(ts, r.s.i, r.s.errs);
      }
    } else {
      ReportKeeps(Bump(ts, s), "E0204");
      ReportKeeps(Bump(ts, s), "E0205");
      ReportKeeps(Bump(ts, s), "E0206");
      SkipsSpaces(ts, Report(Bump(ts, s), "E0204"));
      SkipsSpaces(ts, Report(Bump(ts, s), "E0205"));
      SkipsSpaces(ts, Report(Bump(ts, s), "E0206"));
    }
  }

  lemma {:induction false} ItemsDerived(ts: seq<Token>, s: St)
    requires On(ts, s)
    ensures match ItemsFrom(ts, s)
      case Parsed(items, errs) => errs == [] ==> s.errs == [] && ItemsAt(ts, s.i, items)
      case Hangs => true
    decreases |ts| - s.i
  {
    hide ItemStep, ItemAt;
    if Kind(ts, s) != Eof {
      ItemDerived(ts, s);
      var first := ItemStep(ts, s);
      if first.s.i != s.i {
        ItemsDerived(ts, first.s);
        var rest := ItemsFrom(ts, first.s);
        if rest.Parsed? && rest.errs == [] {
          assert ([first.item.value] + rest.items)[1..] == rest.items;
        }
      }
    }
  }

  /** A row of tokens parses to some items, and nothing is reported, exactly when the grammar derives them from it. */
  lemma {:induction false} ParsesIff(ts: seq<Token>, items: seq<Item>)
    requires Stream(ts)
    ensures Parse(ts) == Parsed(items, []) <==> Derives(ts, items)
  {
    hide Spaces, ItemsAt, ItemsFrom, Skip;
    if Derives(ts, items) {
      DerivedParses(ts, items);
    }
    if Parse(ts) == Parsed(items, []) {
      var s := Skip(ts, St(0, []));
      SkipsSpaces(ts, St(0, []));
      ItemsDerived(ts, s);
    }
  }
}
