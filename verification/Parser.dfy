/** The parser: a place in the token stream that only moves forward, and the diagnostics so far.
    Each method is proved to build exactly what Parsing gives and to end where Parsing ends. */
module Parser {
  import opened Ast
  import opened Tokens
  import Parsing
  import StringLiterals

  type St = Parsing.St

  lemma {:induction false} ArgsAppended(args: seq<Expr>, first: Expr, rest: seq<Expr>)
    ensures args + ([first] + rest) == args + [first] + rest
  {}

  lemma {:induction false} Appended<T>(done: seq<T>, first: Option<T>, rest: seq<T>)
    ensures done + ((match first case Some(x) => [x] case None => []) + rest)
         == (match first case Some(x) => done + [x] case None => done) + rest
  {}

  ghost predicate ParamsLeft(all: Parsing.ParamsResult, params: seq<Param>, rest: Parsing.ParamsResult) {
    all == Parsing.ParamsResult(params + rest.params, rest.s)
  }

  lemma {:induction false} ParamsMore(all: Parsing.ParamsResult, params: seq<Param>, p: Param, rest: Parsing.ParamsResult)
    ensures ParamsLeft(all, params, Parsing.ParamsResult([p] + rest.params, rest.s)) ==> ParamsLeft(all, params + [p], rest)
  {
    assert params + ([p] + rest.params) == params + [p] + rest.params;
  }

  lemma {:induction false} ParamsNone(all: Parsing.ParamsResult, params: seq<Param>)
    ensures forall s :: ParamsLeft(all, params, Parsing.ParamsResult([], s)) ==> all == Parsing.ParamsResult(params, s)
  {
    assert params + [] == params;
  }

  ghost predicate BlockLeft(all: Parsing.BlockResult, block: Block, rest: Parsing.BlockResult) {
    all == Parsing.BlockResult(block + rest.block, rest.s)
  }

  lemma {:induction false} BlockStart(all: Parsing.BlockResult)
    ensures BlockLeft(all, [], all)
  {}

  lemma {:induction false} BlockMore(all: Parsing.BlockResult, done: Block, first: Option<Stmt>, rest: Parsing.BlockResult)
    ensures BlockLeft(all, done, Parsing.BlockResult((match first case Some(c) => [c] case None => []) + rest.block, rest.s))
        ==> BlockLeft(all, match first case Some(c) => done + [c] case None => done, rest)
  {
    Appended(done, first, rest.block);
  }

  lemma {:induction false} BlockTurn(ts: seq<Token>, s: St)
    requires Parsing.On(ts, s)
    ensures Parsing.BlockRest(ts, s) ==
      if Parsing.EndsBlock(Parsing.Kind(ts, s)) then Parsing.BlockResult([], s)
      else
        var first := Parsing.ParseStatement(ts, s);
        var t := if first.s.i == s.i then Parsing.Report(Parsing.Bump(ts, first.s), "E0207") else first.s;
        var rest := Parsing.BlockRest(ts, Parsing.Skip(ts, t));
        Parsing.BlockResult((match first.stmt case Some(c) => [c] case None => []) + rest.block, rest.s)
  {}

  lemma {:induction false} BlockDone(all: Parsing.BlockResult, block: Block)
    ensures forall s :: BlockLeft(all, block, Parsing.BlockResult([], s)) ==> all == Parsing.BlockResult(block, s)
  {
    assert block + [] == block;
  }

  class Reader {
    const tokens: seq<Token>
    var index: nat
    var diagnostics: seq<string>

    constructor (tokens: seq<Token>)
      ensures this.tokens == tokens && View() == Parsing.St(0, [])
    {
      this.tokens := tokens;
      index, diagnostics := 0, [];
    }

    ghost function View(): St
      reads this
    {
      Parsing.St(index, diagnostics)
    }

    ghost predicate Valid()
      reads this
    {
      Parsing.On(tokens, View())
    }

    function Kind(): TokenKind
      requires index < |tokens|
      reads this
    {
      tokens[index].kind
    }

    function PeekKind(offset: nat): TokenKind
      reads this
    {
      if index + offset < |tokens| then tokens[index + offset].kind else Eof
    }

    method Report(code: string)
      modifies this`diagnostics
      ensures View() == Parsing.Report(old(View()), code)
    {
      if |diagnostics| < Parsing.MAX_ERRORS {
        diagnostics := diagnostics + [code];
      } else if |diagnostics| == Parsing.MAX_ERRORS {
        diagnostics := diagnostics + ["E9999"];
      }
    }

    method Bump() returns (t: Token)
      requires Valid()
      modifies this`index
      ensures Valid() && View() == Parsing.Bump(tokens, old(View())) && t == tokens[old(index)]
    {
      t := tokens[index];
      if index + 1 < |tokens| {
        index := index + 1;
      }
    }

    method Expect(kind: TokenKind) returns (t: Option<Token>)
      requires Valid()
      modifies this`index, this`diagnostics
      ensures Valid() && Parsing.Expect(tokens, old(View()), kind) == Parsing.Expected(t.Some?, View())
      ensures t.Some? ==> t.value == tokens[old(index)]
    {
      if Kind() == kind {
        var tok := Bump();
        return Some(tok);
      }
      Report("E0206");
      return None;
    }

    method ConsumeStatementEnd()
      requires Valid()
      modifies this`index
      ensures Valid() && View() == Parsing.Skip(tokens, old(View()))
    {
      while Kind() == Comment || Kind() == Newline
        invariant Valid() && Parsing.Skip(tokens, old(View())) == Parsing.Skip(tokens, View())
        decreases |tokens| - index
      {
        var _ := Bump();
      }
    }

    method SynchronizeStatement()
      requires Valid()
      modifies this`index
      ensures Valid() && View() == Parsing.SyncStatement(tokens, old(View()))
    {
      while !Parsing.StopsStatement(Kind())
        invariant Valid() && Parsing.SyncStatement(tokens, old(View())) == Parsing.SyncStatement(tokens, View())
        decreases |tokens| - index
      {
        var _ := Bump();
      }
    }

    method SynchronizeItem()
      requires Valid()
      modifies this`index
      ensures Valid() && View() == Parsing.SyncItem(tokens, old(View()))
    {
      while Kind() !in {KwFn, KwUse, Eof}
        invariant Valid() && Parsing.SyncItem(tokens, old(View())) == Parsing.SyncItem(tokens, View())
        decreases |tokens| - index
      {
        var _ := Bump();
      }
    }

    // ----- paths and types -----

    method ParsePath() returns (path: Option<Path>)
      requires Valid()
      modifies this`index, this`diagnostics
      ensures Valid() && Parsing.ParsePath(tokens, old(View())) == Parsing.PathResult(path, View())
    {
      hide Parsing.SeparatorAt, Parsing.Stream;
      var first := Expect(TokenKind.Ident);
      if first.None? {
        return None;
      }
      var segments, sep := [first.value.lexeme], Single;
      ghost var all := Parsing.PathRest(tokens, View(), segments, sep);
      while true
        invariant Valid() && |segments| >= 1
        invariant all == Parsing.PathRest(tokens, View(), segments, sep)
        decreases |tokens| - index
      {
        var next := Parsing.SeparatorAt(Kind());
        if next.None? {
          break;
        }
        if sep != Single && sep != next.value {
          Report("E0206");
          break;
        }
        sep := next.value;
        var _ := Bump();
        var segment := Expect(TokenKind.Ident);
        if segment.None? {
          break;
        }
        segments := segments + [segment.value.lexeme];
      }
      return Some(Path(segments, sep));
    }

    method ParseTypeRef() returns (ty: Option<string>)
      requires Valid()
      modifies this`index, this`diagnostics
      ensures Valid() && Parsing.ParseTypeRef(tokens, old(View())) == Parsing.TypeResult(ty, View())
    {
      if Kind() == Star {
        var _ := Bump();
        var name := Expect(TokenKind.Ident);
        return match name case Some(t) => Some("*" + t.lexeme) case None => None;
      }
      var name := Expect(TokenKind.Ident);
      return match name case Some(t) => Some(t.lexeme) case None => None;
    }

    // ----- expressions -----

    method ParseExpr(min: nat) returns (e: Expr)
      requires Valid()
      modifies this`index, this`diagnostics
      ensures Valid() && Parsing.ParseExpr(tokens, old(View()), min) == Parsing.ExprResult(e, View())
      decreases |tokens| - index, 4
    {
      hide Parsing.ParsePrefix, Parsing.FinishCall;
      e := ParsePrefix();
      e := FinishCall(e);
      ghost var all := Parsing.BinaryRest(tokens, View(), e, min);
      while true
        invariant Valid() && old(index) <= index
        invariant all == Parsing.BinaryRest(tokens, View(), e, min)
        decreases |tokens| - index
      {
        var o := Parsing.BinaryOperator(Kind());
        if o.None? || o.value.left < min {
          break;
        }
        var _ := Bump();
        var rhs := ParseExpr(o.value.right);
        e := Binary(o.value.op, e, rhs);
      }
    }

    method ParsePrefix() returns (e: Expr)
      requires Valid()
      modifies this`index, this`diagnostics
      ensures Valid() && Parsing.ParsePrefix(tokens, old(View())) == Parsing.ExprResult(e, View())
      ensures old(index) <= index
      decreases |tokens| - index, 1
    {
      hide Parsing.ParseExpr, Parsing.ParsePrimary;
      if Kind() == KwNot {
        var _ := Bump();
        var x := ParseExpr(8);
        return Unary(Not, x);
      } else if Kind() == Minus {
        var _ := Bump();
        var x := ParseExpr(8);
        return Unary(Neg, x);
      }
      e := ParsePrimary();
    }

    method FinishCall(lhs: Expr) returns (e: Expr)
      requires Valid()
      modifies this`index, this`diagnostics
      ensures Valid() && Parsing.FinishCall(tokens, old(View()), lhs) == Parsing.ExprResult(e, View())
      ensures old(index) <= index
      decreases |tokens| - index, 3
    {
      hide Parsing.ParsePrefix;
      var callee := match lhs
        case Ident(name) => Some(Path([name], Single))
        case PathExpr(path) => Some(path)
        case _ => None;
      if callee.None? || !Parsing.StartsArg(Kind()) {
        return lhs;
      }
      var args: seq<Expr> := [];
      ghost var all := Parsing.ParseArgs(tokens, View());
      while Parsing.StartsArg(Kind())
        invariant Valid() && old(index) <= index
        invariant var rest := Parsing.ParseArgs(tokens, View()); all == Parsing.ArgsResult(args + rest.args, rest.s)
        decreases |tokens| - index
      {
        ghost var before := View();
        var arg := ParsePrefix();
        ArgsAppended(args, arg, Parsing.ParseArgs(tokens, View()).args);
        args := args + [arg];
      }
      assert args + [] == args;
      return Call(callee.value, args);
    }

    method ParsePrimary() returns (e: Expr)
      requires Valid()
      modifies this`index, this`diagnostics
      ensures Valid() && Parsing.ParsePrimary(tokens, old(View())) == Parsing.ExprResult(e, View())
      ensures old(index) <= index
      decreases |tokens| - index, 0
    {
      hide Parsing.ParseExpr, Parsing.ParseIntValue, Parsing.ParsePath, StringLiterals.Decode, Parsing.NameExpr;
      if Kind() == TokenKind.IntLit {
        var t := Bump();
        e := Expr.IntLit(match Parsing.ParseIntValue(t.lexeme) case Some(v) => v case None => 0);
      } else if Kind() == TokenKind.StrLit {
        var t := Bump();
        var bytes := StringLiterals.DecodeString(t.lexeme);
        e := Expr.StrLit(bytes);
      } else if Kind() == KwTrue || Kind() == KwFalse {
        var t := Bump();
        e := BoolLit(t.kind == KwTrue);
      } else if Kind() == TokenKind.Ident {
        e := ParseName();
      } else if Kind() == LParen {
        var _ := Bump();
        e := ParseExpr(0);
        var _ := Expect(RParen);
      } else {
        var _ := Bump();
        Report("E0206");
        e := ErrorExpr;
      }
    }

    method ParseName() returns (e: Expr)
      requires Valid() && Kind() == TokenKind.Ident
      modifies this`index, this`diagnostics
      ensures Valid() && old(index) <= index
      ensures var p := Parsing.ParsePath(tokens, old(View())); e == Parsing.NameExpr(p.path.value) && View() == p.s
    {
      hide Parsing.PathRest;
      var path := ParsePath();
      e := if |path.value.segments| == 1 then Expr.Ident(path.value.segments[0]) else PathExpr(path.value);
    }

    // ----- statements -----

    method ParseBlock() returns (block: Block)
      requires Valid()
      modifies this`index, this`diagnostics
      ensures Valid() && Parsing.ParseBlock(tokens, old(View())) == Parsing.BlockResult(block, View())
      ensures old(index) <= index
      decreases |tokens| - index, 3
    {
      hide Parsing.ParseStatement, Parsing.Skip, Parsing.Report, Parsing.BlockRest, BlockLeft;
      ConsumeStatementEnd();
      ghost var all := Parsing.BlockRest(tokens, View());
      block := [];
      BlockStart(all);
      while Kind() != Eof && Kind() != KwEnd && Kind() != KwElse
        invariant Valid() && old(index) <= index
        invariant BlockLeft(all, block, Parsing.BlockRest(tokens, View()))
        decreases |tokens| - index
      {
        BlockTurn(tokens, View());
        var before := index;
        var stmt := ParseStatement();
        ghost var done := block;
        if stmt.Some? {
          block := block + [stmt.value];
        }
        if index == before {
          var _ := Bump();
          Report("E0207");
        }
        ConsumeStatementEnd();
        BlockMore(all, done, stmt, Parsing.BlockRest(tokens, View()));
      }
      BlockTurn(tokens, View());
      BlockDone(all, block);
    }

    method ParseStatement() returns (stmt: Option<Stmt>)
      requires Valid()
      modifies this`index, this`diagnostics
      ensures Valid() && Parsing.ParseStatement(tokens, old(View())) == Parsing.StmtResult(stmt, View())
      ensures old(index) <= index
      decreases |tokens| - index, 1
    {
      hide Parsing.ParseExpr, Parsing.ParseBlock, Parsing.Skip, Parsing.ParseVar, Parsing.ParseAssign, Parsing.ParseRet,
           Parsing.ParseExprStmt, Parsing.ParseIf, Parsing.ParseLoop, Parsing.ParseWhile, Parsing.ParseUnsafeBlock;
      ConsumeStatementEnd();
      var kind := Kind();
      if kind == KwLet {
        stmt := ParseVar(false);
      } else if kind == KwMut {
        stmt := ParseVar(true);
      } else if kind == KwRet {
        stmt := ParseRet();
      } else if kind == KwIf {
        stmt := ParseIf();
      } else if kind == KwLoop {
        stmt := ParseLoop();
      } else if kind == KwWhile {
        stmt := ParseWhile();
      } else if kind == KwBreak {
        var _ := Bump();
        ConsumeStatementEnd();
        stmt := Some(Break);
      } else if kind == KwContinue {
        var _ := Bump();
        ConsumeStatementEnd();
        stmt := Some(Continue);
      } else if kind == KwUnsafe && PeekKind(1) == Arrow {
        stmt := ParseUnsafeBlock();
      } else if kind == KwElse {
        var _ := Bump();
        Report("E0205");
        stmt := Some(ErrorStmt);
      } else if kind == TokenKind.Ident && PeekKind(1) == TokenKind.Eq {
        stmt := ParseAssign();
      } else if kind == Eof || kind == KwEnd {
        stmt := None;
      } else {
        stmt := ParseExprStmt();
      }
    }

    method ParseVar(mutable: bool) returns (stmt: Option<Stmt>)
      requires Valid()
      modifies this`index, this`diagnostics
      ensures Valid() && Parsing.ParseVar(tokens, old(View()), mutable) == Parsing.StmtResult(stmt, View())
    {
      hide Parsing.ParseVarRest;
      var _ := Bump();
      var name := Expect(TokenKind.Ident);
      if name.None? {
        return None;
      }
      stmt := ParseVarRest(name.value.lexeme, mutable);
    }

    method ParseVarRest(name: string, mutable: bool) returns (stmt: Option<Stmt>)
      requires Valid()
      modifies this`index, this`diagnostics
      ensures Valid() && Parsing.ParseVarRest(tokens, old(View()), name, mutable) == Parsing.StmtResult(stmt, View())
    {
      hide Parsing.ParseExpr, Parsing.Skip, Parsing.ParseTypeRef;
      var ty := ParseTypeRef();
      if ty.None? {
        return None;
      }
      var eq := Expect(TokenKind.Eq);
      if eq.None? {
        return None;
      }
      var x := ParseExpr(0);
      ConsumeStatementEnd();
      if mutable {
        return Some(Mut(name, ty.value, x));
      }
      return Some(Let(name, ty.value, x));
    }

    method ParseAssign() returns (stmt: Option<Stmt>)
      requires Valid()
      modifies this`index, this`diagnostics
      ensures Valid() && Parsing.ParseAssign(tokens, old(View())) == Parsing.StmtResult(stmt, View())
    {
      hide Parsing.ParseExpr, Parsing.Skip;
      var name := Bump();
      var _ := Expect(TokenKind.Eq);
      var x := ParseExpr(0);
      ConsumeStatementEnd();
      return Some(Assign(name.lexeme, x));
    }

    method ParseRet() returns (stmt: Option<Stmt>)
      requires Valid()
      modifies this`index, this`diagnostics
      ensures Valid() && Parsing.ParseRet(tokens, old(View())) == Parsing.StmtResult(stmt, View())
    {
      hide Parsing.ParseExpr, Parsing.Skip;
      var _ := Bump();
      if Parsing.IsBoundary(Kind()) {
        ConsumeStatementEnd();
        return Some(Ret(None));
      }
      var x := ParseExpr(0);
      ConsumeStatementEnd();
      return Some(Ret(Some(x)));
    }

    method OpenBlock()
      requires Valid()
      modifies this`index, this`diagnostics
      ensures Valid() && View() == Parsing.OpenBlock(tokens, old(View())) && old(index) <= index
    {
      hide Parsing.Skip;
      var _ := Expect(Arrow);
      ConsumeStatementEnd();
    }

    method EndBlock()
      requires Valid()
      modifies this`index, this`diagnostics
      ensures Valid() && View() == Parsing.EndBlock(tokens, old(View())) && old(index) <= index
    {
      hide Parsing.Skip;
      var end := Expect(KwEnd);
      if end.None? {
        Report("E0203");
      }
      ConsumeStatementEnd();
    }

    method ParseIf() returns (stmt: Option<Stmt>)
      requires Valid() && Kind() == KwIf
      modifies this`index, this`diagnostics
      ensures Valid() && Parsing.ParseIf(tokens, old(View())) == Parsing.StmtResult(stmt, View())
      ensures old(index) <= index
      decreases |tokens| - index, 0
    {
      hide Parsing.ParseExpr, Parsing.ParseBlock, Parsing.OpenBlock, Parsing.EndBlock;
      var _ := Bump();
      var cond := ParseExpr(0);
      OpenBlock();
      var thenBlock := ParseBlock();
      var arm := NoElse;
      if Kind() == KwElse {
        var _ := Bump();
        OpenBlock();
        var elseBlock := ParseBlock();
        arm := Else(elseBlock);
      }
      EndBlock();
      return Some(If(cond, thenBlock, arm));
    }

    method ParseLoop() returns (stmt: Option<Stmt>)
      requires Valid() && Kind() == KwLoop
      modifies this`index, this`diagnostics
      ensures Valid() && Parsing.ParseLoop(tokens, old(View())) == Parsing.StmtResult(stmt, View())
      ensures old(index) <= index
      decreases |tokens| - index, 0
    {
      hide Parsing.ParseBlock, Parsing.OpenBlock, Parsing.EndBlock;
      var _ := Bump();
      OpenBlock();
      var body := ParseBlock();
      EndBlock();
      return Some(Loop(body));
    }

    method ParseWhile() returns (stmt: Option<Stmt>)
      requires Valid() && Kind() == KwWhile
      modifies this`index, this`diagnostics
      ensures Valid() && Parsing.ParseWhile(tokens, old(View())) == Parsing.StmtResult(stmt, View())
      ensures old(index) <= index
      decreases |tokens| - index, 0
    {
      hide Parsing.ParseExpr, Parsing.ParseBlock, Parsing.OpenBlock, Parsing.EndBlock;
      var _ := Bump();
      var cond := ParseExpr(0);
      OpenBlock();
      var body := ParseBlock();
      EndBlock();
      return Some(While(cond, body));
    }

    method ParseUnsafeBlock() returns (stmt: Option<Stmt>)
      requires Valid() && Kind() == KwUnsafe
      modifies this`index, this`diagnostics
      ensures Valid() && Parsing.ParseUnsafeBlock(tokens, old(View())) == Parsing.StmtResult(stmt, View())
      ensures old(index) <= index
      decreases |tokens| - index, 0
    {
      hide Parsing.ParseBlock, Parsing.OpenBlock, Parsing.EndBlock;
      var _ := Bump();
      OpenBlock();
      var body := ParseBlock();
      EndBlock();
      return Some(UnsafeBlock(body));
    }

    method ParseExprStmt() returns (stmt: Option<Stmt>)
      requires Valid()
      modifies this`index, this`diagnostics
      ensures Valid() && Parsing.ParseExprStmt(tokens, old(View())) == Parsing.StmtResult(stmt, View())
    {
      hide Parsing.ParseExpr, Parsing.Skip;
      var x := ParseExpr(0);
      ConsumeStatementEnd();
      return Some(ExprStmt(x));
    }

    // ----- items -----

    method ParseParams() returns (params: seq<Param>)
      requires Valid()
      modifies this`index, this`diagnostics
      ensures Valid() && Parsing.ParseParams(tokens, old(View())) == Parsing.ParamsResult(params, View())
    {
      hide Parsing.ParseTypeRef, Parsing.SyncStatement;
      params := [];
      ghost var all := Parsing.ParseParams(tokens, View());
      while Kind() != Arrow && Kind() != Eof && Kind() != Newline
        invariant Valid()
        invariant ParamsLeft(all, params, Parsing.ParseParams(tokens, View()))
        decreases |tokens| - index
      {
        ParamsNone(all, params);
        var name := Expect(TokenKind.Ident);
        if name.None? {
          Report("E0206");
          SynchronizeStatement();
          return;
        }
        var ty := ParseTypeRef();
        if ty.None? {
          Report("E0206");
          SynchronizeStatement();
          return;
        }
        ParamsMore(all, params, Param(name.value.lexeme, ty.value), Parsing.ParseParams(tokens, View()));
        params := params + [Param(name.value.lexeme, ty.value)];
      }
      ParamsNone(all, params);
    }

    method ParseUse() returns (item: Option<Item>)
      requires Valid()
      modifies this`index, this`diagnostics
      ensures Valid() && Parsing.ParseUse(tokens, old(View())) == Parsing.ItemResult(item, View())
    {
      hide Parsing.ParsePath, Parsing.Skip;
      var keyword := Expect(KwUse);
      if keyword.None? {
        return None;
      }
      var path := ParsePath();
      if path.None? {
        return None;
      }
      ConsumeStatementEnd();
      return Some(Use(path.value));
    }

    method GiveUp(code: string)
      requires Valid()
      modifies this`index, this`diagnostics
      ensures Valid() && Parsing.GiveUp(tokens, old(View()), code) == Parsing.ItemResult(None, View())
    {
      hide Parsing.SyncItem;
      Report(code);
      SynchronizeItem();
    }

    method ParseFnItem() returns (item: Option<Item>)
      requires Valid()
      modifies this`index, this`diagnostics
      ensures Valid() && Parsing.ParseFnItem(tokens, old(View())) == Parsing.ItemResult(item, View())
    {
      hide Parsing.ParseNamedFn, Parsing.Report, Parsing.Follows;
      var isUnsafe := false;
      if Kind() == KwUnsafe && PeekKind(1) == KwFn {
        isUnsafe := true;
        var _ := Bump();
      }
      var keyword := Expect(KwFn);
      if keyword.None? {
        return None;
      }
      item := ParseNamedFn(isUnsafe);
    }

    method ParseNamedFn(isUnsafe: bool) returns (item: Option<Item>)
      requires Valid()
      modifies this`index, this`diagnostics
      ensures Valid() && Parsing.ParseNamedFn(tokens, old(View()), isUnsafe) == Parsing.ItemResult(item, View())
    {
      hide Parsing.ParseParams, Parsing.ParseFnRest, Parsing.GiveUp;
      var name := Expect(TokenKind.Ident);
      if name.None? {
        GiveUp("E0201");
        return None;
      }
      var params := ParseParams();
      var arrow := Expect(Arrow);
      if arrow.None? {
        GiveUp("E0202");
        return None;
      }
      item := ParseFnRest(name.value.lexeme, params, isUnsafe);
    }

    method ParseFnRest(name: string, params: seq<Param>, isUnsafe: bool) returns (item: Option<Item>)
      requires Valid()
      modifies this`index, this`diagnostics
      ensures Valid() && Parsing.ParseFnRest(tokens, old(View()), name, params, isUnsafe) == Parsing.ItemResult(item, View())
    {
      hide Parsing.ParseTypeRef, Parsing.ParseBlock, Parsing.Skip, Parsing.EndBlock, Parsing.GiveUp;
      var ret := ParseTypeRef();
      if ret.None? {
        GiveUp("E0202");
        return None;
      }
      ConsumeStatementEnd();
      var body := ParseBlock();
      EndBlock();
      return Some(Fn(FnDecl(name, params, ret.value, body, isUnsafe)));
    }

    /** The whole stream. Where a turn of the loop moves nowhere the original never ends; here it says so. */
    method Parse() returns (r: Parsing.Outcome)
      requires Valid() && View() == Parsing.St(0, [])
      modifies this`index, this`diagnostics
      ensures r == Parsing.Parse(tokens)
    {
      hide Parsing.ItemStep, Parsing.Skip;
      ConsumeStatementEnd();
      ghost var all := Parsing.ItemsFrom(tokens, View());
      var items: seq<Item> := [];
      while Kind() != Eof
        invariant Valid()
        invariant match Parsing.ItemsFrom(tokens, View())
          case Hangs => all.Hangs?
          case Parsed(rest, errs) => all == Parsing.Parsed(items + rest, errs)
        decreases |tokens| - index
      {
        var before := index;
        ghost var s := View();
        var item := ParseItem();
        if index == before {
          return Parsing.Hangs;
        }
        if Parsing.ItemsFrom(tokens, View()).Parsed? {
          Appended(items, item, Parsing.ItemsFrom(tokens, View()).items);
        }
        if item.Some? {
          items := items + [item.value];
        }
      }
      assert items + [] == items;
      return Parsing.Parsed(items, diagnostics);
    }

    method ParseItem() returns (item: Option<Item>)
      requires Valid()
      modifies this`index, this`diagnostics
      ensures Valid() && Parsing.ItemStep(tokens, old(View())) == Parsing.ItemResult(item, View())
    {
      hide Parsing.ParseUse, Parsing.ParseFnItem, Parsing.Skip;
      item := None;
      if Kind() == KwUse {
        item := ParseUse();
      } else if Kind() == KwUnsafe || Kind() == KwFn {
        item := ParseFnItem();
      } else if Kind() == KwEnd {
        var _ := Bump();
        Report("E0204");
      } else if Kind() == KwElse {
        var _ := Bump();
        Report("E0205");
      } else {
        var _ := Bump();
        Report("E0206");
      }
      ConsumeStatementEnd();
    }
  }
}
