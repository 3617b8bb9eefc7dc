/** Comments and line ends mean nothing to the parser where a line may end. */
module Comments {
  import opened Ast
  import opened Tokens
  import opened Parsing
  import opened Grammar
  import opened ReadBack
  import opened SourceGrammar
  import Derivations

  /** The row with one more token, before the one at k. */
  function Insert(ts: seq<Token>, k: nat, t: Token): seq<Token>
    requires k <= |ts|
  {
    ts[..k] + [t] + ts[k..]
  }

  /** At the start, or beside a line end or a comment; but a comment does not go directly after a `ret`. */
  ghost predicate Gap(ts: seq<Token>, k: nat, t: Token) {
    && k < |ts| && Space(t.kind) && (k == 0 || Space(ts[k].kind) || Space(ts[k - 1].kind))
    && (k > 0 && ts[k - 1].kind == KwRet ==> t.kind == Newline)
  }

  /** Where a token is in the longer row. */
  function At(k: nat, i: nat): nat {
    if i < k then i else i + 1
  }

  /** Where the tokens before a place end there. */
  function Upto(k: nat, i: nat): nat {
    if i <= k then i else i + 1
  }

  lemma {:induction false} Shifted(ts: seq<Token>, k: nat, t: Token, i: nat)
    requires k <= |ts| && i < |ts|
    ensures At(k, i) < |Insert(ts, k, t)| && Insert(ts, k, t)[At(k, i)] == ts[i]
  {}

  lemma {:induction false} StillStream(ts: seq<Token>, k: nat, t: Token)
    requires Stream(ts) && k < |ts|
    ensures Stream(Insert(ts, k, t))
  {}

  lemma {:induction false} IsAt(ts: seq<Token>, k: nat, t: Token, i: nat, kind: TokenKind)
    requires k <= |ts| && Is(ts, i, kind)
    ensures Is(Insert(ts, k, t), At(k, i), kind) && Insert(ts, k, t)[At(k, i)].lexeme == ts[i].lexeme
  {}

  /** Two tokens that are no spaces stay together. */
  lemma {:induction false} Together(ts: seq<Token>, k: nat, t: Token, i: nat)
    requires Gap(ts, k, t) && i + 1 < |ts| && !Space(ts[i].kind) && !Space(ts[i + 1].kind)
    ensures At(k, i + 1) == At(k, i) + 1 == Upto(k, i + 1)
  {}

  lemma {:induction false} SpacesStay(ts: seq<Token>, k: nat, t: Token, i: nat, j: nat)
    requires Gap(ts, k, t) && Spaces(ts, i, j)
    ensures Spaces(Insert(ts, k, t), Upto(k, i), At(k, j))
  {
    var us := Insert(ts, k, t);
    forall m | Upto(k, i) <= m < At(k, j)
      ensures Space(us[m].kind)
    {
      if m < k {
        assert us[m] == ts[m];
      } else if m == k {
        assert us[m] == t;
      } else {
        assert us[m] == ts[m - 1];
      }
    }
    Shifted(ts, k, t, j);
  }

  predicate Solid(ps: seq<Spelling>) {
    forall m :: 0 <= m < |ps| ==> !Space(ps[m].kind)
  }

  /** Tokens that spell something without spaces stay as they are; the next token is the same or the new one. */
  lemma {:induction false} SpelledStays(ts: seq<Token>, k: nat, t: Token, i: nat, ps: seq<Spelling>)
    requires Gap(ts, k, t) && Spelled(ts, i, ps) && Solid(ps) && ps != [] && i + |ps| < |ts|
    ensures var us := Insert(ts, k, t);
      && Spelled(us, At(k, i), ps) && Upto(k, i + |ps|) == At(k, i) + |ps| < |us|
      && us[Upto(k, i + |ps|)].kind == if k == i + |ps| then t.kind else ts[i + |ps|].kind
  {
    var us := Insert(ts, k, t);
    forall q | i <= q < i + |ps|
      ensures !Space(ts[q].kind)
    {
      assert Matches(ts[i + (q - i)], ps[q - i]);
    }
    forall m | 0 <= m < |ps|
      ensures Matches(us[At(k, i) + m], ps[m])
    {
      assert us[At(k, i) + m] == ts[i + m];
      assert Matches(ts[i + m], ps[m]);
    }
  }

  // ----- trees have no spaces in them -----

  lemma {:induction false} SolidBoth(a: seq<Spelling>, b: seq<Spelling>)
    requires Solid(a) && Solid(b)
    ensures Solid(a + b)
  {}

  lemma {:induction false} SegmentsSolid(segments: seq<string>, sep: PathSep)
    ensures Solid(SegmentsText(segments, sep))
    decreases segments
  {
    hide FixedText;
    if segments != [] {
      SegmentsSolid(segments[1..], sep);
      SolidBoth([SepSpelling(sep), NameSpelling(segments[0])], SegmentsText(segments[1..], sep));
    }
  }

  lemma {:induction false} PathSolid(p: Path)
    ensures Solid(PathText(p))
  {
    hide SegmentsText;
    if p.segments != [] {
      SegmentsSolid(p.segments[1..], p.sep);
      SolidBoth([NameSpelling(p.segments[0])], SegmentsText(p.segments[1..], p.sep));
    }
  }

  lemma {:induction false} TreeSolid(c: Cst)
    ensures Solid(TreeText(c))
    decreases c
  {
    hide FixedText, Solid, OperatorKind, PrefixKind;
    match c
    case Name(p) => PathSolid(p);
    case Paren(x) =>
      TreeSolid(x);
      OneSolid(LParen);
      OneSolid(RParen);
      SolidBoth(TreeText(x), [Fixed(RParen)]);
      SolidBoth([Fixed(LParen)], TreeText(x) + [Fixed(RParen)]);
    case Prefixed(op, x) =>
      TreeSolid(x);
      OperatorsSolid(Add, op);
      SolidBoth([Fixed(PrefixKind(op))], TreeText(x));
    case Infix(op, l, r) =>
      TreeSolid(l);
      TreeSolid(r);
      OperatorsSolid(op, Neg);
      SolidBoth([Fixed(OperatorKind(op))], TreeText(r));
      SolidBoth(TreeText(l), [Fixed(OperatorKind(op))] + TreeText(r));
    case Applied(head, args) =>
      TreeSolid(head);
      ArgsSolid(args);
      SolidBoth(TreeText(head), ArgsText(args));
    case _ => LeafSolid(c);
  }

  lemma {:induction false} LeafSolid(c: Cst)
    requires c.IntText? || c.StrText? || c.Truth?
    ensures Solid(TreeText(c))
  {
    hide FixedText;
  }

  lemma {:induction false} OneSolid(kind: TokenKind)
    requires !Space(kind)
    ensures Solid([Fixed(kind)])
  {
    hide FixedText;
  }

  lemma {:induction false} OperatorsSolid(op: BinaryOp, u: UnaryOp)
    ensures Solid([Fixed(OperatorKind(op))]) && Solid([Fixed(PrefixKind(u))])
  {
    hide FixedText;
  }

  lemma {:induction false} ArgsSolid(args: seq<Cst>)
    ensures Solid(ArgsText(args))
    decreases args
  {
    hide Solid, TreeText;
    if args == [] {
      NothingSolid();
    } else {
      TreeSolid(args[0]);
      ArgsSolid(args[1..]);
      SolidBoth(TreeText(args[0]), ArgsText(args[1..]));
    }
  }

  lemma {:induction false} NothingSolid()
    ensures Solid([])
  {}

  // ----- what is derived stays derived -----

  lemma {:induction false} SpaceCloses(kind: TokenKind)
    requires Space(kind)
    ensures Closes(kind)
  {}

  lemma {:induction false} TreeStays(ts: seq<Token>, k: nat, t: Token, i: nat, j: nat, c: Cst)
    requires Gap(ts, k, t) && TreeAt(ts, i, j, c, 0)
    ensures TreeAt(Insert(ts, k, t), At(k, i), Upto(k, j), c, 0) && i < j < |ts| && !Space(ts[i].kind) && !Space(ts[j - 1].kind)
  {
    hide Fits, Stops, TreeText, Spelled, Insert, Gap, Solid, OperatorStops, Space;
    TreeLong(c);
    TreeSolid(c);
    SpelledStays(ts, k, t, i, TreeText(c));
    SolidEnds(ts, i, TreeText(c));
    if k == j {
      GapIsSpace(ts, k, t);
      SpaceStops(c, t.kind);
    }
  }

  lemma {:induction false} TreeLong(c: Cst)
    requires Fits(c, 0)
    ensures TreeText(c) != []
  {
    hide Fits, TreeText, FirstKind;
    FirstToken(c, 0);
  }

  lemma {:induction false} SpaceStops(c: Cst, kind: TokenKind)
    requires Space(kind)
    ensures Stops(c, kind) && OperatorStops(0, kind)
  {
    hide Stops;
    SpaceCloses(kind);
    StopsAtCloser(c, kind);
  }

  lemma {:induction false} ExprStays(ts: seq<Token>, k: nat, t: Token, i: nat, j: nat, e: Expr)
    requires Gap(ts, k, t) && ExprAt(ts, i, j, e)
    ensures ExprAt(Insert(ts, k, t), At(k, i), Upto(k, j), e) && i < j < |ts| && !Space(ts[i].kind) && !Space(ts[j - 1].kind)
  {
    hide TreeAt, Meaning, Insert, Gap, Space;
    var c :| TreeAt(ts, i, j, c, 0) && Meaning(c) == e;
    TreeStays(ts, k, t, i, j, c);
  }

  lemma {:induction false} GapIsSpace(ts: seq<Token>, k: nat, t: Token)
    requires Gap(ts, k, t)
    ensures Space(t.kind) && k < |ts|
  {}

  lemma {:induction false} SolidEnds(ts: seq<Token>, i: nat, ps: seq<Spelling>)
    requires Spelled(ts, i, ps) && Solid(ps) && ps != []
    ensures i + |ps| <= |ts| && !Space(ts[i].kind) && !Space(ts[i + |ps| - 1].kind)
  {
    assert Matches(ts[i + 0], ps[0]) && Matches(ts[i + (|ps| - 1)], ps[|ps| - 1]);
  }

  lemma {:induction false} PathStays(ts: seq<Token>, k: nat, t: Token, i: nat, j: nat, p: Path)
    requires Gap(ts, k, t) && PathAt(ts, i, j, p)
    ensures PathAt(Insert(ts, k, t), At(k, i), Upto(k, j), p) && i < j < |ts| && !Space(ts[i].kind)
  {
    hide PathText, Spelled, Insert, Gap, Solid;
    PathSolid(p);
    PathLong(p);
    SpelledStays(ts, k, t, i, PathText(p));
    SolidEnds(ts, i, PathText(p));
    if k == j {
      GapIsSpace(ts, k, t);
    }
  }

  lemma {:induction false} PathLong(p: Path)
    requires CanonicalPath(p)
    ensures PathText(p) != []
  {}

  lemma {:induction false} LastStays(ts: seq<Token>, k: nat, t: Token, i: nat, j: nat, e: Expr)
    requires Gap(ts, k, t) && LastAt(ts, i, j, e)
    ensures LastAt(Insert(ts, k, t), At(k, i), At(k, j), e) && i < |ts| && !Space(ts[i].kind)
  {
    hide ExprAt, Spaces, Insert, Gap;
    var m: nat :| ExprAt(ts, i, m, e) && Spaces(ts, m, j);
    ExprStays(ts, k, t, i, m, e);
    SpacesStay(ts, k, t, m, j);
  }

  /** A type before a token that is no space. */
  lemma {:induction false} TypeStays(ts: seq<Token>, k: nat, t: Token, i: nat, j: nat, ty: string)
    requires Gap(ts, k, t) && TypeAt(ts, i, j, ty)
    ensures TypeAt(Insert(ts, k, t), At(k, i), Upto(k, j), ty) && i < j && !Space(ts[i].kind) && !Space(ts[j - 1].kind)
  {
    hide Insert;
    if Is(ts, i, TokenKind.Ident) && j == i + 1 && ty == ts[i].lexeme {
      IsAt(ts, k, t, i, TokenKind.Ident);
    } else {
      IsAt(ts, k, t, i, Star);
      IsAt(ts, k, t, i + 1, TokenKind.Ident);
    }
  }

  lemma {:induction false} BeforeToken(ts: seq<Token>, k: nat, t: Token, j: nat)
    requires Gap(ts, k, t) && 0 < j < |ts| && !Space(ts[j - 1].kind) && !Space(ts[j].kind)
    ensures Upto(k, j) == At(k, j)
  {}

  /** After a token comes the next one, or what was inserted. */
  lemma {:induction false} AfterToken(k: nat, i: nat)
    ensures Upto(k, i + 1) == At(k, i) + 1
  {}

  /** A type, then a token that is no space. */
  lemma {:induction false} TypeBefore(ts: seq<Token>, k: nat, t: Token, i: nat, j: nat, ty: string)
    requires Gap(ts, k, t) && TypeAt(ts, i, j, ty) && j < |ts| && !Space(ts[j].kind)
    ensures TypeAt(Insert(ts, k, t), At(k, i), At(k, j), ty) && i < |ts| && !Space(ts[i].kind) && !Space(ts[j - 1].kind)
  {
    hide TypeAt, Insert, Gap;
    GapInside(ts, k, t);
    TypeStays(ts, k, t, i, j, ty);
    BeforeToken(ts, k, t, j);
  }

  /** Two tokens in a row that are no spaces. */
  lemma {:induction false} PairStays(ts: seq<Token>, k: nat, t: Token, i: nat, first: TokenKind, second: TokenKind)
    requires Gap(ts, k, t) && Is(ts, i, first) && Is(ts, i + 1, second) && !Space(first) && !Space(second)
    ensures var us := Insert(ts, k, t);
      && Is(us, At(k, i), first) && Is(us, At(k, i) + 1, second) && us[At(k, i) + 1].lexeme == ts[i + 1].lexeme
      && At(k, i + 1) == At(k, i) + 1
  {
    hide Insert, Gap;
    GapInside(ts, k, t);
    IsAt(ts, k, t, i, first);
    IsAt(ts, k, t, i + 1, second);
    Together(ts, k, t, i);
  }

  lemma {:induction false} VarStays(ts: seq<Token>, k: nat, t: Token, i: nat, j: nat, keyword: TokenKind, name: string, ty: string, e: Expr)
    requires Gap(ts, k, t) && VarAt(ts, i, j, keyword, name, ty, e) && !Space(keyword)
    ensures VarAt(Insert(ts, k, t), At(k, i), At(k, j), keyword, name, ty, e)
  {
    hide TypeAt, LastAt, Insert, Gap;
    var m: nat :| TypeAt(ts, i + 2, m, ty) && Is(ts, m, TokenKind.Eq) && LastAt(ts, m + 1, j, e);
    PairStays(ts, k, t, i, keyword, TokenKind.Ident);
    TailStays(ts, k, t, i + 2, m, j, ty, e);
    Together(ts, k, t, i + 1);
  }

  /** From the type of a variable on. */
  lemma {:induction false} TailStays(ts: seq<Token>, k: nat, t: Token, i: nat, m: nat, j: nat, ty: string, e: Expr)
    requires Gap(ts, k, t) && TypeAt(ts, i, m, ty) && Is(ts, m, TokenKind.Eq) && LastAt(ts, m + 1, j, e)
    ensures i < |ts| && !Space(ts[i].kind)
    ensures var us := Insert(ts, k, t);
      TypeAt(us, At(k, i), At(k, m), ty) && Is(us, At(k, m), TokenKind.Eq) && LastAt(us, At(k, m) + 1, At(k, j), e)
  {
    hide TypeAt, LastAt, Insert, Gap;
    GapInside(ts, k, t);
    TypeBefore(ts, k, t, i, m, ty);
    IsAt(ts, k, t, m, TokenKind.Eq);
    LastStays(ts, k, t, m + 1, j, e);
    Together(ts, k, t, m);
  }

  lemma {:induction false} GapInside(ts: seq<Token>, k: nat, t: Token)
    requires Gap(ts, k, t)
    ensures k < |ts|
  {}

  lemma {:induction false} EndStays(ts: seq<Token>, k: nat, t: Token, i: nat, j: nat)
    requires Gap(ts, k, t) && EndAt(ts, i, j)
    ensures EndAt(Insert(ts, k, t), At(k, i), At(k, j)) && i < |ts| && !Space(ts[i].kind)
  {
    hide Spaces, Insert, Gap;
    GapInside(ts, k, t);
    IsAt(ts, k, t, i, KwEnd);
    SpacesStay(ts, k, t, i + 1, j);
    AfterToken(k, i);
  }

  lemma {:induction false} RetStays(ts: seq<Token>, k: nat, t: Token, i: nat, j: nat)
    requires Gap(ts, k, t) && StmtAt(ts, i, j, Ret(None))
    ensures StmtAt(Insert(ts, k, t), At(k, i), At(k, j), Ret(None))
  {
    hide Spaces, Insert;
    IsAt(ts, k, t, i, KwRet);
    SpacesStay(ts, k, t, i + 1, j);
    AfterToken(k, i);
    NextKind(ts, k, t, i);
  }

  /** After a bare `ret` the line still ends. */
  lemma {:induction false} NextKind(ts: seq<Token>, k: nat, t: Token, i: nat)
    requires Gap(ts, k, t) && Is(ts, i, KwRet) && i + 1 < |ts| && EndsLine(ts[i + 1].kind)
    ensures var us := Insert(ts, k, t); At(k, i) + 1 < |us| && EndsLine(us[At(k, i) + 1].kind)
  {
    var us := Insert(ts, k, t);
    if k == i + 1 {
      assert us[k] == t;
    } else {
      Shifted(ts, k, t, i + 1);
    }
  }

  // ----- statements -----

  lemma {:induction false} BodyStays(ts: seq<Token>, k: nat, t: Token, i: nat, j: nat, b: Block)
    requires Gap(ts, k, t) && BodyAt(ts, i, j, b)
    ensures BodyAt(Insert(ts, k, t), At(k, i), At(k, j), b) && i < |ts| && !Space(ts[i].kind)
    decreases b, 3
  {
    hide Spaces, BlockAt, Insert, Gap;
    var q: nat :| Spaces(ts, i + 1, q) && BlockAt(ts, q, j, b);
    GapInside(ts, k, t);
    IsAt(ts, k, t, i, Arrow);
    SpacesStay(ts, k, t, i + 1, q);
    AfterToken(k, i);
    BlockStays(ts, k, t, q, j, b);
  }

  lemma {:induction false} BlockStays(ts: seq<Token>, k: nat, t: Token, i: nat, j: nat, b: Block)
    requires Gap(ts, k, t) && BlockAt(ts, i, j, b)
    ensures BlockAt(Insert(ts, k, t), At(k, i), At(k, j), b)
    decreases b, 2
  {
    hide StmtAt, Insert, Gap;
    GapInside(ts, k, t);
    if b == [] {
      forall kind | Is(ts, i, kind)
        ensures Is(Insert(ts, k, t), At(k, i), kind)
      {
        IsAt(ts, k, t, i, kind);
      }
    } else {
      var m: nat :| StmtAt(ts, i, m, b[0]) && BlockAt(ts, m, j, b[1..]);
      StmtStays(ts, k, t, i, m, b[0]);
      BlockStays(ts, k, t, m, j, b[1..]);
    }
  }

  lemma {:induction false} StmtStays(ts: seq<Token>, k: nat, t: Token, i: nat, j: nat, s: Stmt)
    requires Gap(ts, k, t) && StmtAt(ts, i, j, s)
    ensures StmtAt(Insert(ts, k, t), At(k, i), At(k, j), s)
    decreases s, 1
  {
    hide StmtAt, Insert, Gap;
    match s
    case Let(_, _, _) => DeclarationStays(ts, k, t, i, j, s);
    case Mut(_, _, _) => DeclarationStays(ts, k, t, i, j, s);
    case Assign(name, e) => AssignStays(ts, k, t, i, j, name, e);
    case Ret(None) => RetStays(ts, k, t, i, j);
    case Ret(Some(e)) => ResultStays(ts, k, t, i, j, e);
    case If(_, _, _) => IfStays(ts, k, t, i, j, s);
    case Loop(b) => LoopStays(ts, k, t, i, j, s);
    case UnsafeBlock(b) => LoopStays(ts, k, t, i, j, s);
    case While(_, _) => WhileStays(ts, k, t, i, j, s);
    case ExprStmt(e) => ExprStmtStays(ts, k, t, i, j, e);
    case _ => JumpStays(ts, k, t, i, j, s);
  }

  lemma {:induction false} DeclarationStays(ts: seq<Token>, k: nat, t: Token, i: nat, j: nat, s: Stmt)
    requires Gap(ts, k, t) && (s.Let? || s.Mut?) && StmtAt(ts, i, j, s)
    ensures StmtAt(Insert(ts, k, t), At(k, i), At(k, j), s)
  {
    hide VarAt, Insert, Gap;
    VarStays(ts, k, t, i, j, if s.Let? then KwLet else KwMut, s.name, s.ty, s.init);
  }

  lemma {:induction false} AssignStays(ts: seq<Token>, k: nat, t: Token, i: nat, j: nat, name: string, e: Expr)
    requires Gap(ts, k, t) && StmtAt(ts, i, j, Assign(name, e))
    ensures StmtAt(Insert(ts, k, t), At(k, i), At(k, j), Assign(name, e))
  {
    hide LastAt, Insert, Gap;
    GapInside(ts, k, t);
    IsAt(ts, k, t, i, TokenKind.Ident);
    PairStays(ts, k, t, i, TokenKind.Ident, TokenKind.Eq);
    LastStays(ts, k, t, i + 2, j, e);
    Together(ts, k, t, i + 1);
  }

  lemma {:induction false} ResultStays(ts: seq<Token>, k: nat, t: Token, i: nat, j: nat, e: Expr)
    requires Gap(ts, k, t) && StmtAt(ts, i, j, Ret(Some(e)))
    ensures StmtAt(Insert(ts, k, t), At(k, i), At(k, j), Ret(Some(e)))
  {
    hide LastAt, Insert, Gap;
    GapInside(ts, k, t);
    IsAt(ts, k, t, i, KwRet);
    LastStays(ts, k, t, i + 1, j, e);
    Together(ts, k, t, i);
  }

  lemma {:induction false} JumpStays(ts: seq<Token>, k: nat, t: Token, i: nat, j: nat, s: Stmt)
    requires Gap(ts, k, t) && (s.Break? || s.Continue? || s.ErrorStmt?) && StmtAt(ts, i, j, s)
    ensures StmtAt(Insert(ts, k, t), At(k, i), At(k, j), s)
  {
    hide Spaces, Insert, Gap;
    GapInside(ts, k, t);
    IsAt(ts, k, t, i, if s.Break? then KwBreak else KwContinue);
    SpacesStay(ts, k, t, i + 1, j);
    AfterToken(k, i);
  }

  lemma {:induction false} ExprStmtStays(ts: seq<Token>, k: nat, t: Token, i: nat, j: nat, e: Expr)
    requires Gap(ts, k, t) && StmtAt(ts, i, j, ExprStmt(e))
    ensures StmtAt(Insert(ts, k, t), At(k, i), At(k, j), ExprStmt(e))
  {
    hide LastAt;
    LastStays(ts, k, t, i, j, e);
    NoAssign(ts, k, t, i);
  }

  lemma {:induction false} NoAssign(ts: seq<Token>, k: nat, t: Token, i: nat)
    requires Gap(ts, k, t) && i < |ts| && !(Is(ts, i, TokenKind.Ident) && Is(ts, i + 1, TokenKind.Eq))
    ensures var us := Insert(ts, k, t); !(Is(us, At(k, i), TokenKind.Ident) && Is(us, At(k, i) + 1, TokenKind.Eq))
  {
    var us := Insert(ts, k, t);
    Shifted(ts, k, t, i);
    if k == i + 1 {
      assert us[At(k, i) + 1] == t;
    } else if i + 1 < |ts| {
      Shifted(ts, k, t, i + 1);
    }
  }

  lemma {:induction false} LoopStays(ts: seq<Token>, k: nat, t: Token, i: nat, j: nat, s: Stmt)
    requires Gap(ts, k, t) && (s.Loop? || s.UnsafeBlock?) && StmtAt(ts, i, j, s)
    ensures StmtAt(Insert(ts, k, t), At(k, i), At(k, j), s)
    decreases s, 0
  {
    hide StmtAt, BodyAt, EndAt, Insert, Gap;
    Derivations.LoopIs(ts, i, j, s);
    var m: nat :| BodyAt(ts, i + 1, m, s.body) && EndAt(ts, m, j);
    GapInside(ts, k, t);
    IsAt(ts, k, t, i, if s.Loop? then KwLoop else KwUnsafe);
    BodyStays(ts, k, t, i + 1, m, s.body);
    Together(ts, k, t, i);
    EndStays(ts, k, t, m, j);
    Derivations.LoopIs(Insert(ts, k, t), At(k, i), At(k, j), s);
  }

  lemma {:induction false} WhileStays(ts: seq<Token>, k: nat, t: Token, i: nat, j: nat, s: Stmt)
    requires Gap(ts, k, t) && s.While? && StmtAt(ts, i, j, s)
    ensures StmtAt(Insert(ts, k, t), At(k, i), At(k, j), s)
    decreases s, 0
  {
    hide StmtAt, ExprAt, BodyAt, EndAt, Insert, Gap;
    var m, p := Derivations.WhileParts(ts, i, j, s);
    GapInside(ts, k, t);
    IsAt(ts, k, t, i, KwWhile);
    ExprStays(ts, k, t, i + 1, m, s.cond);
    Together(ts, k, t, i);
    BodyStays(ts, k, t, m, p, s.body);
    BeforeToken(ts, k, t, m);
    EndStays(ts, k, t, p, j);
    Derivations.WhileMade(Insert(ts, k, t), At(k, i), At(k, m), At(k, p), At(k, j), s);
  }

  lemma {:induction false} ArmStays(ts: seq<Token>, k: nat, t: Token, i: nat, j: nat, arm: ElseArm)
    requires Gap(ts, k, t) && i < |ts| && ArmAt(ts, i, j, arm)
    ensures ArmAt(Insert(ts, k, t), At(k, i), At(k, j), arm)
    decreases arm, 4
  {
    hide BodyAt, Insert, Gap;
    GapInside(ts, k, t);
    match arm
    case NoElse => Shifted(ts, k, t, i);
    case Else(b) =>
      IsAt(ts, k, t, i, KwElse);
      BodyStays(ts, k, t, i + 1, j, b);
      Together(ts, k, t, i);
  }

  lemma {:induction false} IfStays(ts: seq<Token>, k: nat, t: Token, i: nat, j: nat, s: Stmt)
    requires Gap(ts, k, t) && s.If? && StmtAt(ts, i, j, s)
    ensures StmtAt(Insert(ts, k, t), At(k, i), At(k, j), s)
    decreases s, 0
  {
    hide ExprAt, BodyAt, ArmAt, EndAt, Insert, Gap;
    var m, p, q := Derivations.IfParts(ts, i, j, s);
    GapInside(ts, k, t);
    IsAt(ts, k, t, i, KwIf);
    ExprStays(ts, k, t, i + 1, m, s.cond);
    Together(ts, k, t, i);
    BodyStays(ts, k, t, m, p, s.thenBlock);
    BeforeToken(ts, k, t, m);
    EndStays(ts, k, t, q, j);
    ArmInside(ts, p, q, s.elseArm);
    ArmStays(ts, k, t, p, q, s.elseArm);
  }

  lemma {:induction false} ArmInside(ts: seq<Token>, i: nat, j: nat, arm: ElseArm)
    requires ArmAt(ts, i, j, arm) && j < |ts|
    ensures i < |ts|
  {
    hide BodyAt;
  }

  // ----- items -----

  lemma {:induction false} ParamsStay(ts: seq<Token>, k: nat, t: Token, i: nat, j: nat, params: seq<Param>)
    requires Gap(ts, k, t) && ParamsAt(ts, i, j, params)
    ensures ParamsAt(Insert(ts, k, t), At(k, i), At(k, j), params) && i < |ts| && !Space(ts[i].kind)
    decreases params
  {
    hide TypeAt, Insert, Gap;
    if params == [] {
      GapInside(ts, k, t);
      IsAt(ts, k, t, i, Arrow);
    } else {
      var m: nat :| TypeAt(ts, i + 1, m, params[0].ty) && ParamsAt(ts, m, j, params[1..]);
      ParamsStay(ts, k, t, m, j, params[1..]);
      ParamStays(ts, k, t, i, m, params[0]);
    }
  }

  lemma {:induction false} ParamStays(ts: seq<Token>, k: nat, t: Token, i: nat, j: nat, p: Param)
    requires Gap(ts, k, t) && Is(ts, i, TokenKind.Ident) && TypeAt(ts, i + 1, j, p.ty) && j < |ts| && !Space(ts[j].kind)
    ensures var us := Insert(ts, k, t);
      && Is(us, At(k, i), TokenKind.Ident) && us[At(k, i)].lexeme == ts[i].lexeme
      && TypeAt(us, At(k, i) + 1, At(k, j), p.ty)
  {
    hide TypeAt, Insert, Gap;
    GapInside(ts, k, t);
    IsAt(ts, k, t, i, TokenKind.Ident);
    TypeBefore(ts, k, t, i + 1, j, p.ty);
    Together(ts, k, t, i);
  }

  lemma {:induction false} TypeInside(ts: seq<Token>, i: nat, j: nat, ty: string)
    requires TypeAt(ts, i, j, ty)
    ensures i < j <= |ts|
  {}

  lemma {:induction false} ReturnsStay(ts: seq<Token>, k: nat, t: Token, i: nat, j: nat, f: FnDecl)
    requires Gap(ts, k, t) && ReturnsAt(ts, i, j, f)
    ensures ReturnsAt(Insert(ts, k, t), At(k, i), At(k, j), f)
  {
    hide TypeAt, Spaces, BlockAt, EndAt, Insert, Gap;
    var m: nat, q: nat, p: nat :| TypeAt(ts, i + 1, m, f.ret) && Spaces(ts, m, q) && BlockAt(ts, q, p, f.body) && EndAt(ts, p, j);
    GapInside(ts, k, t);
    IsAt(ts, k, t, i, Arrow);
    TypeStays(ts, k, t, i + 1, m, f.ret);
    TypeInside(ts, i + 1, m, f.ret);
    Together(ts, k, t, i);
    SpacesStay(ts, k, t, m, q);
    BlockStays(ts, k, t, q, p, f.body);
    EndStays(ts, k, t, p, j);
  }

  lemma {:induction false} FnStays(ts: seq<Token>, k: nat, t: Token, i: nat, j: nat, f: FnDecl)
    requires Gap(ts, k, t) && FnAt(ts, i, j, f)
    ensures FnAt(Insert(ts, k, t), At(k, i), At(k, j), f) && i < |ts| && !Space(ts[i].kind)
  {
    hide ParamsAt, ReturnsAt, Insert, Gap;
    var m: nat :| ParamsAt(ts, i + 2, m, f.params) && ReturnsAt(ts, m, j, f);
    GapInside(ts, k, t);
    IsAt(ts, k, t, i, KwFn);
    IsAt(ts, k, t, i + 1, TokenKind.Ident);
    ParamsStay(ts, k, t, i + 2, m, f.params);
    Together(ts, k, t, i);
    Together(ts, k, t, i + 1);
    ReturnsStay(ts, k, t, m, j, f);
  }

  lemma {:induction false} ItemStays(ts: seq<Token>, k: nat, t: Token, i: nat, j: nat, item: Item)
    requires Gap(ts, k, t) && ItemAt(ts, i, j, item)
    ensures ItemAt(Insert(ts, k, t), At(k, i), At(k, j), item)
  {
    hide PathAt, Spaces, FnAt, Insert, Gap;
    GapInside(ts, k, t);
    match item
    case Use(p) =>
      var m: nat :| PathAt(ts, i + 1, m, p) && Spaces(ts, m, j);
      IsAt(ts, k, t, i, KwUse);
      PathStays(ts, k, t, i + 1, m, p);
      Together(ts, k, t, i);
      SpacesStay(ts, k, t, m, j);
    case Fn(f) =>
      if f.isUnsafe {
        IsAt(ts, k, t, i, KwUnsafe);
        FnStays(ts, k, t, i + 1, j, f);
        Together(ts, k, t, i);
      } else {
        FnStays(ts, k, t, i, j, f);
      }
  }

  lemma {:induction false} ItemsStay(ts: seq<Token>, k: nat, t: Token, i: nat, items: seq<Item>)
    requires Gap(ts, k, t) && ItemsAt(ts, i, items)
    ensures ItemsAt(Insert(ts, k, t), At(k, i), items)
    decreases items
  {
    hide ItemAt, Insert, Gap;
    GapInside(ts, k, t);
    if items == [] {
      IsAt(ts, k, t, i, Eof);
    } else {
      var j: nat :| ItemAt(ts, i, j, items[0]) && ItemsAt(ts, j, items[1..]);
      ItemStays(ts, k, t, i, j, items[0]);
      ItemsStay(ts, k, t, j, items[1..]);
    }
  }

  /** A comment or a line end more, at the start or beside another, changes nothing; only directly after a `ret` a
      comment does not go. */
  lemma {:induction false} SpacesMeanNothing(ts: seq<Token>, k: nat, t: Token, items: seq<Item>)
    requires Stream(ts) && Gap(ts, k, t) && Parse(ts) == Parsed(items, [])
    ensures Stream(Insert(ts, k, t)) && Parse(Insert(ts, k, t)) == Parsed(items, [])
  {
    hide Spaces, ItemsAt, Parse, Insert, Gap;
    GapInside(ts, k, t);
    StillStream(ts, k, t);
    Derivations.ParsesIff(ts, items);
    var j: nat :| Spaces(ts, 0, j) && ItemsAt(ts, j, items);
    SpacesStay(ts, k, t, 0, j);
    ItemsStay(ts, k, t, j, items);
    assert Upto(k, 0) == 0;
    Derivations.ParsesIff(Insert(ts, k, t), items);
  }

  /** There it is taken for the start of a value, and reported. */
  lemma {:induction false} RetTakesNoComment(ts: seq<Token>, s: St)
    requires On(ts, s) && Kind(ts, s) == KwRet && s.i + 1 < |ts| && ts[s.i + 1].kind == Comment
    ensures ParseStatement(ts, s).s.errs != []
  {
    hide StmtAt, ParseStatement, LastAt;
    Derivations.StatementDerived(ts, s);
    var r := ParseStatement(ts, s);
    if r.s.errs == [] {
      NoStatement(ts, s.i, r.s.i, r.stmt.value);
    }
  }

  lemma {:induction false} NoStatement(ts: seq<Token>, i: nat, j: nat, s: Stmt)
    requires Stream(ts) && Is(ts, i, KwRet) && Is(ts, i + 1, Comment)
    ensures !StmtAt(ts, i, j, s)
  {
    hide BodyAt, ArmAt, EndAt, BlockAt, LastAt, Spaces, VarAt, ExprAt;
    if s.Ret? && s.result.Some? {
      NoLast(ts, i + 1, j, s.result.value);
    } else if s.ExprStmt? {
      NoLast(ts, i, j, s.expr);
    } else if s.Let? || s.Mut? {
      VarKeyword(ts, i, j, s);
    }
  }

  lemma {:induction false} VarKeyword(ts: seq<Token>, i: nat, j: nat, s: Stmt)
    requires Is(ts, i, KwRet) && (s.Let? || s.Mut?)
    ensures !StmtAt(ts, i, j, s)
  {
    hide LastAt, TypeAt;
  }

  /** No value starts at a comment or at a `ret`. */
  lemma {:induction false} NoLast(ts: seq<Token>, i: nat, j: nat, e: Expr)
    requires i < |ts| && (ts[i].kind == KwRet || ts[i].kind == Comment)
    ensures !LastAt(ts, i, j, e)
  {
    hide Spaces, TreeAt;
    if LastAt(ts, i, j, e) {
      var m: nat :| ExprAt(ts, i, m, e) && Spaces(ts, m, j);
      var c :| TreeAt(ts, i, m, c, 0) && Meaning(c) == e;
      TreeStarts(ts, i, m, c);
    }
  }

  lemma {:induction false} TreeStarts(ts: seq<Token>, i: nat, j: nat, c: Cst)
    requires TreeAt(ts, i, j, c, 0)
    ensures i < |ts| && StartsArg(ts[i].kind)
  {
    hide Fits, TreeText, Stops, OperatorStops, FirstKind;
    FirstToken(c, 0);
    assert Matches(ts[i + 0], TreeText(c)[0]);
  }
}
