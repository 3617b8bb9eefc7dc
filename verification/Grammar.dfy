/** Concrete syntax: expressions with their parentheses, how they are spelled, and which of them
    the parser reads back as written. */
module Grammar {
  import opened Ast
  import opened Tokens
  import opened Parsing
  import opened TokenShapes
  import StringLiterals

  /** A token without its place. */
  datatype Spelling = Spelling(kind: TokenKind, text: string)

  /** The text of a token matters to the parser where its kind does not determine it. */
  predicate HasText(kind: TokenKind) {
    kind == TokenKind.Ident || kind == TokenKind.IntLit || kind == TokenKind.StrLit
  }

  predicate Matches(t: Token, p: Spelling) {
    t.kind == p.kind && (HasText(p.kind) ==> t.lexeme == p.text)
  }

  ghost predicate Spelled(ts: seq<Token>, i: nat, ps: seq<Spelling>) {
    i + |ps| <= |ts| && forall k {:trigger ps[k]} :: 0 <= k < |ps| ==> Matches(ts[i + k], ps[k])
  }

  lemma {:induction false} SpelledSplit(ts: seq<Token>, i: nat, a: seq<Spelling>, b: seq<Spelling>)
    ensures Spelled(ts, i, a + b) <==> Spelled(ts, i, a) && Spelled(ts, i + |a|, b)
  {
    var c := a + b;
    if Spelled(ts, i, c) {
      forall k | 0 <= k < |a|
        ensures Matches(ts[i + k], a[k])
      {
        assert c[k] == a[k];
      }
      forall k | 0 <= k < |b|
        ensures Matches(ts[i + |a| + k], b[k])
      {
        assert c[|a| + k] == b[k];
      }
    }
    if Spelled(ts, i, a) && Spelled(ts, i + |a|, b) {
      forall k | 0 <= k < |c|
        ensures Matches(ts[i + k], c[k])
      {
        if k < |a| {
          assert c[k] == a[k];
        } else {
          assert c[k] == b[k - |a|];
        }
      }
    }
  }

  lemma {:induction false} SpelledOne(ts: seq<Token>, i: nat, p: Spelling)
    requires Spelled(ts, i, [p])
    ensures i < |ts| && Matches(ts[i], p)
  {
    assert [p][0] == p;
  }

  /** The tokens from i on spell something, and then comes `next`. */
  ghost predicate Here(ts: seq<Token>, i: nat, ps: seq<Spelling>, next: TokenKind) {
    Stream(ts) && Spelled(ts, i, ps) && i + |ps| < |ts| && ts[i + |ps|].kind == next
  }

  /** One token, then the rest. */
  lemma {:induction false} Lead(ts: seq<Token>, i: nat, p: Spelling, ps: seq<Spelling>, next: TokenKind)
    requires Here(ts, i, [p] + ps, next)
    ensures i + 1 < |ts| && Matches(ts[i], p) && Here(ts, i + 1, ps, next)
    ensures |[p] + ps| == 1 + |ps|
  {
    SpelledSplit(ts, i, [p], ps);
    SpelledOne(ts, i, p);
  }

  /** One part, then another. */
  lemma {:induction false} Chain(ts: seq<Token>, i: nat, a: seq<Spelling>, b: seq<Spelling>, next: TokenKind)
    requires Here(ts, i, a + b, next) && b != []
    ensures i + |a| < |ts| && ts[i + |a|].kind == b[0].kind
    ensures Here(ts, i, a, b[0].kind) && Here(ts, i + |a|, b, next)
    ensures |a + b| == |a| + |b|
  {
    SpelledSplit(ts, i, a, b);
    FirstSpelled(ts, i + |a|, b);
  }

  /** One part, then another that may be empty. */
  lemma {:induction false} ChainMaybe(ts: seq<Token>, i: nat, a: seq<Spelling>, b: seq<Spelling>, next: TokenKind)
    requires Here(ts, i, a + b, next)
    ensures i + |a| < |ts| && ts[i + |a|].kind == if b == [] then next else b[0].kind
    ensures Here(ts, i, a, ts[i + |a|].kind) && Here(ts, i + |a|, b, next)
    ensures |a + b| == |a| + |b|
  {
    if b == [] {
      assert a + b == a;
    } else {
      Chain(ts, i, a, b, next);
    }
  }

  /** A part between two tokens. */
  lemma {:induction false} Around(ts: seq<Token>, i: nat, open: Spelling, ps: seq<Spelling>, close: Spelling, next: TokenKind)
    requires Here(ts, i, [open] + (ps + [close]), next)
    ensures i + |ps| + 2 < |ts| && ts[i].kind == open.kind && ts[i + 1 + |ps|].kind == close.kind
    ensures Here(ts, i + 1, ps, close.kind) && |[open] + (ps + [close])| == |ps| + 2
  {
    hide Here;
    Lead(ts, i, open, ps + [close], next);
    Chain(ts, i + 1, ps, [close], next);
    HereEnds(ts, i + 1 + |ps|, [close], next);
  }

  lemma {:induction false} HereEnds(ts: seq<Token>, i: nat, ps: seq<Spelling>, next: TokenKind)
    requires Here(ts, i, ps, next)
    ensures Stream(ts) && i + |ps| < |ts| && ts[i + |ps|].kind == next
  {}

  lemma {:induction false} FirstSpelled(ts: seq<Token>, i: nat, ps: seq<Spelling>)
    requires Spelled(ts, i, ps) && ps != []
    ensures i < |ts| && ts[i].kind == ps[0].kind
  {
    assert ts[i + 0].kind == ps[0].kind;
  }

  // ----- trees -----

  datatype Cst =
    | IntText(text: string)
    | StrText(text: string)
    | Truth(b: bool)
    | Name(path: Path)
    | Paren(inner: Cst)
    | Prefixed(uop: UnaryOp, x: Cst)
    | Infix(op: BinaryOp, left: Cst, right: Cst)
    | Applied(head: Cst, args: seq<Cst>)

  /** One name, or several with a separator between. */
  predicate CanonicalPath(p: Path) {
    |p.segments| >= 1 && (|p.segments| == 1 <==> p.sep == Single)
  }

  /** The expression that a tree stands for. */
  function Meaning(c: Cst): Expr
    decreases c
  {
    match c
    case IntText(text) => Expr.IntLit(match ParseIntValue(text) case Some(v) => v case None => 0)
    case StrText(text) => Expr.StrLit(StringLiterals.Decode(text))
    case Truth(b) => BoolLit(b)
    case Name(path) => if |path.segments| == 1 then Expr.Ident(path.segments[0]) else PathExpr(path)
    case Paren(x) => Meaning(x)
    case Prefixed(op, x) => Unary(op, Meaning(x))
    case Infix(op, l, r) => Binary(op, Meaning(l), Meaning(r))
    case Applied(head, args) => Call(NameOf(Meaning(head)), Meanings(args))
  }

  function Meanings(args: seq<Cst>): (r: seq<Expr>)
    ensures |r| == |args|
    decreases args
  {
    if args == [] then [] else [Meaning(args[0])] + Meanings(args[1..])
  }

  predicate IsName(e: Expr) {
    e.Ident? || e.PathExpr?
  }

  /** What a name that is applied names. */
  function NameOf(e: Expr): Path {
    match CalleeOf(e) case Some(p) => p case None => Path([], Single)
  }

  // ----- spelling -----

  function OperatorKind(op: BinaryOp): TokenKind {
    match op
    case Add => Plus
    case Sub => Minus
    case Mul => Star
    case Div => TokenKind.Slash
    case Mod => Percent
    case Eq => EqEq
    case NotEq => BangEq
    case Lt => TokenKind.Lt
    case LtEq => TokenKind.LtEq
    case Gt => TokenKind.Gt
    case GtEq => TokenKind.GtEq
    case And => KwAnd
    case Or => KwOr
  }

  function PrefixKind(op: UnaryOp): TokenKind {
    match op case Neg => Minus case Not => KwNot
  }

  /** The text of a token whose kind determines it. */
  function FixedText(kind: TokenKind): string {
    if KeywordText(kind).Some? then KeywordText(kind).value
    else if MarkText(kind).Some? then MarkText(kind).value
    else if kind == Newline then "\n"
    else ""
  }

  function Fixed(kind: TokenKind): Spelling {
    Spelling(kind, FixedText(kind))
  }

  function NameSpelling(name: string): Spelling {
    Spelling(TokenKind.Ident, name)
  }

  function SepSpelling(sep: PathSep): Spelling {
    if sep == PathSep.Dot then Fixed(TokenKind.Dot) else Fixed(TokenKind.Slash)
  }

  function SegmentsText(segments: seq<string>, sep: PathSep): seq<Spelling> {
    if segments == [] then [] else [SepSpelling(sep), NameSpelling(segments[0])] + SegmentsText(segments[1..], sep)
  }

  function PathText(p: Path): seq<Spelling> {
    if p.segments == [] then [] else [NameSpelling(p.segments[0])] + SegmentsText(p.segments[1..], p.sep)
  }

  function TreeText(c: Cst): seq<Spelling>
    decreases c
  {
    match c
    case IntText(text) => [Spelling(TokenKind.IntLit, text)]
    case StrText(text) => [Spelling(TokenKind.StrLit, text)]
    case Truth(b) => [Fixed(if b then KwTrue else KwFalse)]
    case Name(path) => PathText(path)
    case Paren(x) => [Fixed(LParen)] + (TreeText(x) + [Fixed(RParen)])
    case Prefixed(op, x) => [Fixed(PrefixKind(op))] + TreeText(x)
    case Infix(op, l, r) => TreeText(l) + ([Fixed(OperatorKind(op))] + TreeText(r))
    case Applied(head, args) => TreeText(head) + ArgsText(args)
  }

  function ArgsText(args: seq<Cst>): seq<Spelling>
    decreases args
  {
    if args == [] then [] else TreeText(args[0]) + ArgsText(args[1..])
  }

  // ----- what the parser reads back as written -----

  /** What binds an operator: its two binding powers. */
  function Power(op: BinaryOp): (o: Operator)
    ensures BinaryOperator(OperatorKind(op)) == Some(o) && o.op == op && o.right == o.left + 1 && 2 <= o.left <= 7
  {
    BinaryOperator(OperatorKind(op)).value
  }

  predicate OperatorStops(min: nat, next: TokenKind) {
    BinaryOperator(next).None? || BinaryOperator(next).value.left < min
  }

  predicate ContinuesPath(next: TokenKind) {
    next == TokenKind.Dot || next == TokenKind.Slash
  }

  /** The right end of a tree does not run on into the next token. */
  predicate Stops(c: Cst, next: TokenKind)
    decreases c, 1
  {
    match c
    case Name(_) => !StartsArg(next) && !ContinuesPath(next)
    case Paren(x) => IsName(Meaning(x)) ==> !StartsArg(next)
    case Prefixed(_, x) => Stops(x, next) && OperatorStops(8, next)
    case Infix(op, _, r) => Stops(r, next) && OperatorStops(Power(op).right, next)
    case Applied(_, args) => !StartsArg(next) && (args != [] ==> ArgStops(args[|args| - 1], next))
    case _ => true
  }

  /** The same for a tree in argument position, where a name takes no arguments of its own. */
  predicate ArgStops(c: Cst, next: TokenKind)
    decreases c, 0
  {
    match c
    case Name(_) => !ContinuesPath(next)
    case Prefixed(_, x) => Stops(x, next) && OperatorStops(8, next)
    case _ => true
  }

  /** A name, also one in parentheses, takes the arguments after it. */
  predicate IsHead(c: Cst) {
    (c.Name? || c.Paren?) && IsName(Meaning(c))
  }

  /** Readable where operators must bind at least as tightly as `min`. */
  predicate Fits(c: Cst, min: nat)
    decreases c, 1
  {
    match c
    case IntText(_) => true
    case StrText(_) => true
    case Truth(_) => true
    case Name(path) => CanonicalPath(path)
    case Paren(x) => Fits(x, 0)
    case Prefixed(_, x) => Fits(x, 8)
    case Infix(op, l, r) =>
      Power(op).left >= min && Fits(l, min) && Stops(l, OperatorKind(op)) && Fits(r, Power(op).right)
    case Applied(head, args) => IsHead(head) && ArgFits(head) && args != [] && ArgsFit(args)
  }

  /** Readable as an argument: no operator or call outside parentheses. */
  predicate ArgFits(c: Cst)
    decreases c, 2
  {
    !c.Infix? && !c.Applied? && Fits(c, 0)
  }

  predicate ArgsFit(args: seq<Cst>)
    decreases args, 0
  {
    args == []
    || (ArgFits(args[0]) && ArgsFit(args[1..]) && (|args| > 1 ==> ArgStops(args[0], FirstKind(args[1]))))
  }

  /** The first token of a tree in argument position. */
  function FirstKind(c: Cst): TokenKind {
    match c
    case IntText(_) => TokenKind.IntLit
    case StrText(_) => TokenKind.StrLit
    case Truth(b) => if b then KwTrue else KwFalse
    case Name(_) => TokenKind.Ident
    case Paren(_) => LParen
    case Prefixed(op, _) => PrefixKind(op)
    case Infix(_, l, _) => FirstKind(l)
    case Applied(head, _) => FirstKind(head)
  }

  lemma {:induction false} FirstToken(c: Cst, min: nat)
    requires Fits(c, min)
    ensures TreeText(c) != [] && TreeText(c)[0].kind == FirstKind(c) && StartsArg(FirstKind(c))
    decreases c
  {
    if c.Infix? {
      FirstToken(c.left, min);
    } else if c.Applied? {
      FirstToken(c.head, 0);
    }
  }

  lemma {:induction false} NameOfPath(p: Path)
    requires CanonicalPath(p)
    ensures NameOf(Meaning(Name(p))) == p && IsName(Meaning(Name(p))) && Meaning(Name(p)) == NameExpr(p)
    ensures IsHead(Name(p)) && ArgFits(Name(p)) && TreeText(Name(p)) == PathText(p)
  {
    if |p.segments| == 1 {
      assert p.segments == [p.segments[0]];
    }
  }

  // ----- reading back -----

  /** One more segment. */
  lemma {:induction false} SegmentReads(ts: seq<Token>, i: nat, errs: seq<string>, done: seq<string>, sep: PathSep, was: PathSep, segment: string)
    requires Stream(ts) && sep != Single && (was == Single || was == sep)
    requires Spelled(ts, i, [SepSpelling(sep), NameSpelling(segment)]) && i + 2 < |ts|
    ensures PathRest(ts, St(i, errs), done, was) == PathRest(ts, St(i + 2, errs), done + [segment], sep)
  {
    SegmentTokens(ts, i, sep, segment);
    hide FixedText, Spelled, SepSpelling, NameSpelling;
  }

  lemma {:induction false} SegmentTokens(ts: seq<Token>, i: nat, sep: PathSep, segment: string)
    requires sep != Single && Spelled(ts, i, [SepSpelling(sep), NameSpelling(segment)])
    ensures i + 1 < |ts| && SeparatorAt(ts[i].kind) == Some(sep) && ts[i + 1].kind == TokenKind.Ident && ts[i + 1].lexeme == segment
  {
    hide FixedText;
    var ps := [SepSpelling(sep), NameSpelling(segment)];
    assert Matches(ts[i + 0], ps[0]) && Matches(ts[i + 1], ps[1]);
  }

  lemma {:induction false} NoSegmentsRead(ts: seq<Token>, i: nat, errs: seq<string>, done: seq<string>, was: PathSep, next: TokenKind)
    requires Stream(ts) && i < |ts| && ts[i].kind == next && !ContinuesPath(next)
    ensures PathRest(ts, St(i, errs), done, was) == Segments(Path(done, was), St(i, errs))
  {}

  lemma {:induction false} SegmentsRead(ts: seq<Token>, i: nat, errs: seq<string>, done: seq<string>, more: seq<string>,
                                        was: PathSep, sep: PathSep, next: TokenKind)
    requires Here(ts, i, SegmentsText(more, sep), next) && !ContinuesPath(next)
    requires (was == Single || was == sep) && (more != [] ==> sep != Single)
    ensures PathRest(ts, St(i, errs), done, was)
         == Segments(Path(done + more, if more == [] then was else sep), St(i + |SegmentsText(more, sep)|, errs))
    decreases more
  {
    hide PathRest, SepSpelling, NameSpelling, ContinuesPath, Spelled, StartsArg;
    if more == [] {
      assert done + more == done;
      NoSegmentsRead(ts, i, errs, done, was, next);
    } else {
      var ps := [SepSpelling(sep), NameSpelling(more[0])];
      SpelledSplit(ts, i, ps, SegmentsText(more[1..], sep));
      SegmentReads(ts, i, errs, done, sep, was, more[0]);
      SegmentsRead(ts, i + 2, errs, done + [more[0]], more[1..], sep, sep, next);
      assert done + [more[0]] + more[1..] == done + more;
    }
  }

  lemma {:induction false} PathReads(ts: seq<Token>, i: nat, errs: seq<string>, p: Path, next: TokenKind)
    requires CanonicalPath(p) && Here(ts, i, PathText(p), next) && !ContinuesPath(next)
    ensures ParsePath(ts, St(i, errs)) == PathResult(Some(p), St(i + |PathText(p)|, errs))
    ensures ts[i].kind == TokenKind.Ident && |PathText(p)| > 0
  {
    hide PathRest, SegmentsText, ContinuesPath;
    var first, rest := [NameSpelling(p.segments[0])], SegmentsText(p.segments[1..], p.sep);
    SpelledSplit(ts, i, first, rest);
    SpelledOne(ts, i, first[0]);
    SegmentsRead(ts, i + 1, errs, [p.segments[0]], p.segments[1..], Single, p.sep, next);
    assert [p.segments[0]] + p.segments[1..] == p.segments;
  }
}
