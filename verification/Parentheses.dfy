/** The parentheses that the minimal printing puts around operands of prefix operators and around arguments: without
    them the text parses to another tree. */
module Parentheses {
  import opened Ast
  import opened Tokens
  import opened Parsing
  import opened Grammar
  import opened ReadBack
  import opened Printer

  // ----- prefix operators -----

  /** A tree with a prefix operator before its text: the operator takes the leftmost operand. */
  function Graft(op: UnaryOp, c: Cst): Cst
    decreases c
  {
    if c.Infix? then Infix(c.op, Graft(op, c.left), c.right) else Prefixed(op, c)
  }

  lemma {:induction false} GraftText(op: UnaryOp, c: Cst)
    ensures TreeText(Graft(op, c)) == [Fixed(PrefixKind(op))] + TreeText(c)
    decreases c
  {
    hide Fixed, OperatorKind, PrefixKind;
    if c.Infix? {
      GraftText(op, c.left);
      assert ([Fixed(PrefixKind(op))] + TreeText(c.left)) + ([Fixed(OperatorKind(c.op))] + TreeText(c.right))
          == [Fixed(PrefixKind(op))] + (TreeText(c.left) + ([Fixed(OperatorKind(c.op))] + TreeText(c.right)));
    }
  }

  lemma {:induction false} GraftStops(op: UnaryOp, c: Cst, next: BinaryOp)
    requires Stops(c, OperatorKind(next))
    ensures Stops(Graft(op, c), OperatorKind(next))
  {
    var power := Power(next);
    hide OperatorKind, BinaryOperator, StartsArg, ContinuesPath;
  }

  lemma {:induction false} UnitFitsAnywhere(c: Cst, min: nat, other: nat)
    requires !c.Infix? && Fits(c, min)
    ensures Fits(c, other)
  {
    hide Stops, ArgsFit;
  }

  lemma {:induction false} GraftFits(op: UnaryOp, c: Cst, min: nat)
    requires Fits(c, min)
    ensures Fits(Graft(op, c), min)
    decreases c
  {
    hide Stops, OperatorKind, BinaryOperator;
    if c.Infix? {
      GraftFits(op, c.left, min);
      GraftStops(op, c.left, c.op);
    } else {
      UnitFitsAnywhere(c, min, 8);
    }
  }

  lemma {:induction false} TightFits(c: Cst)
    requires Fits(c, 0)
    ensures Fits(c, 8) <==> !c.Infix?
  {
    if c.Infix? {
      var power := Power(c.op);
    } else {
      UnitFitsAnywhere(c, 0, 8);
    }
  }

  /** A prefix operator before the text of any tree: what is parsed is the operator on the whole tree, exactly when the
      tree needs no parentheses there. */
  lemma {:induction false} OperandNeeds(ts: seq<Token>, i: nat, errs: seq<string>, op: UnaryOp, c: Cst, next: TokenKind)
    requires Fits(c, 0) && Closes(next) && Here(ts, i, [Fixed(PrefixKind(op))] + TreeText(c), next)
    ensures Fits(c, 8) <==> ParseExpr(ts, St(i, errs), 0).e == Unary(op, Meaning(c))
  {
    hide ParseExpr, Fits, Stops, Here, TreeText, PrefixKind;
    var g := Graft(op, c);
    GraftText(op, c);
    GraftFits(op, c, 0);
    StopsAtCloser(g, next);
    ReadsWhole(ts, i, errs, g, 0, next);
    TightFits(c);
  }

  // ----- arguments -----

  /** What is read as an argument where a tree's text starts. */
  function First(c: Cst): Cst
    decreases c
  {
    match c
    case Infix(_, l, _) => First(l)
    case Applied(head, _) => head
    case _ => c
  }

  lemma {:induction false} FirstReads(ts: seq<Token>, i: nat, errs: seq<string>, c: Cst, min: nat, next: TokenKind)
    requires Fits(c, min) && Here(ts, i, TreeText(c), next) && Stops(c, next)
    ensures i < |ts| && Stream(ts) && ParsePrefix(ts, St(i, errs)).e == Meaning(First(c))
    decreases c
  {
    hide ParsePrefix, TreeText, PathText, ArgsText, Here, Fits, Stops, ArgStops, ArgFits, OperatorStops, StartsArg, ContinuesPath, CanonicalPath,
      FirstKind, OperatorKind, Power;
    HereEnds(ts, i, TreeText(c), next);
    if c.Infix? {
      InfixAllows(c, min, next);
      InfixParts(ts, i, c, next);
      FirstReads(ts, i, errs, c.left, min, OperatorKind(c.op));
    } else if c.Applied? {
      AppliedAllows(c, min, next);
      AppliedParts(ts, i, c, next);
      ArgReads(ts, i, errs, c.head, FirstKind(c.args[0]));
    } else {
      UnitFits(c, min, next);
      ArgReads(ts, i, errs, c, next);
    }
  }

  predicate PlainName(e: Expr) {
    e.Ident? || e.PathExpr?
  }

  lemma {:induction false} FirstSmaller(c: Cst, min: nat)
    requires (c.Infix? || c.Applied?) && Fits(c, min)
    ensures PlainName(Meaning(First(c))) || Meaning(First(c)) < Meaning(c)
    ensures Meaning(First(c)) != Meaning(c)
    decreases c
  {
    hide Stops, OperatorKind, ArgsFit;
    if c.Infix? && (c.left.Infix? || c.left.Applied?) {
      FirstSmaller(c.left, min);
    }
  }

  /** Operators after an expression leave it as it is, or make it an operand. */
  lemma {:induction false} RestKeeps(ts: seq<Token>, s: St, e: Expr, min: nat)
    requires On(ts, s)
    ensures BinaryRest(ts, s, e, min).e == e || BinaryRest(ts, s, e, min).e.Binary?
    decreases |ts| - s.i
  {
    hide ParseExpr, OperatorKind;
    match BinaryOperator(Kind(ts, s))
    case None =>
    case Some(o) =>
      if o.left >= min {
        var rhs := ParseExpr(ts, Bump(ts, s), o.right);
        RestStep(ts, s, e, min, o);
        RestKeeps(ts, rhs.s, Binary(o.op, e, rhs.e), min);
      }
  }

  lemma {:induction false} RestStep(ts: seq<Token>, s: St, e: Expr, min: nat, o: Operator)
    requires On(ts, s) && BinaryOperator(Kind(ts, s)) == Some(o) && o.left >= min
    ensures var rhs := ParseExpr(ts, Bump(ts, s), o.right);
      s.i < rhs.s.i < |ts| && BinaryRest(ts, s, e, min) == BinaryRest(ts, rhs.s, Binary(o.op, e, rhs.e), min)
  {
    hide ParseExpr;
    assert Kind(ts, s) != Eof;
  }

  /** What a name with arguments after it parses to. */
  lemma {:induction false} CallReads(ts: seq<Token>, i: nat, errs: seq<string>, f: Path, c: Cst, next: TokenKind)
    requires CanonicalPath(f) && Fits(c, 0) && Closes(next) && Here(ts, i, PathText(f) + TreeText(c), next)
    ensures var e := ParseExpr(ts, St(i, errs), 0).e;
      e.Binary? || (e.Call? && e.args != [] && e.args[0] == Meaning(First(c)))
  {
    hide ParseExpr, ParsePrefix, FinishCall, ParseArgs, BinaryRest, TreeText, PathText, Here, Fits, Stops, StartsArg, ContinuesPath,
      FirstKind, CanonicalPath, Closes;
    FirstToken(c, 0);
    KindOfArg(FirstKind(c));
    Chain(ts, i, PathText(f), TreeText(c), next);
    HereEnds(ts, i, PathText(f), FirstKind(c));
    var j := i + |PathText(f)|;
    StopsAtCloser(c, next);
    NameReads(ts, i, errs, f, FirstKind(c));
    Joins(ts, St(i, errs), 0);
    NameOfPath(f);
    CallStep(ts, St(j, errs), Meaning(Name(f)));
    ArgStep(ts, St(j, errs));
    FirstReads(ts, j, errs, c, 0, next);
    var r := ParseArgs(ts, St(j, errs));
    RestKeeps(ts, r.s, Call(f, r.args), 0);
  }

  lemma {:induction false} KindOfArg(k: TokenKind)
    requires StartsArg(k)
    ensures !ContinuesPath(k)
  {}

  /** A name before the text of any tree: what is parsed is the call with the whole tree as its one argument, exactly
      when the tree needs no parentheses there. */
  lemma {:induction false} ArgumentNeeds(ts: seq<Token>, i: nat, errs: seq<string>, f: Path, c: Cst, next: TokenKind)
    requires CanonicalPath(f) && Fits(c, 0) && Closes(next) && Here(ts, i, PathText(f) + TreeText(c), next)
    ensures ArgFits(c) <==> ParseExpr(ts, St(i, errs), 0).e == Call(f, [Meaning(c)])
  {
    hide ParseExpr, Stops, Here, TreeText, PathText, Meaning, ArgsText, CanonicalPath;
    if c.Infix? || c.Applied? {
      CallReads(ts, i, errs, f, c, next);
      FirstSmaller(c, 0);
    } else {
      var a := Applied(Name(f), [c]);
      OneArgument(f, c);
      StopsAtCloser(a, next);
      ReadsWhole(ts, i, errs, a, 0, next);
    }
  }

  lemma {:induction false} OneArgument(f: Path, c: Cst)
    requires CanonicalPath(f) && ArgFits(c)
    ensures var a := Applied(Name(f), [c]);
      Fits(a, 0) && TreeText(a) == PathText(f) + TreeText(c) && Meaning(a) == Call(f, [Meaning(c)])
  {
    NameOfPath(f);
    hide PathText;
    var cs := [c];
    assert cs[1..] == [];
    assert ArgsFit(cs);
    assert ArgsText(cs) == TreeText(c) + [] == TreeText(c);
    assert Meanings(cs) == [Meaning(c)];
  }

  // ----- as printed -----

  /** The minimal printing parenthesises the operand of a prefix operator exactly when the text without those
      parentheses parses to something else. */
  lemma {:induction false} OperandParenNeeded(ts: seq<Token>, i: nat, errs: seq<string>, op: UnaryOp, x: Expr, next: TokenKind)
    requires Printable(x) && Closes(next) && Here(ts, i, [Fixed(PrefixKind(op))] + TreeText(Show(false, x)), next)
    ensures Show(false, Unary(op, x)) == Prefixed(op, Paren(Show(false, x))) <==> ParseExpr(ts, St(i, errs), 0).e != Unary(op, x)
  {
    hide ParseExpr, Fits, Here, TreeText, PrefixKind, Meaning, Closes;
    var c := Show(false, x);
    ShowFits(false, x);
    OperandNeeds(ts, i, errs, op, c, next);
    assert c < Paren(c);
  }

  /** And the argument of a call. */
  lemma {:induction false} ArgumentParenNeeded(ts: seq<Token>, i: nat, errs: seq<string>, f: Path, x: Expr, next: TokenKind)
    requires Printable(Call(f, [x])) && Printable(x)
    requires Closes(next) && Here(ts, i, PathText(f) + TreeText(Show(false, x)), next)
    ensures Show(false, Call(f, [x])) == Applied(Name(f), [Paren(Show(false, x))]) <==> ParseExpr(ts, St(i, errs), 0).e != Call(f, [x])
  {
    hide ParseExpr, Fits, Here, TreeText, PathText, Meaning, Closes, ArgFits;
    var c := Show(false, x);
    ShowFits(false, x);
    ArgumentNeeds(ts, i, errs, f, c, next);
    OneShown(x);
    assert c < Paren(c);
  }

  lemma {:induction false} OneShown(x: Expr)
    requires Printable(x)
    ensures AllPrintable([x]) && ShowArgs(false, [x]) == [Wrap(Show(false, x), !ArgFits(Show(false, x)))]
  {
    hide Show, ArgFits, Printable;
    assert [x][1..] == [];
  }
}
