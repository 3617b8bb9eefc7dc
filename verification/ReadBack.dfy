/** The parser reads back every tree of the grammar as it is written. */
module ReadBack {
  import opened Ast
  import opened Tokens
  import opened Parsing
  import opened Grammar
  import StringLiterals

  /** Tokens that nothing runs on into. */
  predicate Closes(next: TokenKind) {
    !StartsArg(next) && !ContinuesPath(next) && BinaryOperator(next).None?
  }

  lemma {:induction false} StopsAtCloser(c: Cst, next: TokenKind)
    requires Closes(next)
    ensures Stops(c, next) && ArgStops(c, next)
    decreases c
  {
    hide StartsArg, ContinuesPath, BinaryOperator, Meaning;
    match c
    case Paren(x) =>
    case Prefixed(_, x) => StopsAtCloser(x, next);
    case Infix(_, _, r) => StopsAtCloser(r, next);
    case Applied(_, args) =>
      if args != [] {
        StopsAtCloser(args[|args| - 1], next);
      }
    case _ =>
  }

  // ----- single steps of the parser -----

  lemma {:induction false} NoOperator(ts: seq<Token>, s: St, e: Expr, min: nat)
    requires On(ts, s) && OperatorStops(min, Kind(ts, s))
    ensures BinaryRest(ts, s, e, min) == ExprResult(e, s)
  {}

  lemma {:induction false} NoCall(ts: seq<Token>, s: St, e: Expr)
    requires On(ts, s) && (IsName(e) ==> !StartsArg(Kind(ts, s)))
    ensures FinishCall(ts, s, e) == ExprResult(e, s)
  {}

  lemma {:induction false} Joins(ts: seq<Token>, s: St, min: nat)
    requires On(ts, s)
    ensures var p := ParsePrefix(ts, s);
      var c := FinishCall(ts, p.s, p.e);
      ParseExpr(ts, s, min) == BinaryRest(ts, c.s, c.e, min)
  {
    hide ParsePrefix, FinishCall, BinaryRest;
  }

  /** Past the operator and its right operand. */
  lemma {:induction false} OneOperator(ts: seq<Token>, s: St, e: Expr, op: BinaryOp, min: nat)
    requires On(ts, s) && Kind(ts, s) == OperatorKind(op) && Power(op).left >= min && s.i + 1 < |ts|
    ensures var rhs := ParseExpr(ts, St(s.i + 1, s.errs), Power(op).right);
      BinaryRest(ts, s, e, min) == BinaryRest(ts, rhs.s, Binary(op, e, rhs.e), min)
  {
    hide ParseExpr, OperatorKind, BinaryOperator;
  }

  lemma {:induction false} ParenStep(ts: seq<Token>, s: St)
    requires On(ts, s) && Kind(ts, s) == LParen && s.i + 1 < |ts|
    ensures var x := ParseExpr(ts, St(s.i + 1, s.errs), 0);
      ParsePrefix(ts, s) == ExprResult(x.e, Skim(ts, x.s, RParen))
  {
    hide ParseExpr, Skim, ParsePath, ParsePrimary;
    PrimaryParen(ts, s);
  }

  lemma {:induction false} PrimaryParen(ts: seq<Token>, s: St)
    requires On(ts, s) && Kind(ts, s) == LParen && s.i + 1 < |ts|
    ensures var x := ParseExpr(ts, St(s.i + 1, s.errs), 0);
      ParsePrimary(ts, s) == ExprResult(x.e, Skim(ts, x.s, RParen))
  {
    hide ParseExpr, Skim, ParsePath, ParseIntValue, StringLiterals.Decode;
  }

  lemma {:induction false} SkimTakes(ts: seq<Token>, s: St, kind: TokenKind)
    requires On(ts, s) && Kind(ts, s) == kind && s.i + 1 < |ts|
    ensures Skim(ts, s, kind) == St(s.i + 1, s.errs)
  {}

  lemma {:induction false} PrefixStep(ts: seq<Token>, s: St, op: UnaryOp)
    requires On(ts, s) && Kind(ts, s) == PrefixKind(op) && s.i + 1 < |ts|
    ensures var x := ParseExpr(ts, St(s.i + 1, s.errs), 8); ParsePrefix(ts, s) == ExprResult(Unary(op, x.e), x.s)
  {
    hide ParseExpr, ParsePrimary;
  }

  lemma {:induction false} CallStep(ts: seq<Token>, s: St, e: Expr)
    requires On(ts, s) && IsName(e) && StartsArg(Kind(ts, s))
    ensures var r := ParseArgs(ts, s); FinishCall(ts, s, e) == ExprResult(Call(NameOf(e), r.args), r.s)
  {
    hide ParseArgs, StartsArg;
  }

  lemma {:induction false} ArgStep(ts: seq<Token>, s: St)
    requires On(ts, s) && StartsArg(Kind(ts, s))
    ensures var first := ParsePrefix(ts, s);
      var rest := ParseArgs(ts, first.s);
      ParseArgs(ts, s) == ArgsResult([first.e] + rest.args, rest.s)
  {
    hide ParsePrefix, StartsArg;
  }

  lemma {:induction false} NoArg(ts: seq<Token>, s: St)
    requires On(ts, s) && !StartsArg(Kind(ts, s))
    ensures ParseArgs(ts, s) == ArgsResult([], s)
  {
    hide ParsePrefix, StartsArg;
  }

  // ----- trees -----

  /** A tree read where operators must bind at least as tightly as `min`: what remains is the operators after it. */
  lemma {:induction false} Reads(ts: seq<Token>, i: nat, errs: seq<string>, c: Cst, min: nat, next: TokenKind)
    requires Fits(c, min) && Here(ts, i, TreeText(c), next) && Stops(c, next)
    ensures ParseExpr(ts, St(i, errs), min) == BinaryRest(ts, St(i + |TreeText(c)|, errs), Meaning(c), min)
    decreases c, 1
  {
    hide ParseExpr, ParsePrefix, FinishCall, BinaryRest, TreeText, Here, Fits, Stops, Meaning, ArgStops, ArgFits;
    if c.Infix? {
      InfixReads(ts, i, errs, c, min, next);
    } else {
      HereEnds(ts, i, TreeText(c), next);
      Joins(ts, St(i, errs), min);
      if c.Applied? {
        AppliedReads(ts, i, errs, c, min, next);
      } else {
        UnitFits(c, min, next);
        ArgReads(ts, i, errs, c, next);
        NoCall(ts, St(i + |TreeText(c)|, errs), Meaning(c));
      }
    }
  }

  lemma {:induction false} UnitFits(c: Cst, min: nat, next: TokenKind)
    requires !c.Infix? && !c.Applied? && Fits(c, min) && Stops(c, next)
    ensures ArgFits(c) && ArgStops(c, next) && (IsName(Meaning(c)) ==> !StartsArg(next))
  {
    hide StartsArg, ContinuesPath, OperatorStops;
  }

  lemma {:induction false} InfixReads(ts: seq<Token>, i: nat, errs: seq<string>, c: Cst, min: nat, next: TokenKind)
    requires c.Infix?
    requires Fits(c, min) && Here(ts, i, TreeText(c), next) && Stops(c, next)
    ensures ParseExpr(ts, St(i, errs), min) == BinaryRest(ts, St(i + |TreeText(c)|, errs), Meaning(c), min)
    decreases c, 0
  {
    hide ParseExpr, BinaryRest, TreeText, Here, Fits, Stops, Spelled, OperatorStops, OperatorKind, Power, BinaryOperator;
    InfixAllows(c, min, next);
    InfixParts(ts, i, c, next);
    var op := c.op;
    var j := i + |TreeText(c.left)|;
    var k := j + 1 + |TreeText(c.right)|;
    Reads(ts, i, errs, c.left, min, OperatorKind(op));
    OneOperator(ts, St(j, errs), Meaning(c.left), op, min);
    Reads(ts, j + 1, errs, c.right, Power(op).right, next);
    NoOperator(ts, St(k, errs), Meaning(c.right), Power(op).right);
  }

  lemma {:induction false} InfixParts(ts: seq<Token>, i: nat, c: Cst, next: TokenKind)
    requires c.Infix? && Here(ts, i, TreeText(c), next)
    ensures var j := i + |TreeText(c.left)|;
      var k := j + 1 + |TreeText(c.right)|;
      && k == i + |TreeText(c)| && k < |ts| && ts[k].kind == next && Stream(ts) && ts[j].kind == OperatorKind(c.op)
      && Here(ts, i, TreeText(c.left), OperatorKind(c.op)) && Here(ts, j + 1, TreeText(c.right), next)
  {
    hide FixedText, Spelled, OperatorKind, Here;
    var l, o, r := TreeText(c.left), Fixed(OperatorKind(c.op)), TreeText(c.right);
    Chain(ts, i, l, [o] + r, next);
    Lead(ts, i + |l|, o, r, next);
    HereEnds(ts, i + |l| + 1, r, next);
  }

  lemma {:induction false} InfixAllows(c: Cst, min: nat, next: TokenKind)
    requires c.Infix? && Fits(c, min) && Stops(c, next)
    ensures Power(c.op).left >= min && Fits(c.left, min) && Stops(c.left, OperatorKind(c.op)) && Fits(c.right, Power(c.op).right)
    ensures Stops(c.right, next) && OperatorStops(Power(c.op).right, next)
  {
    hide OperatorKind, BinaryOperator, StartsArg, ContinuesPath;
  }

  lemma {:induction false} AppliedReads(ts: seq<Token>, i: nat, errs: seq<string>, c: Cst, min: nat, next: TokenKind)
    requires c.Applied?
    requires Fits(c, min) && Here(ts, i, TreeText(c), next) && Stops(c, next)
    ensures On(ts, St(i, errs))
    ensures var p := ParsePrefix(ts, St(i, errs));
      FinishCall(ts, p.s, p.e) == ExprResult(Meaning(c), St(i + |TreeText(c)|, errs))
    decreases c, 0
  {
    hide ParseArgs, ParsePrefix, FinishCall, Spelled, StartsArg, TreeText, ArgsText, PathText, Here, ArgStops, ContinuesPath, ArgsFit,
         FirstKind, Fits, Stops, CanonicalPath;
    AppliedAllows(c, min, next);
    AppliedParts(ts, i, c, next);
    var j := i + |TreeText(c.head)|;
    ArgReads(ts, i, errs, c.head, FirstKind(c.args[0]));
    CallStep(ts, St(j, errs), Meaning(c.head));
    ArgsRead(ts, j, errs, c.args, next);
  }

  lemma {:induction false} AppliedAllows(c: Cst, min: nat, next: TokenKind)
    requires c.Applied? && Fits(c, min) && Stops(c, next)
    ensures IsName(Meaning(c.head)) && ArgFits(c.head) && c.args != [] && ArgsFit(c.args)
    ensures ArgStops(c.head, FirstKind(c.args[0]))
    ensures !StartsArg(next) && ArgStops(c.args[|c.args| - 1], next)
  {
    FirstArg(c.args);
    hide StartsArg, ContinuesPath, FirstKind;
  }

  lemma {:induction false} AppliedParts(ts: seq<Token>, i: nat, c: Cst, next: TokenKind)
    requires c.Applied? && c.args != [] && ArgsFit(c.args) && Here(ts, i, TreeText(c), next)
    ensures var j := i + |TreeText(c.head)|;
      var first := FirstKind(c.args[0]);
      && Stream(ts) && |TreeText(c)| == |TreeText(c.head)| + |ArgsText(c.args)|
      && j < |ts| && ts[j].kind == first && StartsArg(first) && !ContinuesPath(first)
      && Here(ts, i, TreeText(c.head), first) && Here(ts, j, ArgsText(c.args), next)
  {
    hide Spelled, PathText, FirstKind, Here, ArgsFit, ArgsText, StartsArg, ContinuesPath;
    FirstArg(c.args);
    HereEnds(ts, i, TreeText(c), next);
    Chain(ts, i, TreeText(c.head), ArgsText(c.args), next);
  }

  lemma {:induction false} FirstArg(args: seq<Cst>)
    requires args != [] && ArgsFit(args)
    ensures StartsArg(FirstKind(args[0])) && !ContinuesPath(FirstKind(args[0]))
    ensures ArgsText(args) != [] && ArgsText(args)[0].kind == FirstKind(args[0])
  {
    hide FirstKind, TreeText;
    FirstToken(args[0], 0);
  }

  lemma {:induction false} NameReads(ts: seq<Token>, i: nat, errs: seq<string>, p: Path, next: TokenKind)
    requires CanonicalPath(p) && Here(ts, i, PathText(p), next) && !ContinuesPath(next)
    ensures ParsePrefix(ts, St(i, errs)) == ExprResult(NameExpr(p), St(i + |PathText(p)|, errs))
  {
    PathReads(ts, i, errs, p, next);
    hide ParsePath, ParseExpr, Skim, ParseIntValue, StringLiterals.Decode, PathText, ContinuesPath, NameExpr;
  }

  lemma {:induction false} ArgsRead(ts: seq<Token>, i: nat, errs: seq<string>, args: seq<Cst>, next: TokenKind)
    requires ArgsFit(args) && Here(ts, i, ArgsText(args), next) && !StartsArg(next)
    requires args != [] ==> ArgStops(args[|args| - 1], next)
    ensures ParseArgs(ts, St(i, errs)) == ArgsResult(Meanings(args), St(i + |ArgsText(args)|, errs))
    decreases args
  {
    hide Spelled, StartsArg, ArgFits, ArgStops, FirstKind, TreeText, Here, ParsePrefix, ParseArgs, ContinuesPath;
    HereEnds(ts, i, ArgsText(args), next);
    if args == [] {
      NoArg(ts, St(i, errs));
    } else {
      ArgsAllow(args, next);
      ArgsParts(ts, i, args, next);
      hide ArgsText, ArgsFit;
      ArgStep(ts, St(i, errs));
      ArgReads(ts, i, errs, args[0], if |args| > 1 then FirstKind(args[1]) else next);
      ArgsRead(ts, i + |TreeText(args[0])|, errs, args[1..], next);
    }
  }

  lemma {:induction false} ArgsParts(ts: seq<Token>, i: nat, args: seq<Cst>, next: TokenKind)
    requires args != [] && ArgsFit(args) && Here(ts, i, ArgsText(args), next)
    ensures var j := i + |TreeText(args[0])|;
      && j < |ts| && StartsArg(ts[i].kind) && |ArgsText(args)| == |TreeText(args[0])| + |ArgsText(args[1..])|
      && Here(ts, i, TreeText(args[0]), if |args| > 1 then FirstKind(args[1]) else next) && Here(ts, j, ArgsText(args[1..]), next)
  {
    hide Spelled, StartsArg, FirstKind, TreeText, Here, ContinuesPath, ArgFits, ArgStops;
    FirstArg(args);
    FirstHere(ts, i, ArgsText(args), next);
    var first, rest := TreeText(args[0]), ArgsText(args[1..]);
    if |args| > 1 {
      FirstArg(args[1..]);
      Chain(ts, i, first, rest, next);
    } else {
      assert first + rest == first;
      HereEnds(ts, i, first, next);
      NothingHere(ts, i + |first|, next);
    }
  }

  lemma {:induction false} FirstHere(ts: seq<Token>, i: nat, ps: seq<Spelling>, next: TokenKind)
    requires Here(ts, i, ps, next) && ps != []
    ensures i < |ts| && ts[i].kind == ps[0].kind
  {
    FirstSpelled(ts, i, ps);
  }

  lemma {:induction false} NothingHere(ts: seq<Token>, i: nat, next: TokenKind)
    requires Stream(ts) && i < |ts| && ts[i].kind == next
    ensures Here(ts, i, [], next)
  {}

  lemma {:induction false} ArgsAllow(args: seq<Cst>, next: TokenKind)
    requires ArgsFit(args) && args != [] && ArgStops(args[|args| - 1], next)
    ensures ArgFits(args[0]) && ArgsFit(args[1..]) && ArgStops(args[0], if |args| > 1 then FirstKind(args[1]) else next)
  {
    hide ArgStops, ArgFits, FirstKind;
  }

  /** A tree read in argument position. */
  lemma {:induction false} ArgReads(ts: seq<Token>, i: nat, errs: seq<string>, c: Cst, next: TokenKind)
    requires ArgFits(c) && Here(ts, i, TreeText(c), next) && ArgStops(c, next)
    ensures ParsePrefix(ts, St(i, errs)) == ExprResult(Meaning(c), St(i + |TreeText(c)|, errs))
    decreases c, 0
  {
    hide ParsePrefix, Here, Stops, OperatorStops, ContinuesPath, StartsArg;
    match c
    case Name(path) => NameReads(ts, i, errs, path, next);
    case Paren(_) => ParenReads(ts, i, errs, c, next);
    case Prefixed(_, _) => PrefixedReads(ts, i, errs, c, next);
    case _ => LiteralReads(ts, i, errs, c, next);
  }

  lemma {:induction false} LiteralReads(ts: seq<Token>, i: nat, errs: seq<string>, c: Cst, next: TokenKind)
    requires c.IntText? || c.StrText? || c.Truth?
    requires Here(ts, i, TreeText(c), next)
    ensures ParsePrefix(ts, St(i, errs)) == ExprResult(Meaning(c), St(i + |TreeText(c)|, errs))
  {
    hide ParseExpr, ParsePath, Skim, ParseIntValue, StringLiterals.Decode, FixedText;
    SpelledOne(ts, i, TreeText(c)[0]);
  }

  lemma {:induction false} ParenReads(ts: seq<Token>, i: nat, errs: seq<string>, c: Cst, next: TokenKind)
    requires c.Paren?
    requires ArgFits(c) && Here(ts, i, TreeText(c), next)
    ensures ParsePrefix(ts, St(i, errs)) == ExprResult(Meaning(c), St(i + |TreeText(c)|, errs))
    decreases c.inner, 2
  {
    hide ParseExpr, ParsePrefix, BinaryRest, Spelled, TreeText, StartsArg, Stops, Fits, ArgFits, Here, Skim, OperatorStops;
    ParenParts(ts, i, c, next);
    ParenAllows(c);
    var k := i + 1 + |TreeText(c.inner)|;
    ParenStep(ts, St(i, errs));
    Reads(ts, i + 1, errs, c.inner, 0, RParen);
    NoOperator(ts, St(k, errs), Meaning(c.inner), 0);
    SkimTakes(ts, St(k, errs), RParen);
  }

  lemma {:induction false} ParenParts(ts: seq<Token>, i: nat, c: Cst, next: TokenKind)
    requires c.Paren? && Here(ts, i, TreeText(c), next)
    ensures var k := i + 1 + |TreeText(c.inner)|;
      && Stream(ts) && |TreeText(c)| == k + 1 - i && k + 1 < |ts| && ts[i].kind == LParen && ts[k].kind == RParen
      && Here(ts, i + 1, TreeText(c.inner), RParen)
  {
    hide FixedText, Spelled, Here;
    Around(ts, i, Fixed(LParen), TreeText(c.inner), Fixed(RParen), next);
    HereEnds(ts, i, TreeText(c), next);
  }

  lemma {:induction false} ParenAllows(c: Cst)
    requires c.Paren? && ArgFits(c)
    ensures Fits(c.inner, 0) && Stops(c.inner, RParen) && OperatorStops(0, RParen)
  {
    StopsAtCloser(c.inner, RParen);
  }

  lemma {:induction false} PrefixedReads(ts: seq<Token>, i: nat, errs: seq<string>, c: Cst, next: TokenKind)
    requires c.Prefixed?
    requires ArgFits(c) && Here(ts, i, TreeText(c), next) && ArgStops(c, next)
    ensures ParsePrefix(ts, St(i, errs)) == ExprResult(Meaning(c), St(i + |TreeText(c)|, errs))
    decreases c.x, 2
  {
    hide ParseExpr, ParsePrefix, Spelled, TreeText, Here, Fits, Stops, OperatorStops, ArgFits, ArgStops, BinaryRest, PrefixKind;
    PrefixedParts(ts, i, c, next);
    PrefixStep(ts, St(i, errs), c.uop);
    Reads(ts, i + 1, errs, c.x, 8, next);
    NoOperator(ts, St(i + 1 + |TreeText(c.x)|, errs), Meaning(c.x), 8);
  }

  lemma {:induction false} PrefixedParts(ts: seq<Token>, i: nat, c: Cst, next: TokenKind)
    requires c.Prefixed? && ArgFits(c) && Here(ts, i, TreeText(c), next) && ArgStops(c, next)
    ensures var k := i + 1 + |TreeText(c.x)|;
      && Stream(ts) && k < |ts| && ts[k].kind == next && |TreeText(c)| == 1 + |TreeText(c.x)| && ts[i].kind == PrefixKind(c.uop)
      && Fits(c.x, 8) && Here(ts, i + 1, TreeText(c.x), next) && Stops(c.x, next) && OperatorStops(8, next)
  {
    hide FixedText, Spelled, Here, OperatorStops, PrefixKind, StartsArg, ContinuesPath;
    Lead(ts, i, Fixed(PrefixKind(c.uop)), TreeText(c.x), next);
    HereEnds(ts, i + 1, TreeText(c.x), next);
  }

  /** Read as a whole expression: exactly the tree, and then the next token. */
  lemma {:induction false} ReadsWhole(ts: seq<Token>, i: nat, errs: seq<string>, c: Cst, min: nat, next: TokenKind)
    requires Fits(c, min) && Here(ts, i, TreeText(c), next) && Stops(c, next) && OperatorStops(min, next)
    ensures ParseExpr(ts, St(i, errs), min) == ExprResult(Meaning(c), St(i + |TreeText(c)|, errs))
  {
    hide ParseExpr, BinaryRest, Fits, Stops, TreeText, OperatorStops, Spelled, Here;
    HereEnds(ts, i, TreeText(c), next);
    Reads(ts, i, errs, c, min, next);
    NoOperator(ts, St(i + |TreeText(c)|, errs), Meaning(c), min);
  }
}
