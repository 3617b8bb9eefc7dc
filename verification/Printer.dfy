/** A printer for syntax trees, in two styles: parentheses around every operand, or only where the binding
    powers and the call syntax require them. */
module Printer {
  import opened Ast
  import opened Tokens
  import opened Parsing
  import opened Grammar
  import opened TokenShapes
  import StringLiterals

  // ----- numbers -----

  function DecimalDigit(n: nat): char
    requires n < 10
  {
    ('0' as int + n) as char
  }

  function Decimal(n: nat): (s: string)
    ensures s != ""
  {
    if n < 10 then [DecimalDigit(n)] else Decimal(n / 10) + [DecimalDigit(n % 10)]
  }

  lemma {:induction false} DigitsAppend(s: string, c: char, base: nat, acc: nat)
    requires DigitsValue(s, base, acc).Some? && IsDigitOf(c, base)
    ensures DigitsValue(s + [c], base, acc) == Some(DigitsValue(s, base, acc).value * base + DigitValue(c).value)
    decreases s
  {
    if s == "" {
      assert s + [c] == [c];
      assert [c][1..] == "";
    } else {
      assert (s + [c])[1..] == s[1..] + [c];
      DigitsAppend(s[1..], c, base, acc * base + DigitValue(s[0]).value);
    }
  }

  predicate AllDigits(s: string) {
    forall k :: 0 <= k < |s| ==> IsDigit(s[k])
  }

  lemma {:induction false} DecimalReads(n: nat)
    ensures DigitsValue(Decimal(n), 10, 0) == Some(n) && AllDigits(Decimal(n))
    decreases n
  {
    if n < 10 {
      assert Decimal(n)[1..] == "";
    } else {
      DecimalReads(n / 10);
      DigitsAppend(Decimal(n / 10), DecimalDigit(n % 10), 10, 0);
    }
  }

  lemma {:induction false} NoUnderscores(s: string)
    requires AllDigits(s)
    ensures WithoutUnderscores(s) == s
    decreases s
  {
    if s != "" {
      NoUnderscores(s[1..]);
      assert s == [s[0]] + s[1..];
    }
  }

  /** A number printed in base ten is read back, up to 128 bits. */
  lemma {:induction false} DecimalParses(n: nat)
    ensures ParseIntValue(Decimal(n)) == if n < TWO128 then Some(n) else None
  {
    DecimalReads(n);
    NoUnderscores(Decimal(n));
  }

  // ----- what can be printed -----

  /** A letter or an underscore, then letters, digits and underscores; and no keyword. */
  ghost predicate ValidName(name: string) {
    && name != "" && Letter(name[0]) && (forall k :: 0 <= k < |name| ==> WordChar(name[k]))
    && forall kind :: KeywordText(kind) != Some(name)
  }

  ghost predicate ValidPath(p: Path) {
    CanonicalPath(p) && forall k :: 0 <= k < |p.segments| ==> ValidName(p.segments[k])
  }

  /** Any tree but: one with an error node, a call without arguments, a subtraction whose left operand is a bare
      name (which the parser reads as a call), a number past 128 bits, or a name that is none. */
  ghost predicate Printable(e: Expr)
    decreases e
  {
    match e
    case IntLit(v) => v < TWO128
    case StrLit(s) => StringLiterals.Bytes(s)
    case BoolLit(_) => true
    case Ident(name) => ValidName(name)
    case PathExpr(p) => ValidPath(p) && |p.segments| > 1
    case Unary(_, x) => Printable(x)
    case Binary(op, l, r) => Printable(l) && Printable(r) && !(op == Sub && IsName(l))
    case Call(callee, args) => ValidPath(callee) && args != [] && AllPrintable(args)
    case ErrorExpr => false
  }

  ghost predicate AllPrintable(args: seq<Expr>)
    decreases args
  {
    args == [] || (Printable(args[0]) && AllPrintable(args[1..]))
  }

  // ----- expressions -----

  function Wrap(c: Cst, needed: bool): Cst {
    if needed then Paren(c) else c
  }

  function Show(full: bool, e: Expr): Cst
    requires Printable(e)
    decreases e
  {
    match e
    case IntLit(v) => IntText(Decimal(v))
    case StrLit(s) => StrText(StringLiterals.PrintString(s))
    case BoolLit(b) => Truth(b)
    case Ident(name) => Name(Path([name], Single))
    case PathExpr(p) => Name(p)
    case Unary(op, x) => var c := Show(full, x); Prefixed(op, Wrap(c, full || !Fits(c, 8)))
    case Binary(op, l, r) => Infix(op, ShowLeft(full, Show(full, l), op), ShowRight(full, Show(full, r), op))
    case Call(callee, args) => Applied(Name(callee), ShowArgs(full, args))
  }

  function ShowLeft(full: bool, c: Cst, op: BinaryOp): Cst {
    Wrap(c, full || !(Fits(c, Power(op).left) && Stops(c, OperatorKind(op))))
  }

  function ShowRight(full: bool, c: Cst, op: BinaryOp): Cst {
    Wrap(c, full || !Fits(c, Power(op).right))
  }

  function ShowArgs(full: bool, args: seq<Expr>): (r: seq<Cst>)
    requires AllPrintable(args)
    ensures |r| == |args|
    decreases args
  {
    if args == [] then []
    else
      var first := Show(full, args[0]);
      var rest := ShowArgs(full, args[1..]);
      [Wrap(first, full || !(ArgFits(first) && (rest == [] || ArgStops(first, FirstKind(rest[0])))))] + rest
  }

  lemma {:induction false} FitsLower(c: Cst, min: nat, lower: nat)
    requires Fits(c, min) && lower <= min
    ensures Fits(c, lower)
    decreases c
  {
    hide Stops, OperatorKind, BinaryOperator;
    if c.Infix? {
      FitsLower(c.left, min, lower);
    }
  }

  /** Both styles print trees of the grammar, with the right meaning. */
  lemma {:induction false} ShowFits(full: bool, e: Expr)
    requires Printable(e)
    ensures Fits(Show(full, e), 0) && Meaning(Show(full, e)) == e
    decreases e
  {
    match e
    case IntLit(v) => DecimalParses(v);
    case StrLit(s) => StringPrints(s);
    case Unary(op, x) => ShowFits(full, x);
    case Binary(op, l, r) =>
      hide Fits, Stops, Show, Meaning, Printable;
      BinaryPrintable(full, e);
      ShowFits(full, l);
      ShowFits(full, r);
      LeftFits(full, Show(full, l), op);
      RightFits(full, Show(full, r), op);
      InfixFits(op, ShowLeft(full, Show(full, l), op), ShowRight(full, Show(full, r), op));
    case Call(callee, args) =>
      ShowArgsFit(full, args);
      NameOfPath(callee);
    case _ =>
  }

  lemma {:induction false} StringPrints(s: string)
    requires StringLiterals.Bytes(s)
    ensures StringLiterals.Decode(StringLiterals.PrintString(s)) == s
  {
    StringLiterals.UnitsOfValue(s);
    StringLiterals.QuotedDecodes(StringLiterals.UnitsOf(s));
  }

  lemma {:induction false} BinaryPrintable(full: bool, e: Expr)
    requires e.Binary? && Printable(e)
    ensures Printable(e.left) && Printable(e.right) && !(e.op == Sub && IsName(e.left))
    ensures Show(full, e) == Infix(e.op, ShowLeft(full, Show(full, e.left), e.op), ShowRight(full, Show(full, e.right), e.op))
  {}

  lemma {:induction false} LeftFits(full: bool, c: Cst, op: BinaryOp)
    requires Fits(c, 0) && !(op == Sub && IsName(Meaning(c)))
    ensures var l := ShowLeft(full, c, op); Fits(l, Power(op).left) && Stops(l, OperatorKind(op)) && Meaning(l) == Meaning(c)
  {
    OnlyMinusStartsArg(op);
    hide StartsArg, OperatorKind, Power;
  }

  lemma {:induction false} OnlyMinusStartsArg(op: BinaryOp)
    ensures StartsArg(OperatorKind(op)) <==> op == Sub
  {}

  lemma {:induction false} RightFits(full: bool, c: Cst, op: BinaryOp)
    requires Fits(c, 0)
    ensures var r := ShowRight(full, c, op); Fits(r, Power(op).right) && Meaning(r) == Meaning(c)
  {
    hide Stops, Power;
  }

  lemma {:induction false} InfixFits(op: BinaryOp, l: Cst, r: Cst)
    requires Fits(l, Power(op).left) && Stops(l, OperatorKind(op)) && Fits(r, Power(op).right)
    ensures Fits(Infix(op, l, r), 0) && Meaning(Infix(op, l, r)) == Binary(op, Meaning(l), Meaning(r))
  {
    FitsLower(l, Power(op).left, 0);
    hide Stops, OperatorKind;
  }

  lemma {:induction false} ShowArgsFit(full: bool, args: seq<Expr>)
    requires AllPrintable(args)
    ensures ArgsFit(ShowArgs(full, args)) && Meanings(ShowArgs(full, args)) == args
    decreases args
  {
    if args != [] {
      hide Fits, Stops, Show, Meaning, Printable, ArgFits, ArgStops;
      ShowFits(full, args[0]);
      ShowArgsFit(full, args[1..]);
      var first, rest := Show(full, args[0]), ShowArgs(full, args[1..]);
      var needed := full || !(ArgFits(first) && (rest == [] || ArgStops(first, FirstKind(rest[0]))));
      WrappedArg(first);
      var all := [Wrap(first, needed)] + rest;
      assert ShowArgs(full, args) == all;
      assert all[0] == Wrap(first, needed) && all[1..] == rest;
      assert |all| > 1 ==> all[1] == rest[0];
      assert args == [args[0]] + args[1..];
    }
  }

  lemma {:induction false} WrappedArg(c: Cst)
    requires Fits(c, 0)
    ensures ArgFits(Paren(c)) && Meaning(Paren(c)) == Meaning(c)
    ensures forall next :: ArgStops(Paren(c), next)
  {}

  function ExprText(full: bool, e: Expr): seq<Spelling>
    requires Printable(e)
  {
    TreeText(Show(full, e))
  }

  // ----- statements -----

  ghost predicate ValidType(ty: string) {
    ValidName(ty) || (ty != "" && ty[0] == '*' && ValidName(ty[1..]))
  }

  ghost predicate PrintableStmt(s: Stmt)
    decreases s
  {
    match s
    case Let(name, ty, e) => ValidName(name) && ValidType(ty) && Printable(e)
    case Mut(name, ty, e) => ValidName(name) && ValidType(ty) && Printable(e)
    case Assign(name, e) => ValidName(name) && Printable(e)
    case Ret(None) => true
    case Ret(Some(e)) => Printable(e)
    case If(cond, t, arm) => Printable(cond) && PrintableBlock(t) && (arm.Else? ==> PrintableBlock(arm.block))
    case Loop(b) => PrintableBlock(b)
    case While(cond, b) => Printable(cond) && PrintableBlock(b)
    case Break => true
    case Continue => true
    case UnsafeBlock(b) => PrintableBlock(b)
    case ExprStmt(e) => Printable(e)
    case ErrorStmt => false
  }

  ghost predicate PrintableBlock(b: Block)
    decreases b
  {
    b == [] || (PrintableStmt(b[0]) && PrintableBlock(b[1..]))
  }

  function TypeText(ty: string): seq<Spelling> {
    if ty != "" && ty[0] == '*' then [Fixed(Star), NameSpelling(ty[1..])] else [NameSpelling(ty)]
  }

  const LINE_END := Fixed(Newline)

  function VarText(full: bool, keyword: TokenKind, name: string, ty: string, e: Expr): seq<Spelling>
    requires Printable(e)
  {
    [Fixed(keyword)] + ([NameSpelling(name)] + (TypeText(ty) + ([Fixed(TokenKind.Eq)] + (ExprText(full, e) + [LINE_END]))))
  }

  /** From the arrow on: a block on its own lines. */
  function BodyText(full: bool, b: Block): seq<Spelling>
    requires PrintableBlock(b)
    decreases b, 2
  {
    [Fixed(Arrow)] + ([LINE_END] + BlockText(full, b))
  }

  function ClosedText(full: bool, b: Block): seq<Spelling>
    requires PrintableBlock(b)
    decreases b, 3
  {
    BodyText(full, b) + EndText()
  }

  function EndText(): seq<Spelling> {
    [Fixed(KwEnd)] + [LINE_END]
  }

  function StmtText(full: bool, s: Stmt): seq<Spelling>
    requires PrintableStmt(s)
    decreases s, 0
  {
    match s
    case Let(name, ty, e) => VarText(full, KwLet, name, ty, e)
    case Mut(name, ty, e) => VarText(full, KwMut, name, ty, e)
    case Assign(name, e) => [NameSpelling(name)] + ([Fixed(TokenKind.Eq)] + (ExprText(full, e) + [LINE_END]))
    case Ret(None) => [Fixed(KwRet)] + [LINE_END]
    case Ret(Some(e)) => [Fixed(KwRet)] + (ExprText(full, e) + [LINE_END])
    case If(cond, t, arm) => [Fixed(KwIf)] + (ExprText(full, cond) + (BodyText(full, t) + ArmText(full, arm)))
    case Loop(b) => [Fixed(KwLoop)] + ClosedText(full, b)
    case While(cond, b) => [Fixed(KwWhile)] + (ExprText(full, cond) + ClosedText(full, b))
    case Break => [Fixed(KwBreak)] + [LINE_END]
    case Continue => [Fixed(KwContinue)] + [LINE_END]
    case UnsafeBlock(b) => [Fixed(KwUnsafe)] + ClosedText(full, b)
    case ExprStmt(e) => ExprText(full, e) + [LINE_END]
  }

  /** What follows the first branch of an `if`. */
  function ArmText(full: bool, arm: ElseArm): seq<Spelling>
    requires arm.Else? ==> PrintableBlock(arm.block)
    decreases arm, 0
  {
    match arm
    case NoElse => EndText()
    case Else(b) => [Fixed(KwElse)] + ClosedText(full, b)
  }

  function BlockText(full: bool, b: Block): seq<Spelling>
    requires PrintableBlock(b)
    decreases b, 1
  {
    if b == [] then [] else StmtText(full, b[0]) + BlockText(full, b[1..])
  }

  // ----- items -----

  ghost predicate PrintableParams(params: seq<Param>) {
    forall k :: 0 <= k < |params| ==> ValidName(params[k].name) && ValidType(params[k].ty)
  }

  ghost predicate PrintableFn(f: FnDecl) {
    ValidName(f.name) && PrintableParams(f.params) && ValidType(f.ret) && PrintableBlock(f.body)
  }

  ghost predicate PrintableItem(item: Item) {
    match item case Use(p) => ValidPath(p) case Fn(f) => PrintableFn(f)
  }

  ghost predicate PrintableItems(items: seq<Item>) {
    forall k :: 0 <= k < |items| ==> PrintableItem(items[k])
  }

  function ParamsText(params: seq<Param>): seq<Spelling> {
    if params == [] then []
    else [NameSpelling(params[0].name)] + (TypeText(params[0].ty) + ParamsText(params[1..]))
  }

  function FnText(full: bool, f: FnDecl): seq<Spelling>
    requires PrintableFn(f)
  {
    [Fixed(KwFn)] + ([NameSpelling(f.name)] + (ParamsText(f.params) + ([Fixed(Arrow)]
      + (TypeText(f.ret) + ([LINE_END] + (BlockText(full, f.body) + EndText()))))))
  }

  function ItemText(full: bool, item: Item): seq<Spelling>
    requires PrintableItem(item)
  {
    match item
    case Use(p) => [Fixed(KwUse)] + (PathText(p) + [LINE_END])
    case Fn(f) => if f.isUnsafe then [Fixed(KwUnsafe)] + FnText(full, f) else FnText(full, f)
  }

  function ItemsText(full: bool, items: seq<Item>): seq<Spelling>
    requires PrintableItems(items)
  {
    if items == [] then [] else ItemText(full, items[0]) + ItemsText(full, items[1..])
  }
}
