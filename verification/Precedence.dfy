/** The precedence of operators, and that operators of one level associate to the left. */
module Precedence {
  import opened Ast
  import opened Tokens
  import opened Lexing
  import opened Parsing
  import opened TokenShapes
  import opened Grammar
  import opened ReadBack
  import Printer

  /** The table, loosest first. */
  function Level(op: BinaryOp): nat {
    match op
    case Or => 1
    case And => 2
    case Eq => 3
    case NotEq => 3
    case Lt => 4
    case LtEq => 4
    case Gt => 4
    case GtEq => 4
    case Add => 5
    case Sub => 5
    case Mul => 6
    case Div => 6
    case Mod => 6
  }

  /** What the operators are written as. */
  function OperatorText(op: BinaryOp): string {
    match op
    case Or => "or"
    case And => "and"
    case Eq => "=="
    case NotEq => "!="
    case Lt => "<"
    case LtEq => "<="
    case Gt => ">"
    case GtEq => ">="
    case Add => "+"
    case Sub => "-"
    case Mul => "*"
    case Div => "/"
    case Mod => "%"
  }

  function PrefixText(op: UnaryOp): string {
    match op case Neg => "-" case Not => "not"
  }

  /** The text of an operator is one token, of a kind that stands for that operator. */
  lemma {:induction false} OperatorsSpelled(op: BinaryOp, rest: string)
    ensures PieceAt(OperatorText(op) + " " + rest, 0) == Piece(OperatorKind(op), |OperatorText(op)|, [])
    ensures BinaryOperator(OperatorKind(op)).Some? && BinaryOperator(OperatorKind(op)).value.op == op
  {
    hide PieceAt, OperatorText, OperatorKind, BinaryOperator, Level, KeywordText;
    LevelIsPower(op);
    var text := OperatorText(op);
    var b := text + " " + rest;
    assert text == b[..|text|] && b[|text|] == ' ';
    if op == And || op == Or {
      OperatorWords(op);
      WordSpelled(b, OperatorKind(op), text);
    } else {
      MarkSpelled(b, op);
    }
  }

  lemma {:induction false} OperatorWords(op: BinaryOp)
    requires op == And || op == Or
    ensures var word := OperatorText(op);
      word != [] && KeywordText(OperatorKind(op)) == Some(word) && forall k :: 0 <= k < |word| ==> 'a' <= word[k] <= 'z'
  {}

  lemma {:induction false} MarkSpelled(b: string, op: BinaryOp)
    requires op != And && op != Or
    requires var text := OperatorText(op); |text| < |b| && text == b[..|text|] && b[|text|] == ' '
    ensures PieceAt(b, 0) == Piece(OperatorKind(op), |OperatorText(op)|, [])
  {
    hide IdentPiece, IntPiece, StringPiece, BytePiece, BlockCommentPiece, SkipLine;
    var text := OperatorText(op);
    assert b[0] == text[0];
    assert |text| == 2 ==> b[1] == text[1];
  }

  lemma {:induction false} PrefixesSpelled(op: UnaryOp, rest: string)
    ensures PieceAt(PrefixText(op) + " " + rest, 0) == Piece(PrefixKind(op), |PrefixText(op)|, [])
    ensures PrefixOp(PrefixKind(op)) == Some(op)
  {
    hide PieceAt;
    var text := PrefixText(op);
    var b := text + " " + rest;
    assert text == b[..|text|] && b[|text|] == ' ';
    if op == Not {
      WordSpelled(b, PrefixKind(op), text);
    } else {
      MarkSpelled(b, Sub);
    }
  }

  lemma {:induction false} WordSpelled(b: string, kind: TokenKind, word: string)
    requires KeywordText(kind) == Some(word) && 0 < |word| < |b| && word == b[..|word|] && b[|word|] == ' '
    requires forall k :: 0 <= k < |word| ==> 'a' <= word[k] <= 'z'
    ensures PieceAt(b, 0) == Piece(kind, |word|, [])
  {
    hide IdentPiece, KeywordText;
    assert forall k :: 0 <= k < |word| ==> b[k] == word[k];
    WordIff(b, 0, Piece(kind, |word|, []));
  }

  /** A literal, or something in parentheses that cannot be called. */
  predicate IsAtom(c: Cst) {
    match c
    case IntText(_) => true
    case StrText(_) => true
    case Truth(_) => true
    case Paren(x) => Fits(x, 0) && !IsName(Meaning(x))
    case _ => false
  }

  /** Three operands and two operators, with no parentheses around. */
  function Row(x: Cst, first: BinaryOp, y: Cst, second: BinaryOp, z: Cst): seq<Spelling> {
    TreeText(x) + ([Fixed(OperatorKind(first))] + (TreeText(y) + ([Fixed(OperatorKind(second))] + TreeText(z))))
  }

  /** The tree of a row by the table: the tighter operator first, the left one first when they are level. */
  function Grouped(x: Cst, first: BinaryOp, y: Cst, second: BinaryOp, z: Cst): Cst {
    if Level(first) >= Level(second) then Infix(second, Infix(first, x, y), z) else Infix(first, x, Infix(second, y, z))
  }

  lemma {:induction false} LevelIsPower(op: BinaryOp)
    ensures Power(op).left == Level(op) + 1 && Power(op).right == Level(op) + 2
    ensures BinaryOperator(OperatorKind(op)) == Some(Power(op))
  {}

  lemma {:induction false} AtomFits(c: Cst, min: nat, next: TokenKind)
    requires IsAtom(c)
    ensures Fits(c, min) && Stops(c, next)
  {}

  lemma {:induction false} GroupedText(x: Cst, first: BinaryOp, y: Cst, second: BinaryOp, z: Cst)
    ensures TreeText(Grouped(x, first, y, second, z)) == Row(x, first, y, second, z)
  {
    hide OperatorKind, Level, Fixed;
    var p, q := [Fixed(OperatorKind(first))], [Fixed(OperatorKind(second))];
    if Level(first) >= Level(second) {
      TextOfInfix(second, Infix(first, x, y), z);
      TextOfInfix(first, x, y);
      assert (TreeText(x) + (p + TreeText(y))) + (q + TreeText(z)) == TreeText(x) + (p + (TreeText(y) + (q + TreeText(z))));
    } else {
      TextOfInfix(first, x, Infix(second, y, z));
      TextOfInfix(second, y, z);
    }
  }

  lemma {:induction false} TextOfInfix(op: BinaryOp, l: Cst, r: Cst)
    ensures TreeText(Infix(op, l, r)) == TreeText(l) + ([Fixed(OperatorKind(op))] + TreeText(r))
  {}

  lemma {:induction false} GroupedFits(x: Cst, first: BinaryOp, y: Cst, second: BinaryOp, z: Cst)
    requires IsAtom(x) && IsAtom(y) && IsAtom(z)
    ensures Fits(Grouped(x, first, y, second, z), 0)
  {
    LevelIsPower(first);
    LevelIsPower(second);
    AtomFits(x, 0, OperatorKind(first));
    AtomFits(x, Power(second).left, OperatorKind(first));
    AtomFits(y, Power(first).right, OperatorKind(second));
    AtomFits(z, Power(second).right, OperatorKind(second));
    hide OperatorKind, Level, IsAtom, StartsArg, ContinuesPath, Power, BinaryOperator;
    if Level(first) >= Level(second) {
      assert Fits(Infix(first, x, y), Power(second).left);
      assert Stops(Infix(first, x, y), OperatorKind(second));
    } else {
      assert Fits(Infix(second, y, z), Power(first).right);
    }
  }

  /** A row of three operands parses by the table. */
  lemma {:induction false} PrecedenceTable(ts: seq<Token>, i: nat, errs: seq<string>, x: Cst, first: BinaryOp, y: Cst, second: BinaryOp,
      z: Cst, next: TokenKind)
    requires IsAtom(x) && IsAtom(y) && IsAtom(z) && Closes(next)
    requires Here(ts, i, Row(x, first, y, second, z), next)
    ensures ParseExpr(ts, St(i, errs), 0).e ==
      if Level(first) >= Level(second) then Binary(second, Binary(first, Meaning(x), Meaning(y)), Meaning(z))
      else Binary(first, Meaning(x), Binary(second, Meaning(y), Meaning(z)))
  {
    hide ParseExpr, Fits, Stops, Here, TreeText, Row, IsAtom;
    var c := Grouped(x, first, y, second, z);
    GroupedText(x, first, y, second, z);
    GroupedFits(x, first, y, second, z);
    StopsAtCloser(c, next);
    ReadsWhole(ts, i, errs, c, 0, next);
  }

  // ----- no parentheses without need -----

  lemma {:induction false} InfixFitsLeft(inner: BinaryOp, x: Cst, y: Cst, outer: BinaryOp)
    requires IsAtom(x) && IsAtom(y)
    ensures Fits(Infix(inner, x, y), Power(outer).left) && Stops(Infix(inner, x, y), OperatorKind(outer)) <==> Level(inner) >= Level(outer)
  {
    LevelIsPower(inner);
    LevelIsPower(outer);
    AtomFits(x, Power(outer).left, OperatorKind(inner));
    AtomFits(y, Power(inner).right, OperatorKind(outer));
    hide OperatorKind, Level, IsAtom, StartsArg, ContinuesPath, Power, BinaryOperator;
  }

  lemma {:induction false} InfixFitsRight(inner: BinaryOp, y: Cst, z: Cst, outer: BinaryOp)
    requires IsAtom(y) && IsAtom(z)
    ensures Fits(Infix(inner, y, z), Power(outer).right) <==> Level(inner) > Level(outer)
  {
    LevelIsPower(inner);
    LevelIsPower(outer);
    AtomFits(y, Power(outer).right, OperatorKind(inner));
    AtomFits(z, Power(inner).right, OperatorKind(outer));
    hide OperatorKind, Level, IsAtom, StartsArg, ContinuesPath, Power, BinaryOperator;
  }

  lemma {:induction false} Regrouped(x: Expr, first: BinaryOp, y: Expr, second: BinaryOp, z: Expr)
    ensures Binary(second, Binary(first, x, y), z) != Binary(first, x, Binary(second, y, z))
  {
    assert x < Binary(first, x, y);
  }

  /** The minimal printing puts parentheses around a left operand exactly when the row without them parses to another
      tree. */
  lemma {:induction false} LeftParenNeeded(ts: seq<Token>, i: nat, errs: seq<string>, x: Cst, inner: BinaryOp, y: Cst, outer: BinaryOp, z: Cst,
      next: TokenKind)
    requires IsAtom(x) && IsAtom(y) && IsAtom(z) && Closes(next)
    requires Here(ts, i, Row(x, inner, y, outer, z), next)
    ensures Printer.ShowLeft(false, Infix(inner, x, y), outer).Paren? <==>
      ParseExpr(ts, St(i, errs), 0).e != Binary(outer, Binary(inner, Meaning(x), Meaning(y)), Meaning(z))
  {
    hide ParseExpr, Fits, Stops, Here, Row, IsAtom, Level, Meaning;
    InfixFitsLeft(inner, x, y, outer);
    PrecedenceTable(ts, i, errs, x, inner, y, outer, z, next);
    Regrouped(Meaning(x), inner, Meaning(y), outer, Meaning(z));
  }

  /** And around a right operand. */
  lemma {:induction false} RightParenNeeded(ts: seq<Token>, i: nat, errs: seq<string>, x: Cst, outer: BinaryOp, y: Cst, inner: BinaryOp, z: Cst,
      next: TokenKind)
    requires IsAtom(x) && IsAtom(y) && IsAtom(z) && Closes(next)
    requires Here(ts, i, Row(x, outer, y, inner, z), next)
    ensures Printer.ShowRight(false, Infix(inner, y, z), outer).Paren? <==>
      ParseExpr(ts, St(i, errs), 0).e != Binary(outer, Meaning(x), Binary(inner, Meaning(y), Meaning(z)))
  {
    hide ParseExpr, Fits, Stops, Here, Row, IsAtom, Level, Meaning;
    InfixFitsRight(inner, y, z, outer);
    PrecedenceTable(ts, i, errs, x, outer, y, inner, z, next);
    Regrouped(Meaning(x), outer, Meaning(y), inner, Meaning(z));
  }
}
