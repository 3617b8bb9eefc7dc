/** Printed programs as source text, and the whole round trip: lexing and parsing the text of a program
    yields the program. */
module Rendering {
  import opened Ast
  import opened Tokens
  import opened Lexing
  import opened Parsing
  import opened Grammar
  import opened Printer
  import TokenShapes
  import RoundTrip
  import StringLiterals

  /** A token and a space after it; a line end stands alone. */
  function Written(p: Spelling): string {
    if p.kind == Newline then "\n" else p.text + " "
  }

  function Render(ps: seq<Spelling>): string {
    if ps == [] then "" else Written(ps[0]) + Render(ps[1..])
  }

  function SourceText(full: bool, items: seq<Item>): string
    requires PrintableItems(items)
  {
    Render(ItemsText(full, items))
  }

  // ----- single tokens -----

  predicate IsKeyword(kind: TokenKind) {
    kind in {KwFn, KwLet, KwMut, KwRet, KwIf, KwElse, KwLoop, KwWhile, KwBreak, KwContinue, KwUse, KwEnd, KwUnsafe,
             KwTrue, KwFalse, KwAnd, KwOr, KwNot}
  }

  predicate IsMark(kind: TokenKind) {
    kind in {Plus, Minus, Star, TokenKind.Slash, Percent, TokenKind.Eq, EqEq, BangEq, TokenKind.Lt, TokenKind.LtEq,
             TokenKind.Gt, TokenKind.GtEq, Arrow, LParen, RParen, TokenKind.Dot}
  }

  predicate IsWord(w: string) {
    w != "" && IsIdentStart(w[0]) && forall k :: 0 <= k < |w| ==> IsIdentRest(w[k])
  }

  ghost predicate IsPrintedString(text: string) {
    exists s :: StringLiterals.Bytes(s) && text == StringLiterals.PrintString(s)
  }

  /** A spelling that the lexer reads back. */
  ghost predicate Lexable(p: Spelling) {
    match p.kind
    case Ident => ValidName(p.text)
    case IntLit => p.text != "" && AllDigits(p.text)
    case StrLit => IsPrintedString(p.text)
    case _ => p == Fixed(p.kind) && (p.kind == Newline || IsKeyword(p.kind) || IsMark(p.kind))
  }

  ghost predicate AllLexable(ps: seq<Spelling>) {
    forall k :: 0 <= k < |ps| ==> Lexable(ps[k])
  }

  lemma {:induction false} IdentEnds(b: string, i: nat, end: nat)
    requires i <= end < |b| && !IsIdentRest(b[end])
    requires forall k :: i <= k < end ==> IsIdentRest(b[k])
    ensures SkipIdent(b, i) == end
    decreases end - i
  {
    if i < end {
      IdentEnds(b, i + 1, end);
    }
  }

  /** The text of a token stands at a place, with a space after it. */
  ghost predicate SpacedAt(b: string, i: nat, text: string) {
    StringLiterals.TextAt(b, i, text) && i + |text| < |b| && b[i + |text|] == ' '
  }

  lemma {:induction false} SpacedSlice(b: string, i: nat, text: string)
    requires SpacedAt(b, i, text)
    ensures i + |text| < |b| && b[i..i + |text|] == text
  {
    StringLiterals.TextIsSlice(b, i, text);
  }

  lemma {:induction false} WordPiece(b: string, i: nat, w: string)
    requires IsWord(w) && SpacedAt(b, i, w)
    ensures PieceAt(b, i) == Piece(match KeywordKind(w) case Some(k) => k case None => TokenKind.Ident, i + |w|, [])
  {
    SpacedSlice(b, i, w);
    assert b[i + 0] == w[0];
    forall k | i + 1 <= k < i + |w|
      ensures IsIdentRest(b[k])
    {
      assert b[i + (k - i)] == w[k - i];
    }
    IdentEnds(b, i + 1, i + |w|);
    hide KeywordKind;
    assert PieceAt(b, i) == IdentPiece(b, i);
  }

  lemma {:induction false} FixedWord(kind: TokenKind)
    requires IsKeyword(kind)
    ensures IsWord(FixedText(kind))
  {}

  lemma {:induction false} KeywordIsWord(kind: TokenKind)
    requires IsKeyword(kind)
    ensures IsWord(FixedText(kind)) && KeywordKind(FixedText(kind)) == Some(kind)
  {
    FixedWord(kind);
    TokenShapes.TextOfKeyword(kind);
  }

  lemma {:induction false} KeywordIsLong(kind: TokenKind)
    requires IsKeyword(kind)
    ensures FixedText(kind) != ""
  {}

  lemma {:induction false} DigitsEnd(b: string, i: nat, end: nat, sawDigit: bool, afterDigit: bool)
    requires i <= end < |b| && b[end] == ' '
    requires forall k :: i <= k < end ==> IsDigit(b[k])
    requires i < end || sawDigit
    ensures ScanInt(b, 10, i, sawDigit, afterDigit, false) == IntEnd(end, true, false, [])
    decreases end - i
  {
    if i < end {
      DigitsEnd(b, i + 1, end, true, true);
    }
  }

  lemma {:induction false} NumberPiece(b: string, i: nat, text: string)
    requires text != "" && AllDigits(text) && SpacedAt(b, i, text)
    ensures PieceAt(b, i) == Piece(TokenKind.IntLit, i + |text|, [])
  {
    forall k | i <= k < i + |text|
      ensures IsDigit(b[k])
    {
      assert b[i + (k - i)] == text[k - i];
    }
    assert i + 1 < |b| && (IsDigit(b[i + 1]) || b[i + 1] == ' ');
    DigitsEnd(b, i, i + |text|, false, false);
    hide ScanInt;
    assert IntBase(b, i) == 10;
    assert Mistakes("E1003", []) == [];
    assert PieceAt(b, i) == IntPiece(b, i);
  }

  /** What starts a comment or a token that is no mark. */
  predicate StartsOther(c: char, next: char) {
    || c == ' ' || c == '\t' || c == '\r' || c == '\n' || IsIdentStart(c) || IsDigit(c) || c == '"' || c == '\''
    || (c == '/' && (next == '/' || next == '*'))
  }

  lemma {:induction false} FixedMark(kind: TokenKind)
    requires IsMark(kind)
    ensures var text := FixedText(kind); 1 <= |text| <= 2
    ensures var text := FixedText(kind); var next := if |text| == 2 then text[1] else ' ';
      !StartsOther(text[0], next) && Punctuation(text[0], Some(next)) == Some((kind, |text|))
  {}

  lemma {:induction false} MarkIsLong(kind: TokenKind)
    requires IsMark(kind)
    ensures FixedText(kind) != ""
  {}

  lemma {:induction false} MarkPiece(b: string, i: nat, kind: TokenKind)
    requires IsMark(kind) && SpacedAt(b, i, FixedText(kind))
    ensures PieceAt(b, i) == Piece(kind, i + |FixedText(kind)|, [])
  {
    hide FixedText, Punctuation, IdentPiece, IntPiece, StringPiece, BytePiece, BlockCommentPiece, SkipLine, IsMark;
    FixedMark(kind);
    var text := FixedText(kind);
    assert b[i + 0] == text[0];
    assert b[i + 1] == if |text| == 2 then text[1] else ' ';
  }

  lemma {:induction false} StringTokenPiece(b: string, i: nat, text: string)
    requires IsPrintedString(text) && SpacedAt(b, i, text)
    ensures PieceAt(b, i) == Piece(TokenKind.StrLit, i + |text|, [])
  {
    hide PieceAt, StringLiterals.PrintString;
    var s :| StringLiterals.Bytes(s) && text == StringLiterals.PrintString(s);
    StringLiterals.PrintedAt(b, i, s);
  }

  lemma {:induction false} NameIsWord(name: string)
    requires ValidName(name)
    ensures IsWord(name) && KeywordKind(name).None? && name != ""
  {
    hide KeywordKind, TokenShapes.KeywordText;
    if KeywordKind(name).Some? {
      TokenShapes.KeywordHasText(name, KeywordKind(name).value);
    }
  }

  lemma {:induction false} KeywordPiece(b: string, i: nat, kind: TokenKind)
    requires IsKeyword(kind) && SpacedAt(b, i, FixedText(kind))
    ensures FixedText(kind) != "" && PieceAt(b, i) == Piece(kind, i + |FixedText(kind)|, [])
  {
    hide PieceAt, KeywordKind, FixedText, SpacedAt, IsKeyword, IsWord;
    KeywordIsWord(kind);
    KeywordIsLong(kind);
    WordPiece(b, i, FixedText(kind));
  }

  lemma {:induction false} NamePiece(b: string, i: nat, name: string)
    requires ValidName(name) && SpacedAt(b, i, name)
    ensures name != "" && PieceAt(b, i) == Piece(TokenKind.Ident, i + |name|, [])
  {
    hide PieceAt, KeywordKind, SpacedAt, IsWord, ValidName;
    NameIsWord(name);
    WordPiece(b, i, name);
  }

  lemma {:induction false} LexableCases(p: Spelling)
    requires Lexable(p)
    ensures p.kind == TokenKind.Ident ==> ValidName(p.text)
    ensures p.kind == TokenKind.IntLit ==> p.text != "" && AllDigits(p.text)
    ensures p.kind == TokenKind.StrLit ==> IsPrintedString(p.text)
    ensures p.kind !in {TokenKind.Ident, TokenKind.IntLit, TokenKind.StrLit} ==>
      p.text == FixedText(p.kind) && (p.kind == Newline || IsKeyword(p.kind) || IsMark(p.kind))
  {
    hide ValidName, AllDigits, IsPrintedString, FixedText, IsMark, IsKeyword;
  }

  lemma {:induction false} SpacedPiece(b: string, i: nat, p: Spelling)
    requires Lexable(p) && p.kind != Newline && SpacedAt(b, i, p.text)
    ensures p.text != "" && PieceAt(b, i) == Piece(p.kind, i + |p.text|, [])
  {
    hide PieceAt, Lexable, FixedText, SpacedAt, IsMark, IsKeyword, ValidName, AllDigits, IsPrintedString;
    LexableCases(p);
    if p.kind == TokenKind.Ident {
      NamePiece(b, i, p.text);
    } else if p.kind == TokenKind.IntLit {
      NumberPiece(b, i, p.text);
    } else if p.kind == TokenKind.StrLit {
      StringTokenPiece(b, i, p.text);
      StringIsLong(p.text);
    } else if IsKeyword(p.kind) {
      KeywordPiece(b, i, p.kind);
    } else {
      MarkPiece(b, i, p.kind);
      MarkIsLong(p.kind);
    }
  }

  lemma {:induction false} WrittenSpaced(b: string, i: nat, text: string)
    requires StringLiterals.TextAt(b, i, text + " ")
    ensures SpacedAt(b, i, text)
  {
    StringLiterals.TextSplit(b, i, text, " ");
    assert b[i + |text| + 0] == " "[0];
  }

  /** A written token is lexed as itself, without mistakes. */
  lemma {:induction false} TokenPiece(b: string, i: nat, p: Spelling)
    requires Lexable(p) && StringLiterals.TextAt(b, i, Written(p))
    ensures i < i + |p.text| <= |b| && PieceAt(b, i) == Piece(p.kind, i + |p.text|, [])
    ensures Lexeme(b, p.kind, i, i + |p.text|) == p.text
  {
    hide PieceAt, Lexable, FixedText, SpacedAt;
    if p.kind == Newline {
      NewlineText(p);
      NewlinePiece(b, i);
    } else {
      WrittenSpaced(b, i, p.text);
      SpacedSlice(b, i, p.text);
      SpacedPiece(b, i, p);
    }
  }

  lemma {:induction false} NewlinePiece(b: string, i: nat)
    requires StringLiterals.TextAt(b, i, "\n")
    ensures PieceAt(b, i) == Piece(Newline, i + 1, [])
  {
    assert b[i + 0] == "\n"[0];
  }

  lemma {:induction false} StringIsLong(text: string)
    requires IsPrintedString(text)
    ensures text != ""
  {}

  lemma {:induction false} NewlineText(p: Spelling)
    requires Lexable(p) && p.kind == Newline
    ensures p.text == "\n"
  {}

  // ----- whole texts -----

  lemma {:induction false} BlankSkips(b: string, i: nat)
    requires i < |b| && b[i] == ' '
    ensures LexFrom(b, i) == LexFrom(b, i + 1)
  {
    assert PieceAt(b, i) == Blank;
  }

  lemma {:induction false} PieceLexes(b: string, i: nat, kind: TokenKind, end: nat)
    requires i < |b| && PieceAt(b, i) == Piece(kind, end, [])
    ensures var rest := LexFrom(b, end);
      rest.Lexed? ==> LexFrom(b, i) == Lexed([TokenOf(b, kind, i, end)] + rest.tokens, rest.diagnostics)
  {
    hide PieceAt, LexFrom;
    PieceStep(b, i);
    if LexFrom(b, end).Lexed? {
      assert DiagnosticsOf(b, i, []) + LexFrom(b, end).diagnostics == LexFrom(b, end).diagnostics;
    }
  }

  lemma {:induction false} PieceStep(b: string, i: nat)
    requires i < |b| && PieceAt(b, i).Piece?
    ensures var p := PieceAt(b, i);
      var rest := LexFrom(b, p.end);
      var t, ds := TokenOf(b, p.kind, i, p.end), DiagnosticsOf(b, i, p.mistakes);
      rest.Lexed? ==> LexFrom(b, i) == Lexed([t] + rest.tokens, ds + rest.diagnostics)
  {
    hide PieceAt;
  }

  /** Tokens that spell something and then end, with nothing reported. */
  ghost predicate Spells(r: Lexed, ps: seq<Spelling>) {
    r.Lexed? && r.diagnostics == [] && |r.tokens| == |ps| + 1 && Spelled(r.tokens, 0, ps) && r.tokens[|ps|].kind == Eof
  }

  lemma {:induction false} SpellsMore(t: Token, r: Lexed, p: Spelling, ps: seq<Spelling>)
    requires Spells(r, ps) && t.kind == p.kind && t.lexeme == p.text
    ensures Spells(Lexed([t] + r.tokens, r.diagnostics), [p] + ps)
  {
    var ts, all := [t] + r.tokens, [p] + ps;
    forall k | 0 <= k < |all|
      ensures Matches(ts[0 + k], all[k])
    {
      if k > 0 {
        assert Matches(r.tokens[0 + (k - 1)], ps[k - 1]);
      }
    }
  }

  lemma {:induction false} WrittenLexes(b: string, i: nat, p: Spelling)
    requires Lexable(p) && StringLiterals.TextAt(b, i, Written(p))
    ensures i + |Written(p)| <= |b| && var rest := LexFrom(b, i + |Written(p)|);
      rest.Lexed? ==> exists t: Token :: t.kind == p.kind && t.lexeme == p.text && LexFrom(b, i) == Lexed([t] + rest.tokens, rest.diagnostics)
  {
    hide PieceAt, LexFrom, Lexable, FixedText, Lexeme;
    TokenPiece(b, i, p);
    var end := i + |p.text|;
    PieceLexes(b, i, p.kind, end);
    if p.kind != Newline {
      WrittenSpaced(b, i, p.text);
      BlankSkips(b, end);
    } else {
      NewlineText(p);
    }
    assert TokenOf(b, p.kind, i, end).lexeme == p.text;
  }

  /** A text of lexable tokens lexes to those tokens, without diagnostics. */
  lemma {:induction false} RenderParts(ps: seq<Spelling>)
    requires AllLexable(ps)
    ensures ps == [] ==> Render(ps) == ""
    ensures ps != [] ==> Lexable(ps[0]) && AllLexable(ps[1..]) && Render(ps) == Written(ps[0]) + Render(ps[1..])
  {
    hide Lexable, Written;
  }

  lemma {:induction false} RenderLexes(b: string, i: nat, ps: seq<Spelling>)
    requires AllLexable(ps) && StringLiterals.TextAt(b, i, Render(ps)) && |b| == i + |Render(ps)|
    ensures Spells(LexFrom(b, i), ps)
    decreases ps
  {
    hide LexFrom, Lexable, Written, Render, AllLexable, StringLiterals.TextAt;
    RenderParts(ps);
    if ps == [] {
      EndLexes(b, i);
    } else {
      StringLiterals.TextSplit(b, i, Written(ps[0]), Render(ps[1..]));
      WrittenLexes(b, i, ps[0]);
      var j := i + |Written(ps[0])|;
      RenderLexes(b, j, ps[1..]);
      var rest := LexFrom(b, j);
      var t: Token :| t.kind == ps[0].kind && t.lexeme == ps[0].text && LexFrom(b, i) == Lexed([t] + rest.tokens, rest.diagnostics);
      SpellsMore(t, rest, ps[0], ps[1..]);
      assert ps == [ps[0]] + ps[1..];
    }
  }

  lemma {:induction false} EndLexes(b: string, i: nat)
    requires |b| == i
    ensures Spells(LexFrom(b, i), [])
  {}

  // ----- printed programs are lexable -----

  lemma {:induction false} JoinLexable(a: seq<Spelling>, b: seq<Spelling>)
    requires AllLexable(a) && AllLexable(b)
    ensures AllLexable(a + b)
  {
    hide Lexable;
  }

  lemma {:induction false} FixedLexable(kind: TokenKind)
    requires kind == Newline || IsKeyword(kind) || IsMark(kind)
    ensures AllLexable([Fixed(kind)])
  {
    hide FixedText;
  }

  lemma {:induction false} NameLexable(name: string)
    requires ValidName(name)
    ensures AllLexable([NameSpelling(name)])
  {
    hide ValidName;
  }

  lemma {:induction false} SegmentsLexable(segments: seq<string>, sep: PathSep)
    requires forall k :: 0 <= k < |segments| ==> ValidName(segments[k])
    ensures AllLexable(SegmentsText(segments, sep))
    decreases segments
  {
    hide Lexable, ValidName, Fixed, NameSpelling;
    if segments != [] {
      var mark := if sep == PathSep.Dot then TokenKind.Dot else TokenKind.Slash;
      FixedLexable(mark);
      NameLexable(segments[0]);
      SegmentsLexable(segments[1..], sep);
      var name := NameSpelling(segments[0]);
      assert [Fixed(mark)] + [name] == [Fixed(mark), name];
      JoinLexable([Fixed(mark)], [name]);
      JoinLexable([Fixed(mark), name], SegmentsText(segments[1..], sep));
    }
  }

  lemma {:induction false} PathLexable(p: Path)
    requires ValidPath(p)
    ensures AllLexable(PathText(p))
  {
    hide Lexable, ValidName, NameSpelling, SegmentsText;
    NameLexable(p.segments[0]);
    SegmentsLexable(p.segments[1..], p.sep);
    JoinLexable([NameSpelling(p.segments[0])], SegmentsText(p.segments[1..], p.sep));
  }

  lemma {:induction false} WrapLexable(c: Cst, needed: bool)
    requires AllLexable(TreeText(c))
    ensures AllLexable(TreeText(Wrap(c, needed)))
  {
    hide Lexable, Fixed, AllLexable;
    if needed {
      FixedLexable(LParen);
      FixedLexable(RParen);
      JoinLexable(TreeText(c), [Fixed(RParen)]);
      JoinLexable([Fixed(LParen)], TreeText(c) + [Fixed(RParen)]);
    }
  }

  lemma {:induction false} LeafLexable(full: bool, e: Expr)
    requires Printable(e) && (e.IntLit? || e.StrLit? || e.BoolLit?)
    ensures AllLexable(TreeText(Show(full, e)))
  {
    match e
    case IntLit(v) =>
      DecimalReads(v);
      hide Decimal, AllDigits;
    case StrLit(s) =>
      hide StringLiterals.PrintString, StringLiterals.Bytes, Lexable;
      StringLexable(s);
    case BoolLit(b) =>
      hide Lexable, Fixed, AllLexable;
      FixedLexable(if b then KwTrue else KwFalse);
  }

  lemma {:induction false} StringLexable(s: string)
    requires StringLiterals.Bytes(s)
    ensures Lexable(Spelling(TokenKind.StrLit, StringLiterals.PrintString(s)))
  {
    hide StringLiterals.PrintString, StringLiterals.Bytes;
  }

  lemma {:induction false} NamesLexable(full: bool, e: Expr)
    requires Printable(e) && IsName(e)
    ensures AllLexable(TreeText(Show(full, e)))
  {
    hide ValidName, AllLexable;
    match e
    case Ident(name) =>
      assert ValidPath(Path([name], Single));
      PathLexable(Path([name], Single));
    case PathExpr(p) => PathLexable(p);
  }

  lemma {:induction false} OperatorsLexable(op: BinaryOp, u: UnaryOp)
    ensures AllLexable([Fixed(OperatorKind(op))]) && AllLexable([Fixed(PrefixKind(u))])
  {
    hide AllLexable, Fixed;
    FixedLexable(OperatorKind(op));
    FixedLexable(PrefixKind(u));
  }

  lemma {:induction false} ShowLexable(full: bool, e: Expr)
    requires Printable(e)
    ensures AllLexable(ExprText(full, e))
    decreases e
  {
    match e
    case Unary(op, x) =>
      hide AllLexable, Fixed, Fits, Stops, Wrap;
      ShowLexable(full, x);
      PrefixedLexable(op, Show(full, x), full || !Fits(Show(full, x), 8));
    case Binary(op, l, r) =>
      hide AllLexable, Fixed, Fits, Stops, Show, Printable, Wrap;
      BinaryPrintable(full, e);
      ShowLexable(full, l);
      ShowLexable(full, r);
      SidesLexable(Show(full, l), Show(full, r), full, op);
    case Call(callee, args) =>
      hide AllLexable, Fixed, Fits, Stops, ValidPath, PathText, ArgsText, Lexable, Wrap, ValidName;
      PathLexable(callee);
      ArgsLexable(full, args);
      AppliedText(callee, ShowArgs(full, args));
      JoinLexable(PathText(callee), ArgsText(ShowArgs(full, args)));
    case Ident(_) => NamesLexable(full, e);
    case PathExpr(_) => NamesLexable(full, e);
    case _ => LeafLexable(full, e);
  }

  lemma {:induction false} AppliedText(callee: Path, args: seq<Cst>)
    ensures TreeText(Applied(Name(callee), args)) == PathText(callee) + ArgsText(args)
  {
    hide PathText, ArgsText;
  }

  lemma {:induction false} PrefixedLexable(op: UnaryOp, c: Cst, needed: bool)
    requires AllLexable(TreeText(c))
    ensures AllLexable(TreeText(Prefixed(op, Wrap(c, needed))))
  {
    hide AllLexable, Fixed, Wrap;
    OperatorsLexable(Add, op);
    WrapLexable(c, needed);
    JoinLexable([Fixed(PrefixKind(op))], TreeText(Wrap(c, needed)));
  }

  lemma {:induction false} SidesLexable(l: Cst, r: Cst, full: bool, op: BinaryOp)
    requires AllLexable(TreeText(l)) && AllLexable(TreeText(r))
    ensures AllLexable(TreeText(Infix(op, ShowLeft(full, l, op), ShowRight(full, r, op))))
  {
    hide AllLexable, Fixed, Fits, Stops, Wrap, Power;
    OperatorsLexable(op, Neg);
    var left, right := ShowLeft(full, l, op), ShowRight(full, r, op);
    WrapLexable(l, full || !(Fits(l, Power(op).left) && Stops(l, OperatorKind(op))));
    WrapLexable(r, full || !Fits(r, Power(op).right));
    JoinLexable([Fixed(OperatorKind(op))], TreeText(right));
    JoinLexable(TreeText(left), [Fixed(OperatorKind(op))] + TreeText(right));
  }

  lemma {:induction false} ArgsLexable(full: bool, args: seq<Expr>)
    requires AllPrintable(args)
    ensures AllLexable(ArgsText(ShowArgs(full, args)))
    decreases args
  {
    if args != [] {
      hide Lexable, Fits, Stops, ArgFits, ArgStops, Show, Printable, Wrap, TreeText;
      ShowLexable(full, args[0]);
      ArgsLexable(full, args[1..]);
      var first, rest := Show(full, args[0]), ShowArgs(full, args[1..]);
      var needed := full || !(ArgFits(first) && (rest == [] || ArgStops(first, FirstKind(rest[0]))));
      WrapLexable(first, needed);
      var all := [Wrap(first, needed)] + rest;
      assert ShowArgs(full, args) == all && all[0] == Wrap(first, needed) && all[1..] == rest;
      JoinLexable(TreeText(all[0]), ArgsText(rest));
    }
  }

  // ----- statements -----

  lemma {:induction false} TypeLexable(ty: string)
    requires ValidType(ty)
    ensures AllLexable(TypeText(ty))
  {
    hide Lexable, ValidName, Fixed, NameSpelling, AllLexable;
    TypeShape(ty);
    if ty[0] == '*' {
      FixedLexable(Star);
      NameLexable(ty[1..]);
      assert [Fixed(Star)] + [NameSpelling(ty[1..])] == [Fixed(Star), NameSpelling(ty[1..])];
      JoinLexable([Fixed(Star)], [NameSpelling(ty[1..])]);
    } else {
      NameLexable(ty);
    }
  }

  lemma {:induction false} TypeShape(ty: string)
    requires ValidType(ty)
    ensures ty != "" && ValidName(if ty[0] == '*' then ty[1..] else ty)
  {}

  /** A line led by a token: the token, an expression, a line end. */
  lemma {:induction false} LineLexable(ps: seq<Spelling>)
    requires AllLexable(ps)
    ensures AllLexable(ps + [LINE_END])
  {
    hide AllLexable, Fixed;
    FixedLexable(Newline);
    JoinLexable(ps, [LINE_END]);
  }

  lemma {:induction false} EndLexable()
    ensures AllLexable([LINE_END]) && AllLexable(EndText())
  {
    hide AllLexable, Fixed;
    FixedLexable(Newline);
    FixedLexable(KwEnd);
    JoinLexable([Fixed(KwEnd)], [LINE_END]);
  }

  lemma {:induction false} LedLexable(kind: TokenKind, ps: seq<Spelling>)
    requires (kind == Newline || IsKeyword(kind) || IsMark(kind)) && AllLexable(ps)
    ensures AllLexable([Fixed(kind)] + ps)
  {
    hide AllLexable, Fixed;
    FixedLexable(kind);
    JoinLexable([Fixed(kind)], ps);
  }

  lemma {:induction false} VarLexable(full: bool, keyword: TokenKind, name: string, ty: string, e: Expr)
    requires IsKeyword(keyword) && ValidName(name) && ValidType(ty) && Printable(e)
    ensures AllLexable(VarText(full, keyword, name, ty, e))
  {
    hide AllLexable, Fixed, ValidName, ValidType, Printable, ExprText, TypeText, NameSpelling;
    ShowLexable(full, e);
    LineLexable(ExprText(full, e));
    var init := ExprText(full, e) + [LINE_END];
    LedLexable(TokenKind.Eq, init);
    TypeLexable(ty);
    JoinLexable(TypeText(ty), [Fixed(TokenKind.Eq)] + init);
    NameLexable(name);
    var rest := TypeText(ty) + ([Fixed(TokenKind.Eq)] + init);
    JoinLexable([NameSpelling(name)], rest);
    LedLexable(keyword, [NameSpelling(name)] + rest);
  }

  lemma {:induction false} SimpleLexable(full: bool, s: Stmt)
    requires PrintableStmt(s) && (s.Assign? || s.Ret? || s.Break? || s.Continue? || s.ExprStmt?)
    ensures AllLexable(StmtText(full, s))
  {
    hide AllLexable, Fixed, ValidName, Printable, ExprText, NameSpelling;
    EndLexable();
    match s
    case Assign(name, e) =>
      ShowLexable(full, e);
      LineLexable(ExprText(full, e));
      LedLexable(TokenKind.Eq, ExprText(full, e) + [LINE_END]);
      NameLexable(name);
      JoinLexable([NameSpelling(name)], [Fixed(TokenKind.Eq)] + (ExprText(full, e) + [LINE_END]));
    case Ret(None) => LedLexable(KwRet, [LINE_END]);
    case Ret(Some(e)) =>
      ShowLexable(full, e);
      LineLexable(ExprText(full, e));
      LedLexable(KwRet, ExprText(full, e) + [LINE_END]);
    case Break => LedLexable(KwBreak, [LINE_END]);
    case Continue => LedLexable(KwContinue, [LINE_END]);
    case ExprStmt(e) =>
      ShowLexable(full, e);
      LineLexable(ExprText(full, e));
  }

  lemma {:induction false} BodyLexable(full: bool, b: Block)
    requires PrintableBlock(b) && AllLexable(BlockText(full, b))
    ensures AllLexable(BodyText(full, b)) && AllLexable(ClosedText(full, b))
  {
    hide AllLexable, Fixed, PrintableBlock, BlockText, EndText;
    EndLexable();
    LedLexable(Newline, BlockText(full, b));
    LedLexable(Arrow, [LINE_END] + BlockText(full, b));
    JoinLexable(BodyText(full, b), EndText());
  }

  lemma {:induction false} CondLexable(full: bool, keyword: TokenKind, cond: Expr, rest: seq<Spelling>)
    requires IsKeyword(keyword) && Printable(cond) && AllLexable(rest)
    ensures AllLexable([Fixed(keyword)] + (ExprText(full, cond) + rest))
  {
    hide AllLexable, Fixed, Printable, ExprText;
    ShowLexable(full, cond);
    JoinLexable(ExprText(full, cond), rest);
    LedLexable(keyword, ExprText(full, cond) + rest);
  }

  lemma {:induction false} ArmLexable(full: bool, arm: ElseArm)
    requires arm.Else? ==> PrintableBlock(arm.block) && AllLexable(BlockText(full, arm.block))
    ensures AllLexable(ArmText(full, arm))
  {
    hide AllLexable, Fixed, PrintableBlock, BlockText, EndText, ClosedText;
    EndLexable();
    if arm.Else? {
      BodyLexable(full, arm.block);
      LedLexable(KwElse, ClosedText(full, arm.block));
    }
  }

  lemma {:induction false} StmtLexable(full: bool, s: Stmt)
    requires PrintableStmt(s)
    ensures AllLexable(StmtText(full, s))
    decreases s
  {
    hide AllLexable, Fixed, PrintableBlock, Printable, ValidName, ValidType, BlockText, ClosedText, BodyText, VarText, ExprText, ArmText;
    match s
    case Let(name, ty, e) => VarLexable(full, KwLet, name, ty, e);
    case Mut(name, ty, e) => VarLexable(full, KwMut, name, ty, e);
    case If(cond, t, arm) =>
      BlockLexable(full, t);
      if arm.Else? {
        BlockLexable(full, arm.block);
      }
      BodyLexable(full, t);
      ArmLexable(full, arm);
      JoinLexable(BodyText(full, t), ArmText(full, arm));
      CondLexable(full, KwIf, cond, BodyText(full, t) + ArmText(full, arm));
    case Loop(b) =>
      BlockLexable(full, b);
      BodyLexable(full, b);
      LedLexable(KwLoop, ClosedText(full, b));
    case While(cond, b) =>
      BlockLexable(full, b);
      BodyLexable(full, b);
      CondLexable(full, KwWhile, cond, ClosedText(full, b));
    case UnsafeBlock(b) =>
      BlockLexable(full, b);
      BodyLexable(full, b);
      LedLexable(KwUnsafe, ClosedText(full, b));
    case _ => SimpleLexable(full, s);
  }

  lemma {:induction false} BlockLexable(full: bool, b: Block)
    requires PrintableBlock(b)
    ensures AllLexable(BlockText(full, b))
    decreases b
  {
    if b != [] {
      hide Lexable, PrintableStmt, StmtText;
      StmtLexable(full, b[0]);
      BlockLexable(full, b[1..]);
      JoinLexable(StmtText(full, b[0]), BlockText(full, b[1..]));
    }
  }

  // ----- items -----

  lemma {:induction false} ParamsLexable(params: seq<Param>)
    requires PrintableParams(params)
    ensures AllLexable(ParamsText(params))
    decreases params
  {
    if params != [] {
      hide Lexable, ValidName, ValidType, TypeText, NameSpelling;
      NameLexable(params[0].name);
      TypeLexable(params[0].ty);
      ParamsLexable(params[1..]);
      JoinLexable(TypeText(params[0].ty), ParamsText(params[1..]));
      JoinLexable([NameSpelling(params[0].name)], TypeText(params[0].ty) + ParamsText(params[1..]));
    }
  }

  lemma {:induction false} FnLexable(full: bool, f: FnDecl)
    requires PrintableFn(f)
    ensures AllLexable(FnText(full, f))
  {
    hide AllLexable, Fixed, ValidName, ValidType, PrintableParams, PrintableBlock, TypeText, BlockText, ParamsText, EndText, NameSpelling;
    EndLexable();
    BlockLexable(full, f.body);
    JoinLexable(BlockText(full, f.body), EndText());
    LedLexable(Newline, BlockText(full, f.body) + EndText());
    var body := [LINE_END] + (BlockText(full, f.body) + EndText());
    TypeLexable(f.ret);
    JoinLexable(TypeText(f.ret), body);
    LedLexable(Arrow, TypeText(f.ret) + body);
    ParamsLexable(f.params);
    var tail := [Fixed(Arrow)] + (TypeText(f.ret) + body);
    JoinLexable(ParamsText(f.params), tail);
    NameLexable(f.name);
    JoinLexable([NameSpelling(f.name)], ParamsText(f.params) + tail);
    LedLexable(KwFn, [NameSpelling(f.name)] + (ParamsText(f.params) + tail));
  }

  lemma {:induction false} ItemLexable(full: bool, item: Item)
    requires PrintableItem(item)
    ensures AllLexable(ItemText(full, item))
  {
    hide AllLexable, Fixed, ValidPath, PrintableFn, FnText, PathText;
    match item
    case Use(p) =>
      PathLexable(p);
      LineLexable(PathText(p));
      LedLexable(KwUse, PathText(p) + [LINE_END]);
    case Fn(f) =>
      FnLexable(full, f);
      LedLexable(KwUnsafe, FnText(full, f));
  }

  lemma {:induction false} ItemsLexable(full: bool, items: seq<Item>)
    requires PrintableItems(items)
    ensures AllLexable(ItemsText(full, items))
    decreases items
  {
    if items != [] {
      hide Lexable, PrintableItem, ItemText;
      ItemLexable(full, items[0]);
      ItemsLexable(full, items[1..]);
      JoinLexable(ItemText(full, items[0]), ItemsText(full, items[1..]));
    }
  }

  /** A text lexes and parses to some items, and neither step reports anything. */
  ghost predicate ReadsAs(b: string, items: seq<Item>) {
    var r := Lex(b);
    r.Lexed? && r.diagnostics == [] && Stream(r.tokens) && Parse(r.tokens) == Parsed(items, [])
  }

  /** The round trip on source text: a printed program, with full or with minimal parentheses, lexes and parses
      to itself, and neither step reports anything. */
  lemma {:induction false} SourceRoundTrip(full: bool, items: seq<Item>)
    requires PrintableItems(items)
    ensures ReadsAs(SourceText(full, items), items)
  {
    hide AllLexable, Render, ItemsText, PrintableItems, LexFrom, Parse, Spelled;
    var ps := ItemsText(full, items);
    var b := Render(ps);
    ItemsLexable(full, items);
    assert b[0..|b|] == b;
    StringLiterals.TextIsSlice(b, 0, b);
    RenderLexes(b, 0, ps);
    RoundTrip.ProgramReads(Lex(b).tokens, full, items);
  }
}
