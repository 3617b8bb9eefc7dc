/** What the lexer yields for a source text: for each place, the token that starts there. */
module Lexing {
  import opened Ast
  import opened Tokens

  // ----- lines and columns -----

  /** LF, CR LF and a lone CR each end a line; the last byte of the line end is where it ends. */
  predicate EndsLine(b: string, k: nat)
    requires k < |b|
  {
    b[k] == '\n' || (b[k] == '\r' && !(k + 1 < |b| && b[k + 1] == '\n'))
  }

  function LineOf(b: string, i: nat): nat
    requires i <= |b|
  {
    if i == 0 then 1 else LineOf(b, i - 1) + (if EndsLine(b, i - 1) then 1 else 0)
  }

  function ColumnOf(b: string, i: nat): nat
    requires i <= |b|
  {
    if i == 0 || EndsLine(b, i - 1) then 1 else ColumnOf(b, i - 1) + 1
  }

  function PosOf(b: string, i: nat): Pos
    requires i <= |b|
  {
    Pos(i, LineOf(b, i), ColumnOf(b, i))
  }

  function SpanOf(b: string, i: nat, j: nat): Span
    requires i <= |b| && j <= |b|
  {
    Span(PosOf(b, i), PosOf(b, j))
  }

  /** The next place: CR LF counts as one step. */
  function After(b: string, i: nat): (j: nat)
    requires i < |b|
    ensures i < j <= |b|
  {
    if b[i] == '\r' && i + 1 < |b| && b[i + 1] == '\n' then i + 2 else i + 1
  }

  // ----- where tokens end -----

  function SkipIdent(b: string, i: nat): (j: nat)
    requires i <= |b|
    ensures i <= j <= |b|
    decreases |b| - i
  {
    if i < |b| && IsIdentRest(b[i]) then SkipIdent(b, i + 1) else i
  }

  function SkipByteLit(b: string, i: nat): (j: nat)
    requires i <= |b|
    ensures i <= j <= |b|
    decreases |b| - i
  {
    if i < |b| && b[i] != '\'' && b[i] != '\n' && b[i] != '\r' then SkipByteLit(b, i + 1) else i
  }

  function SkipLine(b: string, i: nat): (j: nat)
    requires i <= |b|
    ensures i <= j <= |b|
    decreases |b| - i
  {
    if i < |b| && b[i] != '\n' && b[i] != '\r' then SkipLine(b, i + 1) else i
  }

  datatype CommentEnd = CommentClosed(end: nat) | CommentOpen

  function SkipBlockComment(b: string, i: nat): (r: CommentEnd)
    requires i <= |b|
    ensures r.CommentClosed? ==> i < r.end <= |b|
    decreases |b| - i
  {
    if i >= |b| then CommentOpen
    else if b[i] == '*' && i + 1 < |b| && b[i + 1] == '/' then CommentClosed(i + 2)
    else SkipBlockComment(b, After(b, i))
  }

  /** Where an integer ends, and where each mistake in it was noticed. */
  datatype IntEnd = IntEnd(end: nat, sawDigit: bool, afterUnderscore: bool, mistakes: seq<nat>)

  function ScanInt(b: string, base: nat, i: nat, sawDigit: bool, afterDigit: bool, afterUnderscore: bool): (r: IntEnd)
    requires i <= |b|
    ensures i <= r.end <= |b|
    ensures forall k :: 0 <= k < |r.mistakes| ==> i <= r.mistakes[k] <= r.end
    decreases |b| - i
  {
    if i >= |b| then IntEnd(i, sawDigit, afterUnderscore, [])
    else if IsDigitOf(b[i], base) then ScanInt(b, base, i + 1, true, true, false)
    else if b[i] == '_' then
      var r := ScanInt(b, base, i + 1, sawDigit, false, true);
      if afterDigit then r else r.(mistakes := [i] + r.mistakes)
    else if IsAlphanumeric(b[i]) then
      var r := ScanInt(b, base, i + 1, sawDigit, afterDigit, afterUnderscore);
      r.(mistakes := [i] + r.mistakes)
    else IntEnd(i, sawDigit, afterUnderscore, [])
  }

  function IntBase(b: string, i: nat): nat
    requires i < |b|
  {
    if b[i] == '0' && i + 1 < |b| then
      if b[i + 1] == 'x' || b[i + 1] == 'X' then 16
      else if b[i + 1] == 'b' || b[i + 1] == 'B' then 2
      else if b[i + 1] == 'o' || b[i + 1] == 'O' then 8
      else 10
    else 10
  }

  function DigitsStart(b: string, i: nat): (j: nat)
    requires i < |b|
    ensures i <= j <= |b|
  {
    if IntBase(b, i) == 10 then i else i + 2
  }

  predicate IsSimpleEscape(c: char) {
    c == 'n' || c == 't' || c == 'r' || c == '\\' || c == '"' || c == '\'' || c == '0'
  }

  /** Where a string literal ends, and where each bad escape was noticed. */
  datatype StringEnd =
    | Closed(end: nat, mistakes: seq<nat>)
    | Unclosed(end: nat, mistakes: seq<nat>)
    | PastEnd

  /** With mistakes noticed before. */
  function Noting(mistakes: seq<nat>, r: StringEnd): StringEnd {
    match r
    case Closed(end, more) => Closed(end, mistakes + more)
    case Unclosed(end, more) => Unclosed(end, mistakes + more)
    case PastEnd => PastEnd
  }

  /** Where an escape leads: on, to the end of a literal broken off, or past the end of the text. */
  datatype Escape =
    | LeadsTo(next: nat, mistakes: seq<nat>)
    | BreaksOff(end: nat, mistakes: seq<nat>)
    | RunsPastEnd

  /** An escape of `x` takes two more steps without looking for the end after the first, which reads past the end
      when that step is the CR LF that ends the file. */
  function EscapeAt(b: string, i: nat): (r: Escape)
    requires i < |b|
    ensures r.LeadsTo? ==> i < r.next <= |b| && forall k :: 0 <= k < |r.mistakes| ==> i <= r.mistakes[k] <= |b|
    ensures r.BreaksOff? ==> i < r.end <= |b| && forall k :: 0 <= k < |r.mistakes| ==> i <= r.mistakes[k] <= |b|
  {
    if i + 1 >= |b| then BreaksOff(i + 1, [])
    else if b[i + 1] == 'x' then
      if i + 3 >= |b| then BreaksOff(i + 2, [i + 2])
      else
        var second := After(b, i + 2);
        if second >= |b| then RunsPastEnd
        else
          var next := After(b, second);
          LeadsTo(next, if IsHex(b[i + 2]) && IsHex(b[second]) then [] else [next])
    else if IsSimpleEscape(b[i + 1]) then LeadsTo(i + 2, [])
    else LeadsTo(After(b, i + 1), [i + 1])
  }

  /** From inside a string literal. */
  function ScanString(b: string, i: nat): (r: StringEnd)
    requires i <= |b|
    ensures !r.PastEnd? ==> i <= r.end <= |b| && forall k :: 0 <= k < |r.mistakes| ==> i <= r.mistakes[k] <= |b|
    ensures r.Closed? ==> i < r.end
    decreases |b| - i
  {
    if i >= |b| then Unclosed(i, [])
    else if b[i] == '"' then Closed(i + 1, [])
    else if b[i] == '\\' then
      match EscapeAt(b, i)
      case LeadsTo(next, mistakes) => Noting(mistakes, ScanString(b, next))
      case BreaksOff(end, mistakes) => Unclosed(end, mistakes)
      case RunsPastEnd => PastEnd
    else if b[i] == '\n' || b[i] == '\r' then Unclosed(i, [])
    else ScanString(b, i + 1)
  }

  // ----- tokens -----

  datatype Mistake = Mistake(code: string, end: nat)

  /** What starts at a place: blank space, a token with its diagnostics, or a read past the end. */
  datatype Piece = Blank | Piece(kind: TokenKind, end: nat, mistakes: seq<Mistake>) | ReadsPastEnd

  function Mistakes(code: string, ends: seq<nat>): (ms: seq<Mistake>)
    ensures |ms| == |ends| && forall k :: 0 <= k < |ms| ==> ms[k] == Mistake(code, ends[k])
  {
    seq(|ends|, k requires 0 <= k < |ends| => Mistake(code, ends[k]))
  }

  /** A token of punctuation: its kind and length. */
  function Punctuation(c: char, next: Option<char>): Option<(TokenKind, nat)> {
    match c
    case '/' => Some((TokenKind.Slash, 1))
    case '+' => Some((Plus, 1))
    case '-' => if next == Some('>') then Some((Arrow, 2)) else Some((Minus, 1))
    case '*' => Some((Star, 1))
    case '%' => Some((Percent, 1))
    case '=' => if next == Some('=') then Some((EqEq, 2)) else Some((TokenKind.Eq, 1))
    case '!' => if next == Some('=') then Some((BangEq, 2)) else None
    case '<' => if next == Some('=') then Some((TokenKind.LtEq, 2)) else Some((TokenKind.Lt, 1))
    case '>' => if next == Some('=') then Some((TokenKind.GtEq, 2)) else Some((TokenKind.Gt, 1))
    case '(' => Some((LParen, 1))
    case ')' => Some((RParen, 1))
    case '[' => Some((LBracket, 1))
    case ']' => Some((RBracket, 1))
    case ',' => Some((Comma, 1))
    case '.' => Some((TokenKind.Dot, 1))
    case ':' => Some((Colon, 1))
    case _ => None
  }

  function NextChar(b: string, i: nat): Option<char> {
    if i + 1 < |b| then Some(b[i + 1]) else None
  }

  function IdentPiece(b: string, i: nat): Piece
    requires i < |b|
  {
    var end := SkipIdent(b, i + 1);
    Piece(match KeywordKind(b[i..end]) case Some(k) => k case None => TokenKind.Ident, end, [])
  }

  function IntPiece(b: string, i: nat): Piece
    requires i < |b|
  {
    var r := ScanInt(b, IntBase(b, i), DigitsStart(b, i), false, false, false);
    var last := if !r.sawDigit || r.afterUnderscore || r.end == DigitsStart(b, i) then [Mistake("E1003", r.end)] else [];
    Piece(TokenKind.IntLit, r.end, Mistakes("E1003", r.mistakes) + last)
  }

  function StringPiece(b: string, i: nat): Piece
    requires i < |b|
  {
    match ScanString(b, i + 1)
    case Closed(end, mistakes) => Piece(TokenKind.StrLit, end, Mistakes("E1001", mistakes))
    case Unclosed(end, mistakes) => Piece(Error, end, Mistakes("E1001", mistakes) + [Mistake("E1002", end)])
    case PastEnd => ReadsPastEnd
  }

  function BytePiece(b: string, i: nat): Piece
    requires i < |b|
  {
    var end := SkipByteLit(b, i + 1);
    if end < |b| && b[end] == '\'' then Piece(ByteLit, end + 1, []) else Piece(Error, end, [Mistake("E1002", end)])
  }

  function BlockCommentPiece(b: string, i: nat): Piece
    requires i + 1 < |b|
  {
    match SkipBlockComment(b, i + 2)
    case CommentClosed(end) => Piece(Comment, end, [])
    case CommentOpen => Piece(Error, |b|, [Mistake("E0101", |b|)])
  }

  function PieceAt(b: string, i: nat): (p: Piece)
    requires i < |b|
    ensures p.Piece? ==> i < p.end <= |b|
    ensures p.Piece? ==> forall k :: 0 <= k < |p.mistakes| ==> p.mistakes[k].end <= |b|
  {
    var c, next := b[i], NextChar(b, i);
    if c == ' ' || c == '\t' then Blank
    else if c == '\r' || c == '\n' then Piece(Newline, After(b, i), [])
    else if IsIdentStart(c) then IdentPiece(b, i)
    else if IsDigit(c) then IntPiece(b, i)
    else if c == '"' then StringPiece(b, i)
    else if c == '\'' then BytePiece(b, i)
    else if c == '/' && next == Some('/') then Piece(Comment, SkipLine(b, i + 2), [])
    else if c == '/' && next == Some('*') then BlockCommentPiece(b, i)
    else
      match Punctuation(c, next)
      case Some(p) => Piece(p.0, i + p.1, [])
      case None => Piece(Error, i + 1, [Mistake("E0102", i + 1)])
  }

  function Lexeme(b: string, kind: TokenKind, i: nat, j: nat): string
    requires i <= j <= |b|
  {
    if kind == Newline then "\n" else b[i..j]
  }

  function TokenOf(b: string, kind: TokenKind, i: nat, j: nat): Token
    requires i <= j <= |b|
  {
    Token(kind, Lexeme(b, kind, i, j), SpanOf(b, i, j))
  }

  function DiagnosticsOf(b: string, i: nat, mistakes: seq<Mistake>): (ds: seq<Diagnostic>)
    requires i <= |b| && forall k :: 0 <= k < |mistakes| ==> mistakes[k].end <= |b|
    ensures |ds| == |mistakes|
  {
    seq(|mistakes|, k requires 0 <= k < |mistakes| => Diagnostic(mistakes[k].code, SpanOf(b, i, mistakes[k].end)))
  }

  datatype Lexed = Lexed(tokens: seq<Token>, diagnostics: seq<Diagnostic>) | Crashed

  function EofToken(b: string): Token {
    TokenOf(b, Eof, |b|, |b|)
  }

  /** Everything from a place on. */
  function LexFrom(b: string, i: nat): Lexed
    requires i <= |b|
    decreases |b| - i
  {
    if i >= |b| then Lexed([EofToken(b)], [])
    else
      match PieceAt(b, i)
      case Blank => LexFrom(b, i + 1)
      case ReadsPastEnd => Crashed
      case Piece(kind, end, mistakes) =>
        match LexFrom(b, end)
        case Crashed => Crashed
        case Lexed(ts, ds) => Lexed([TokenOf(b, kind, i, end)] + ts, DiagnosticsOf(b, i, mistakes) + ds)
  }

  function Lex(b: string): Lexed {
    LexFrom(b, 0)
  }

  // ----- tiling -----

  ghost predicate BlankBetween(b: string, i: nat, j: nat) {
    i <= j <= |b| && forall k :: i <= k < j ==> b[k] == ' ' || b[k] == '\t'
  }

  /** The tokens cover the text from a place on: blanks between, each token its own slice, end of file at the end. */
  ghost predicate Tiles(b: string, i: nat, ts: seq<Token>)
    decreases |ts|
  {
    && ts != [] && i <= |b|
    && var t := ts[0];
    var start, end := t.span.start.byte, t.span.end.byte;
    && BlankBetween(b, i, start)
    && start <= end <= |b|
    && t == TokenOf(b, t.kind, start, end)
    && if |ts| == 1 then t.kind == Eof && start == |b| else t.kind != Eof && start < end && Tiles(b, end, ts[1..])
  }

  lemma {:induction false} TilesAfterBlank(b: string, i: nat, ts: seq<Token>)
    requires i < |b| && (b[i] == ' ' || b[i] == '\t') && Tiles(b, i + 1, ts)
    ensures Tiles(b, i, ts)
  {}

  lemma {:induction false} LexTiles(b: string, i: nat)
    requires i <= |b| && LexFrom(b, i).Lexed?
    ensures Tiles(b, i, LexFrom(b, i).tokens)
    decreases |b| - i
  {
    if i < |b| {
      match PieceAt(b, i)
      case Blank =>
        LexTiles(b, i + 1);
        TilesAfterBlank(b, i, LexFrom(b, i).tokens);
      case Piece(kind, end, _) =>
        LexTiles(b, end);
        NotEof(b, i);
        assert LexFrom(b, i).tokens[1..] == LexFrom(b, end).tokens;
    }
  }

  lemma {:induction false} NotEof(b: string, i: nat)
    requires i < |b| && PieceAt(b, i).Piece?
    ensures PieceAt(b, i).kind != Eof
  {}
}
