/** The lexer: one pass over the bytes, keeping the place, the line and the column as it goes.
    Each method is proved to yield exactly what Lexing gives for the place it starts at. */
module Lexer {
  import opened Ast
  import opened Tokens
  import opened Lexing

  lemma {:induction false} AppendedOne<T>(s: seq<T>, a: T, rest: seq<T>)
    ensures s + ([a] + rest) == s + [a] + rest
  {}

  lemma {:induction false} AppendedMany<T>(s: seq<T>, a: seq<T>, rest: seq<T>)
    ensures s + (a + rest) == s + a + rest
  {}

  lemma {:induction false} MistakesSnoc(b: string, i: nat, a: seq<Mistake>, m: Mistake)
    requires i <= |b| && m.end <= |b| && forall k :: 0 <= k < |a| ==> a[k].end <= |b|
    ensures DiagnosticsOf(b, i, a + [m]) == DiagnosticsOf(b, i, a) + [Diagnostic(m.code, SpanOf(b, i, m.end))]
  {}

  class Scanner {
    const bytes: string
    var index: nat
    var line: nat
    var column: nat
    var tokens: seq<Token>
    var diagnostics: seq<Diagnostic>

    constructor (bytes: string)
      ensures this.bytes == bytes && index == 0 && tokens == [] && diagnostics == [] && Placed()
    {
      this.bytes := bytes;
      index, line, column := 0, 1, 1;
      tokens, diagnostics := [], [];
    }

    /** The line and column are those of the place. */
    ghost predicate Placed()
      reads this
    {
      index <= |bytes| && line == LineOf(bytes, index) && column == ColumnOf(bytes, index)
    }

    predicate IsEof()
      reads this
    {
      index >= |bytes|
    }

    function Peek(): char
      requires index < |bytes|
      reads this
    {
      bytes[index]
    }

    function PeekNext(): Option<char>
      reads this
    {
      NextChar(bytes, index)
    }

    function Here(): (p: Pos)
      requires Placed()
      reads this
      ensures p == PosOf(bytes, index)
    {
      Pos(index, line, column)
    }

    method Advance() returns (c: char)
      requires Placed() && index < |bytes|
      modifies this`index, this`line, this`column
      ensures Placed() && index == After(bytes, old(index)) && c == bytes[old(index)]
    {
      c := bytes[index];
      index := index + 1;
      if c == '\n' {
        line := line + 1;
        column := 1;
      } else if c == '\r' {
        if index < |bytes| && bytes[index] == '\n' {
          index := index + 1;
        }
        line := line + 1;
        column := 1;
      } else {
        column := column + 1;
      }
    }

    /** Records the token from `start` to here. */
    method Push(kind: TokenKind, start: Pos)
      requires Placed() && start.byte <= index && start == PosOf(bytes, start.byte)
      modifies this`tokens
      ensures tokens == old(tokens) + [TokenOf(bytes, kind, start.byte, index)]
    {
      var text := if kind == Newline then "\n" else bytes[start.byte..index];
      tokens := tokens + [Token(kind, text, Span(start, Here()))];
    }

    method Report(code: string, start: Pos)
      requires Placed() && start.byte <= index && start == PosOf(bytes, start.byte)
      modifies this`diagnostics
      ensures diagnostics == old(diagnostics) + [Diagnostic(code, SpanOf(bytes, start.byte, index))]
    {
      diagnostics := diagnostics + [Diagnostic(code, Span(start, Here()))];
    }

    /** What a method that lexes one token does, given what starts at its place. */
    twostate predicate Took(p: Piece)
      requires old(index) < |bytes| && p.Piece?
      requires old(index) < p.end <= |bytes| && forall k :: 0 <= k < |p.mistakes| ==> p.mistakes[k].end <= |bytes|
      reads this
    {
      && Placed() && index == p.end
      && tokens == old(tokens) + [TokenOf(bytes, p.kind, old(index), p.end)]
      && diagnostics == old(diagnostics) + DiagnosticsOf(bytes, old(index), p.mistakes)
    }

    method LexNewline()
      requires Placed() && index < |bytes| && (bytes[index] == '\r' || bytes[index] == '\n')
      modifies this
      ensures Took(PieceAt(bytes, old(index)))
    {
      hide KeywordKind, PieceAt, DiagnosticsOf, TokenOf;
      PieceKinds(bytes, index);
      var start := Here();
      if Peek() == '\r' && PeekNext() == Some('\n') {
        index := index + 2;
        line := line + 1;
        column := 1;
      } else {
        var _ := Advance();
      }
      FewMistakes(bytes, start.byte, "", index);
      Push(Newline, start);
    }

    method LexIdent()
      requires Placed() && index < |bytes| && IsIdentStart(bytes[index])
      modifies this
      ensures Took(PieceAt(bytes, old(index)))
    {
      hide KeywordKind, PieceAt, DiagnosticsOf, TokenOf, LineOf, ColumnOf, SkipIdent;
      PieceKinds(bytes, index);
      var start := Here();
      var _ := Advance();
      SkipIdentText();
      var text := bytes[start.byte..index];
      var kind := match KeywordKind(text) case Some(k) => k case None => TokenKind.Ident;
      FewMistakes(bytes, start.byte, "", index);
      Push(kind, start);
    }

    method SkipIdentText()
      requires Placed()
      modifies this`index, this`line, this`column
      ensures Placed() && index == SkipIdent(bytes, old(index))
    {
      while !IsEof() && IsIdentRest(Peek())
        invariant Placed() && SkipIdent(bytes, old(index)) == SkipIdent(bytes, index)
        decreases |bytes| - index
      {
        var _ := Advance();
      }
    }

    method LexInt()
      requires Placed() && index < |bytes| && IsDigit(bytes[index])
      modifies this
      ensures Took(PieceAt(bytes, old(index)))
    {
      hide KeywordKind, ScanInt, DiagnosticsOf, Mistakes, TokenOf, PieceAt;
      var start := Here();
      var base := LexPrefix();
      var digits := index;
      ghost var r := ScanInt(bytes, base, digits, false, false, false);
      var sawDigit, afterUnderscore := LexDigits(start, base);
      PieceKinds(bytes, start.byte);
      if !sawDigit || afterUnderscore || digits == index {
        MistakesSnoc(bytes, start.byte, Mistakes("E1003", r.mistakes), Mistake("E1003", index));
        Report("E1003", start);
      } else {
        assert Mistakes("E1003", r.mistakes) + [] == Mistakes("E1003", r.mistakes);
      }
      Push(TokenKind.IntLit, start);
    }

    /** The base that the first characters give, which are taken if they are a prefix. */
    method LexPrefix() returns (base: nat)
      requires Placed() && index < |bytes| && IsDigit(bytes[index])
      modifies this`index, this`line, this`column
      ensures Placed() && base == IntBase(bytes, old(index)) && index == DigitsStart(bytes, old(index))
    {
      base := 10;
      if Peek() == '0' {
        match PeekNext() {
          case Some(c) =>
            if c == 'x' || c == 'X' {
              base := 16;
            } else if c == 'b' || c == 'B' {
              base := 2;
            } else if c == 'o' || c == 'O' {
              base := 8;
            }
          case None =>
        }
      }
      if base != 10 {
        var _ := Advance();
        var _ := Advance();
      }
    }

    method LexDigits(start: Pos, base: nat) returns (sawDigit: bool, afterUnderscore: bool)
      requires Placed() && start.byte <= index && start == PosOf(bytes, start.byte)
      modifies this`index, this`line, this`column, this`diagnostics
      ensures Placed()
      ensures var r := ScanInt(bytes, base, old(index), false, false, false);
        && index == r.end && sawDigit == r.sawDigit && afterUnderscore == r.afterUnderscore
        && diagnostics == old(diagnostics) + DiagnosticsOf(bytes, start.byte, Mistakes("E1003", r.mistakes))
    {
      hide ScanInt, ScanRest, DiagnosticsOf, Mistakes;
      ghost var all := ScanInt(bytes, base, index, false, false, false);
      ghost var noticed: seq<nat> := [];
      var afterDigit := false;
      afterUnderscore, sawDigit := false, false;
      ScanStart(bytes, start.byte, base, index);
      while !IsEof()
        invariant Placed() && start.byte <= index
        invariant forall k :: 0 <= k < |noticed| ==> noticed[k] <= |bytes|
        invariant ScanRest(all, noticed, ScanInt(bytes, base, index, sawDigit, afterDigit, afterUnderscore))
        invariant diagnostics == old(diagnostics) + DiagnosticsOf(bytes, start.byte, Mistakes("E1003", noticed))
        decreases |bytes| - index
      {
        var c := Peek();
        ScanStep(bytes, base, index, sawDigit, afterDigit, afterUnderscore, all, noticed);
        NoticeOne(bytes, start.byte, "E1003", noticed, index);
        if IsDigitOf(c, base) {
          sawDigit, afterDigit, afterUnderscore := true, true, false;
        } else if c == '_' {
          if !afterDigit {
            noticed := noticed + [index];
            Report("E1003", start);
          }
          afterDigit, afterUnderscore := false, true;
        } else if IsAlphanumeric(c) {
          noticed := noticed + [index];
          Report("E1003", start);
        } else {
          return;
        }
        var _ := Advance();
      }
      ScanDone(bytes, base, index, sawDigit, afterDigit, afterUnderscore, all, noticed);
    }

    /** Through the text of a string literal to its closing quote, or to where it breaks off. */
    method LexStringText(start: Pos) returns (stop: StringStop)
      requires Placed() && start.byte <= index && start == PosOf(bytes, start.byte)
      modifies this`index, this`line, this`column, this`diagnostics
      ensures match ScanString(bytes, old(index))
        case Closed(end, mistakes) => stop == Finished && Stopped(start, end) && NotedFrom(start, mistakes)
        case Unclosed(end, mistakes) => stop == BrokenOff && Stopped(start, end) && NotedFrom(start, mistakes)
        case PastEnd => stop == OutOfBounds
    {
      hide ScanString, Noting, DiagnosticsOf, Mistakes, EscapeAt, LineOf, ColumnOf;
      ghost var all := ScanString(bytes, index);
      ghost var noticed: seq<nat> := [];
      StringStart(bytes, start.byte, index);
      while !IsEof()
        invariant Stopped(start, index)
        invariant all == Noting(noticed, ScanString(bytes, index))
        invariant forall k :: 0 <= k < |noticed| ==> noticed[k] <= |bytes|
        invariant NotedFrom(start, noticed)
        decreases |bytes| - index
      {
        StringStep(bytes, index, all, noticed);
        if Peek() == '"' {
          var _ := Advance();
          return Finished;
        } else if Peek() == '\\' {
          ghost var e := EscapeAt(bytes, index);
          stop := LexEscape(start);
          if stop == OutOfBounds {
            return;
          }
          NoticeMore(bytes, start.byte, "E1001", noticed, e.mistakes);
          noticed := noticed + e.mistakes;
          if stop == BrokenOff {
            return;
          }
        } else if Peek() == '\n' || Peek() == '\r' {
          return BrokenOff;
        } else {
          var _ := Advance();
        }
      }
      StringDone(bytes, index, all, noticed);
      return BrokenOff;
    }

    /** One escape: Finished here means that the literal goes on after it. */
    method LexEscape(start: Pos) returns (stop: StringStop)
      requires Placed() && start.byte <= index < |bytes| && start == PosOf(bytes, start.byte) && bytes[index] == '\\'
      modifies this`index, this`line, this`column, this`diagnostics
      ensures match EscapeAt(bytes, old(index))
        case LeadsTo(next, mistakes) => stop == Finished && Stopped(start, next) && NotedFrom(start, mistakes)
        case BreaksOff(end, mistakes) => stop == BrokenOff && Stopped(start, end) && NotedFrom(start, mistakes)
        case RunsPastEnd => stop == OutOfBounds
    {
      hide DiagnosticsOf, Mistakes, LineOf, ColumnOf;
      StringStart(bytes, start.byte, index);
      var _ := Advance();
      if IsEof() {
        return BrokenOff;
      }
      if Peek() == 'x' {
        var _ := Advance();
        NoticeFirst(bytes, start.byte, "E1001", index);
        if index + 1 >= |bytes| {
          Report("E1001", start);
          return BrokenOff;
        }
        var first := Advance();
        if IsEof() {
          return OutOfBounds;
        }
        var second := Advance();
        NoticeFirst(bytes, start.byte, "E1001", index);
        if !IsHex(first) || !IsHex(second) {
          Report("E1001", start);
        }
      } else if IsSimpleEscape(Peek()) {
        var _ := Advance();
      } else {
        NoticeFirst(bytes, start.byte, "E1001", index);
        Report("E1001", start);
        var _ := Advance();
      }
      return Finished;
    }

    ghost predicate Stopped(start: Pos, end: nat)
      reads this
    {
      Placed() && index == end && start.byte <= index
    }

    twostate predicate NotedFrom(start: Pos, mistakes: seq<nat>)
      requires start.byte <= |bytes| && forall k :: 0 <= k < |mistakes| ==> mistakes[k] <= |bytes|
      reads this
    {
      diagnostics == old(diagnostics) + DiagnosticsOf(bytes, start.byte, Mistakes("E1001", mistakes))
    }

    method LexString() returns (crashed: bool)
      requires Placed() && index < |bytes| && bytes[index] == '"'
      modifies this
      ensures crashed <==> PieceAt(bytes, old(index)).ReadsPastEnd?
      ensures !crashed ==> PieceAt(bytes, old(index)).Piece? && Took(PieceAt(bytes, old(index)))
    {
      hide KeywordKind, ScanString, DiagnosticsOf, Mistakes, TokenOf, PieceAt;
      PieceKinds(bytes, index);
      var start := Here();
      ghost var r := ScanString(bytes, index + 1);
      var _ := Advance();
      var stop := LexStringText(start);
      if stop == OutOfBounds {
        return true;
      }
      if stop == Finished {
        Push(TokenKind.StrLit, start);
      } else {
        MistakesSnoc(bytes, start.byte, Mistakes("E1001", r.mistakes), Mistake("E1002", index));
        Report("E1002", start);
        Push(Error, start);
      }
      return false;
    }

    method LexByteLit()
      requires Placed() && index < |bytes| && bytes[index] == '\''
      modifies this
      ensures Took(PieceAt(bytes, old(index)))
    {
      hide KeywordKind, PieceAt, DiagnosticsOf, TokenOf, LineOf, ColumnOf, SkipByteLit;
      PieceKinds(bytes, index);
      var start := Here();
      var _ := Advance();
      SkipByteText();
      FewMistakes(bytes, start.byte, "E1002", index);
      if !IsEof() && Peek() == '\'' {
        var _ := Advance();
        Push(ByteLit, start);
      } else {
        Report("E1002", start);
        Push(Error, start);
      }
    }

    method SkipByteText()
      requires Placed()
      modifies this`index, this`line, this`column
      ensures Placed() && index == SkipByteLit(bytes, old(index))
    {
      while !IsEof() && Peek() != '\'' && Peek() != '\n' && Peek() != '\r'
        invariant Placed() && SkipByteLit(bytes, old(index)) == SkipByteLit(bytes, index)
        decreases |bytes| - index
      {
        var _ := Advance();
      }
    }

    method LexLineComment()
      requires Placed() && index < |bytes| && bytes[index] == '/' && PeekNext() == Some('/')
      modifies this
      ensures Took(PieceAt(bytes, old(index)))
    {
      hide KeywordKind, PieceAt, DiagnosticsOf, TokenOf, LineOf, ColumnOf, SkipLine;
      PieceKinds(bytes, index);
      var start := Here();
      var _ := Advance();
      var _ := Advance();
      SkipLineText();
      FewMistakes(bytes, start.byte, "", index);
      Push(Comment, start);
    }

    method SkipLineText()
      requires Placed()
      modifies this`index, this`line, this`column
      ensures Placed() && index == SkipLine(bytes, old(index))
    {
      while !IsEof() && Peek() != '\n' && Peek() != '\r'
        invariant Placed() && SkipLine(bytes, old(index)) == SkipLine(bytes, index)
        decreases |bytes| - index
      {
        var _ := Advance();
      }
    }

    method LexBlockComment()
      requires Placed() && index < |bytes| && bytes[index] == '/' && PeekNext() == Some('*')
      modifies this
      ensures Took(PieceAt(bytes, old(index)))
    {
      hide KeywordKind, PieceAt, DiagnosticsOf, TokenOf, LineOf, ColumnOf, SkipBlockComment;
      PieceKinds(bytes, index);
      var start := Here();
      var _ := Advance();
      var _ := Advance();
      var closed := SkipCommentText();
      FewMistakes(bytes, start.byte, "E0101", index);
      if closed {
        Push(Comment, start);
      } else {
        Report("E0101", start);
        Push(Error, start);
      }
    }

    /** Through the closing marks of a block comment, or to the end of the text. */
    method SkipCommentText() returns (closed: bool)
      requires Placed()
      modifies this`index, this`line, this`column
      ensures Placed()
      ensures match SkipBlockComment(bytes, old(index))
        case CommentClosed(end) => closed && index == end
        case CommentOpen => !closed && index == |bytes|
    {
      while !IsEof()
        invariant Placed() && SkipBlockComment(bytes, old(index)) == SkipBlockComment(bytes, index)
        decreases |bytes| - index
      {
        if Peek() == '*' && PeekNext() == Some('/') {
          var _ := Advance();
          var _ := Advance();
          return true;
        }
        var _ := Advance();
      }
      return false;
    }

    /** Punctuation of one or two characters. */
    method LexPunctuation(kind: TokenKind, length: nat)
      requires Placed() && index < |bytes| && IsPlainPiece(bytes, index, kind, length)
      modifies this
      ensures Took(PieceAt(bytes, old(index)))
    {
      hide KeywordKind;
      var start := Here();
      var _ := Advance();
      if length == 2 {
        var _ := Advance();
      }
      Push(kind, start);
    }

    method InvalidChar()
      requires Placed() && index < |bytes| && PieceAt(bytes, index) == Piece(Error, index + 1, [Mistake("E0102", index + 1)])
      requires bytes[index] != '\n' && bytes[index] != '\r'
      modifies this
      ensures Took(PieceAt(bytes, old(index)))
    {
      hide KeywordKind;
      var start := Here();
      var _ := Advance();
      Report("E0102", start);
      Push(Error, start);
    }

    /** The token at the current place. */
    method LexOne() returns (crashed: bool)
      requires Placed() && index < |bytes| && !PieceAt(bytes, index).Blank?
      modifies this
      ensures crashed <==> PieceAt(bytes, old(index)).ReadsPastEnd?
      ensures !crashed ==> PieceAt(bytes, old(index)).Piece? && Took(PieceAt(bytes, old(index)))
    {
      hide KeywordKind, Took, PieceAt, ScanInt, ScanString, SkipIdent, SkipByteLit, SkipBlockComment, SkipLine;
      PieceKinds(bytes, index);
      crashed := false;
      var c, next := Peek(), PeekNext();
      if c == '\r' || c == '\n' {
        LexNewline();
      } else if IsIdentStart(c) {
        LexIdent();
      } else if IsDigit(c) {
        LexInt();
      } else if c == '"' {
        crashed := LexString();
      } else if c == '\'' {
        LexByteLit();
      } else if c == '/' && next == Some('/') {
        LexLineComment();
      } else if c == '/' && next == Some('*') {
        LexBlockComment();
      } else {
        PlainPieceAt(bytes, index);
        match Punctuation(c, next) {
          case Some(p) => LexPunctuation(p.0, p.1);
          case None => InvalidChar();
        }
      }
    }

    /** The whole text: exactly the tokens and diagnostics that Lexing gives, or a read past the end. */
    method Lex() returns (crashed: bool)
      requires index == 0 && tokens == [] && diagnostics == [] && Placed()
      modifies this
      ensures crashed <==> Lexing.Lex(bytes).Crashed?
      ensures !crashed ==> Lexing.Lex(bytes) == Lexed(tokens, diagnostics)
    {
      hide LexFrom, PieceAt, DiagnosticsOf, TokenOf;
      ghost var all := LexFrom(bytes, 0);
      LexRestStart(all);
      while !IsEof()
        invariant Placed()
        invariant LexRest(all, tokens, diagnostics, LexFrom(bytes, index))
        decreases |bytes| - index
      {
        LexStep(bytes, index, all, tokens, diagnostics);
        if Peek() == ' ' || Peek() == '\t' {
          var _ := Advance();
        } else {
          var failed := LexOne();
          if failed {
            return true;
          }
        }
      }
      LexEnds(bytes, index, all, tokens, diagnostics);
      Push(Eof, Here());
      return false;
    }
  }

  datatype StringStop = Finished | BrokenOff | OutOfBounds

  // ----- string literals -----

  lemma {:induction false} StringStart(b: string, start: nat, i: nat)
    requires start <= i <= |b|
    ensures ScanString(b, i) == Noting([], ScanString(b, i))
    ensures DiagnosticsOf(b, start, Mistakes("E1001", [])) == []
  {}

  /** What one step of the loop leaves to be scanned. */
  lemma {:induction false} StringStep(b: string, i: nat, all: StringEnd, noticed: seq<nat>)
    requires i < |b| && all == Noting(noticed, ScanString(b, i))
    ensures
      if b[i] == '"' then all == Closed(i + 1, noticed)
      else if b[i] == '\\' then
        match EscapeAt(b, i)
        case LeadsTo(next, mistakes) => all == Noting(noticed + mistakes, ScanString(b, next))
        case BreaksOff(end, mistakes) => all == Unclosed(end, noticed + mistakes)
        case RunsPastEnd => all == PastEnd
      else if b[i] == '\n' || b[i] == '\r' then all == Unclosed(i, noticed)
      else all == Noting(noticed, ScanString(b, i + 1)) && After(b, i) == i + 1
  {
    if b[i] == '\\' && EscapeAt(b, i).LeadsTo? {
      var r := ScanString(b, EscapeAt(b, i).next);
      if !r.PastEnd? {
        AppendedMany(noticed, EscapeAt(b, i).mistakes, r.mistakes);
      }
    }
  }

  lemma {:induction false} NoticeFirst(b: string, i: nat, code: string, at: nat)
    requires i <= |b| && at <= |b|
    ensures DiagnosticsOf(b, i, Mistakes(code, [at])) == [Diagnostic(code, SpanOf(b, i, at))]
  {}

  lemma {:induction false} NoticeMore(b: string, i: nat, code: string, noticed: seq<nat>, more: seq<nat>)
    requires i <= |b| && (forall k :: 0 <= k < |noticed| ==> noticed[k] <= |b|) && forall k :: 0 <= k < |more| ==> more[k] <= |b|
    ensures DiagnosticsOf(b, i, Mistakes(code, noticed + more))
         == DiagnosticsOf(b, i, Mistakes(code, noticed)) + DiagnosticsOf(b, i, Mistakes(code, more))
  {
    assert Mistakes(code, noticed + more) == Mistakes(code, noticed) + Mistakes(code, more);
  }

  lemma {:induction false} StringDone(b: string, i: nat, all: StringEnd, noticed: seq<nat>)
    requires i == |b| && all == Noting(noticed, ScanString(b, i))
    ensures all == Unclosed(i, noticed)
  {}

  // ----- the main loop -----

  ghost predicate IsPlainPiece(b: string, i: nat, kind: TokenKind, length: nat)
    requires i < |b|
  {
    && PieceAt(b, i) == Piece(kind, i + length, []) && 1 <= length <= 2 && i + length <= |b| && kind != Newline
    && b[i] != '\n' && b[i] != '\r' && (length == 2 ==> b[i + 1] != '\n' && b[i + 1] != '\r')
  }

  lemma {:induction false} PlainPieceAt(b: string, i: nat)
    requires i < |b| && !IsIdentStart(b[i]) && !IsDigit(b[i])
    requires b[i] != ' ' && b[i] != '\t' && b[i] != '\r' && b[i] != '\n' && b[i] != '"' && b[i] != '\''
    requires !(b[i] == '/' && (NextChar(b, i) == Some('/') || NextChar(b, i) == Some('*')))
    ensures match Punctuation(b[i], NextChar(b, i))
      case Some(p) => IsPlainPiece(b, i, p.0, p.1)
      case None => PieceAt(b, i) == Piece(Error, i + 1, [Mistake("E0102", i + 1)])
  {}

  /** What is left to lex, what was already recorded set aside. */
  ghost predicate LexRest(all: Lexed, ts: seq<Token>, ds: seq<Diagnostic>, rest: Lexed) {
    if rest.Crashed? then all.Crashed? else all == Lexed(ts + rest.tokens, ds + rest.diagnostics)
  }

  lemma {:induction false} LexRestStart(all: Lexed)
    ensures LexRest(all, [], [], all)
  {}

  lemma {:induction false} LexStep(b: string, i: nat, all: Lexed, ts: seq<Token>, ds: seq<Diagnostic>)
    requires i < |b| && LexRest(all, ts, ds, LexFrom(b, i))
    ensures b[i] == ' ' || b[i] == '\t' <==> PieceAt(b, i).Blank?
    ensures match PieceAt(b, i)
      case Blank => After(b, i) == i + 1 && LexRest(all, ts, ds, LexFrom(b, i + 1))
      case ReadsPastEnd => all.Crashed?
      case Piece(kind, end, mistakes) =>
        LexRest(all, ts + [TokenOf(b, kind, i, end)], ds + DiagnosticsOf(b, i, mistakes), LexFrom(b, end))
  {
    hide LexFrom, PieceAt;
    LexUnfolds(b, i);
    match PieceAt(b, i)
    case Piece(kind, end, mistakes) =>
      if LexFrom(b, end).Lexed? {
        AppendedOne(ts, TokenOf(b, kind, i, end), LexFrom(b, end).tokens);
        AppendedMany(ds, DiagnosticsOf(b, i, mistakes), LexFrom(b, end).diagnostics);
      }
    case _ =>
  }

  lemma {:induction false} LexUnfolds(b: string, i: nat)
    requires i < |b|
    ensures LexFrom(b, i) == match PieceAt(b, i)
      case Blank => LexFrom(b, i + 1)
      case ReadsPastEnd => Crashed
      case Piece(kind, end, mistakes) =>
        match LexFrom(b, end)
        case Crashed => Crashed
        case Lexed(ts, ds) => Lexed([TokenOf(b, kind, i, end)] + ts, DiagnosticsOf(b, i, mistakes) + ds)
    ensures b[i] == ' ' || b[i] == '\t' <==> PieceAt(b, i).Blank?
  {}

  lemma {:induction false} LexEnds(b: string, i: nat, all: Lexed, ts: seq<Token>, ds: seq<Diagnostic>)
    requires i == |b| && LexRest(all, ts, ds, LexFrom(b, i))
    ensures all == Lexed(ts + [EofToken(b)], ds)
  {}

  lemma {:induction false} FewMistakes(b: string, i: nat, code: string, end: nat)
    requires i <= |b| && end <= |b|
    ensures DiagnosticsOf(b, i, []) == []
    ensures DiagnosticsOf(b, i, [Mistake(code, end)]) == [Diagnostic(code, SpanOf(b, i, end))]
  {}

  /** Which kind of token starts at a place. */
  lemma {:induction false} PieceKinds(b: string, i: nat)
    requires i < |b|
    ensures PieceAt(b, i).Blank? <==> b[i] == ' ' || b[i] == '\t'
    ensures b[i] == '\r' || b[i] == '\n' ==> PieceAt(b, i) == Piece(Newline, After(b, i), [])
    ensures IsIdentStart(b[i]) ==> PieceAt(b, i) == IdentPiece(b, i)
    ensures IsDigit(b[i]) ==> PieceAt(b, i) == IntPiece(b, i)
    ensures b[i] == '"' ==> PieceAt(b, i) == StringPiece(b, i)
    ensures b[i] == '\'' ==> PieceAt(b, i) == BytePiece(b, i)
    ensures b[i] == '/' && NextChar(b, i) == Some('/') ==> PieceAt(b, i) == Piece(Comment, SkipLine(b, i + 2), [])
    ensures b[i] == '/' && NextChar(b, i) == Some('*') ==> PieceAt(b, i) == BlockCommentPiece(b, i)
  {}

  /** What is left of a scan, the mistakes already noticed set aside. */
  ghost predicate ScanRest(all: IntEnd, noticed: seq<nat>, rest: IntEnd) {
    all == rest.(mistakes := noticed + rest.mistakes)
  }

  lemma {:induction false} ScanStart(b: string, start: nat, base: nat, i: nat)
    requires start <= i <= |b|
    ensures var r := ScanInt(b, base, i, false, false, false); ScanRest(r, [], r)
    ensures DiagnosticsOf(b, start, Mistakes("E1003", [])) == []
  {}

  lemma {:induction false} ScanStep(b: string, base: nat, i: nat, saw: bool, afterDigit: bool, afterUnderscore: bool, all: IntEnd, noticed: seq<nat>)
    requires i < |b| && ScanRest(all, noticed, ScanInt(b, base, i, saw, afterDigit, afterUnderscore))
    ensures
      if IsDigitOf(b[i], base) then ScanRest(all, noticed, ScanInt(b, base, i + 1, true, true, false))
      else if b[i] == '_' then
        ScanRest(all, if afterDigit then noticed else noticed + [i], ScanInt(b, base, i + 1, saw, false, true))
      else if IsAlphanumeric(b[i]) then ScanRest(all, noticed + [i], ScanInt(b, base, i + 1, saw, afterDigit, afterUnderscore))
      else all == IntEnd(i, saw, afterUnderscore, noticed)
    ensures IsDigitOf(b[i], base) || b[i] == '_' || IsAlphanumeric(b[i]) ==> After(b, i) == i + 1
  {
    if b[i] == '_' && !afterDigit {
      AppendedMany(noticed, [i], ScanInt(b, base, i + 1, saw, false, true).mistakes);
    } else if b[i] != '_' && IsAlphanumeric(b[i]) {
      AppendedMany(noticed, [i], ScanInt(b, base, i + 1, saw, afterDigit, afterUnderscore).mistakes);
    }
  }

  lemma {:induction false} ScanDone(b: string, base: nat, i: nat, saw: bool, afterDigit: bool, afterUnderscore: bool, all: IntEnd, noticed: seq<nat>)
    requires i == |b| && ScanRest(all, noticed, ScanInt(b, base, i, saw, afterDigit, afterUnderscore))
    ensures all == IntEnd(i, saw, afterUnderscore, noticed)
  {}

  lemma {:induction false} NoticeOne(b: string, i: nat, code: string, noticed: seq<nat>, at: nat)
    requires i <= |b| && at <= |b| && forall k :: 0 <= k < |noticed| ==> noticed[k] <= |b|
    ensures DiagnosticsOf(b, i, Mistakes(code, noticed + [at]))
         == DiagnosticsOf(b, i, Mistakes(code, noticed)) + [Diagnostic(code, SpanOf(b, i, at))]
  {
    assert Mistakes(code, noticed + [at]) == Mistakes(code, noticed) + [Mistake(code, at)];
  }
}
