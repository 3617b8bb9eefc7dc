/** The one way to crash the lexer: when it happens, exactly. */
module LexerCrash {
  import opened Ast
  import opened Tokens
  import opened Lexing

  /** An escape `\x` whose first character is the CR LF that ends the text. */
  ghost predicate EndsInBadEscape(b: string) {
    |b| >= 4 && b[|b| - 4..] == ['\\', 'x', '\r', '\n']
  }

  /** The text with its last four characters replaced by a closing quote. */
  function ClosedInstead(b: string): (q: string)
    requires |b| >= 4
    ensures |q| == |b| - 3
  {
    b[..|b| - 4] + ['"']
  }

  /** The text lexes, and what ends it is a string literal. */
  ghost predicate EndsInString(q: string, i: nat)
    requires i <= |q|
  {
    var r := LexFrom(q, i);
    r.Lexed? && |r.tokens| >= 2 && var t := r.tokens[|r.tokens| - 2]; t.kind == TokenKind.StrLit && t.span.end.byte == |q|
  }

  // ----- a crash needs room -----

  lemma {:induction false} StringCrashes(b: string, i: nat)
    requires i <= |b|
    ensures ScanString(b, i).PastEnd? ==> |b| >= i + 4 && EndsInBadEscape(b)
    decreases |b| - i
  {
    if i < |b| && b[i] != '"' {
      if b[i] == '\\' {
        if EscapeAt(b, i).LeadsTo? {
          StringCrashes(b, EscapeAt(b, i).next);
        }
      } else if b[i] != '\n' && b[i] != '\r' {
        StringCrashes(b, i + 1);
      }
    }
  }

  /** Only a text that ends so makes the lexer read past its end. */
  lemma {:induction false} CrashNeedsBadEscape(b: string, i: nat)
    requires i <= |b| && LexFrom(b, i).Crashed?
    ensures EndsInBadEscape(b) && |b| >= i + 5
    decreases |b| - i
  {
    match PieceAt(b, i)
    case Blank => CrashNeedsBadEscape(b, i + 1);
    case Piece(_, end, _) => CrashNeedsBadEscape(b, end);
    case ReadsPastEnd => StringCrashes(b, i + 1);
  }

  // ----- the text and its closed form lex alike up to the last escape -----

  ghost predicate Alike(b: string, q: string) {
    && EndsInBadEscape(b) && |q| == |b| - 3 && q[|q| - 1] == '"'
    && forall k :: 0 <= k < |q| - 1 ==> b[k] == q[k]
  }

  lemma {:induction false} AlikeEnd(b: string, q: string)
    requires Alike(b, q)
    ensures var n := |q| - 1;
      b[n] == '\\' && b[n + 1] == 'x' && b[n + 2] == '\r' && b[n + 3] == '\n' && !EndsInBadEscape(q)
  {
    var n := |q| - 1;
    var tail := b[|b| - 4..];
    assert b[n] == tail[0] && b[n + 1] == tail[1] && b[n + 2] == tail[2] && b[n + 3] == tail[3];
    assert |q| >= 4 ==> q[|q| - 4..][3] == q[|q| - 1];
  }

  lemma {:induction false} AlikeAfter(b: string, q: string, i: nat)
    requires Alike(b, q) && i < |q| - 1
    ensures After(b, i) == After(q, i) <= |q| - 1
  {
    AlikeEnd(b, q);
  }

  /** An escape before the last place leads to the same place in both, or past it in both. */
  lemma {:induction false} AlikeEscape(b: string, q: string, i: nat)
    requires Alike(b, q) && i < |q| - 1 && b[i] == '\\'
    ensures var e, f, n := EscapeAt(b, i), EscapeAt(q, i), |q| - 1;
      && e.LeadsTo? && !f.RunsPastEnd?
      && if e.next <= n then f == e else if f.LeadsTo? then f.next > n else f.end >= n
  {
    AlikeEnd(b, q);
    if i + 1 < |q| - 1 {
      AlikeAfter(b, q, i + 1);
      if i + 2 < |q| - 1 {
        AlikeAfter(b, q, i + 2);
        var second := After(b, i + 2);
        if second < |q| - 1 {
          AlikeAfter(b, q, second);
        }
      }
    }
  }

  /** A literal ends before the last place in both, and alike; or it runs past the end of the one text exactly
      when it closes at the end of the other. */
  ghost predicate AlikeStrings(r: StringEnd, t: StringEnd, n: nat) {
    || (r == t && !r.PastEnd? && r.end <= n)
    || (!t.PastEnd? && t.end >= n && (r.PastEnd? || r.end > n) && (r.PastEnd? <==> t.Closed?) && (t.Closed? ==> t.end == n + 1))
  }

  lemma {:induction false} AlikeNoting(r: StringEnd, t: StringEnd, n: nat, mistakes: seq<nat>)
    requires AlikeStrings(r, t, n)
    ensures AlikeStrings(Noting(mistakes, r), Noting(mistakes, t), n)
  {}

  /** From past the last place, no literal closes and none runs past the end. */
  lemma {:induction false} LateString(b: string, q: string, i: nat, j: nat)
    requires Alike(b, q) && |q| <= i <= |b| && j == |q|
    ensures ScanString(b, i).Unclosed? && ScanString(q, j).Unclosed?
    decreases |b| - i
  {
    AlikeEnd(b, q);
  }

  lemma {:induction false} AlikeScan(b: string, q: string, i: nat)
    requires Alike(b, q) && i <= |q| - 1
    ensures AlikeStrings(ScanString(b, i), ScanString(q, i), |q| - 1)
    decreases |q| - i
  {
    var n := |q| - 1;
    if i == n {
      LastEscape(b, q);
    } else if b[i] == '\\' {
      hide EscapeAt, AlikeStrings;
      AlikeEscape(b, q, i);
      if EscapeAt(b, i).next <= n {
        AlikeScan(b, q, EscapeAt(b, i).next);
        AlikeNoting(ScanString(b, EscapeAt(b, i).next), ScanString(q, EscapeAt(b, i).next), n, EscapeAt(b, i).mistakes);
      } else {
        LateEscape(b, q, i);
      }
    } else if b[i] != '"' && b[i] != '\n' && b[i] != '\r' {
      AlikeScan(b, q, i + 1);
    }
  }

  lemma {:induction false} LastEscape(b: string, q: string)
    requires Alike(b, q)
    ensures var n := |q| - 1; ScanString(b, n).PastEnd? && ScanString(q, n) == Closed(n + 1, [])
  {
    AlikeEnd(b, q);
  }

  lemma {:induction false} LateEscape(b: string, q: string, i: nat)
    requires Alike(b, q) && i < |q| - 1 && b[i] == '\\' && EscapeAt(b, i).LeadsTo? && EscapeAt(b, i).next > |q| - 1
    ensures var r, t := ScanString(b, i), ScanString(q, i); r.Unclosed? && r.end > |q| - 1 && t.Unclosed? && t.end >= |q| - 1
  {
    AlikeEscape(b, q, i);
    hide EscapeAt;
    LateString(b, q, EscapeAt(b, i).next, |q|);
    hide Alike;
  }

  // ----- pieces -----

  /** Both pieces end by the last place and alike, or neither does, and the one runs past the end exactly when
      the other is a string literal. */
  ghost predicate AlikePieces(p: Piece, o: Piece, n: nat) {
    || (p == Blank && o == Blank)
    || (p.Piece? && o.Piece? && p.kind == o.kind && p.end == o.end <= n)
    || (o.Piece? && o.end >= n && (p.ReadsPastEnd? || (p.Piece? && p.end >= n)) && (p.ReadsPastEnd? <==> o.kind == TokenKind.StrLit && o.end == n + 1))
  }

  lemma {:induction false} AlikeIdent(b: string, q: string, i: nat)
    requires Alike(b, q) && i <= |q| - 1
    ensures SkipIdent(b, i) == SkipIdent(q, i) <= |q| - 1
    decreases |q| - i
  {
    AlikeEnd(b, q);
    if i < |q| - 1 && IsIdentRest(b[i]) {
      AlikeIdent(b, q, i + 1);
    }
  }

  lemma {:induction false} AlikeByteLit(b: string, q: string, i: nat)
    requires Alike(b, q) && i <= |q| - 1
    ensures var j, k, n := SkipByteLit(b, i), SkipByteLit(q, i), |q| - 1; (j == k && j < n) || (j > n && k > n)
    decreases |q| - i
  {
    AlikeEnd(b, q);
    if i < |q| - 1 && b[i] != '\'' && b[i] != '\n' && b[i] != '\r' {
      AlikeByteLit(b, q, i + 1);
    }
  }

  lemma {:induction false} AlikeLine(b: string, q: string, i: nat)
    requires Alike(b, q) && i <= |q| - 1
    ensures var j, k, n := SkipLine(b, i), SkipLine(q, i), |q| - 1; (j == k && j < n) || (j > n && k > n)
    decreases |q| - i
  {
    AlikeEnd(b, q);
    if i < |q| - 1 && b[i] != '\n' && b[i] != '\r' {
      AlikeLine(b, q, i + 1);
    }
  }

  lemma {:induction false} LateComment(b: string, q: string, i: nat)
    requires Alike(b, q) && |q| - 1 <= i <= |b|
    ensures SkipBlockComment(b, i).CommentOpen? && (i <= |q| ==> SkipBlockComment(q, i).CommentOpen?)
    decreases |b| - i
  {
    AlikeEnd(b, q);
    if i < |b| {
      LateComment(b, q, After(b, i));
    }
  }

  lemma {:induction false} AlikeComment(b: string, q: string, i: nat)
    requires Alike(b, q) && i <= |q| - 1
    ensures var r, t := SkipBlockComment(b, i), SkipBlockComment(q, i);
      r == t && (r.CommentClosed? ==> r.end <= |q| - 1)
    decreases |q| - i
  {
    if i == |q| - 1 {
      LateComment(b, q, i);
    } else {
      AlikeEnd(b, q);
      AlikeAfter(b, q, i);
      if !(b[i] == '*' && b[i + 1] == '/') {
        AlikeComment(b, q, After(b, i));
      }
    }
  }

  lemma {:induction false} AlikeInt(b: string, q: string, base: nat, i: nat, sawDigit: bool, afterDigit: bool, afterUnderscore: bool)
    requires Alike(b, q) && i <= |q| - 1
    ensures ScanInt(b, base, i, sawDigit, afterDigit, afterUnderscore) == ScanInt(q, base, i, sawDigit, afterDigit, afterUnderscore)
    ensures ScanInt(b, base, i, sawDigit, afterDigit, afterUnderscore).end <= |q| - 1
    decreases |q| - i
  {
    AlikeEnd(b, q);
    if i < |q| - 1 {
      if IsDigitOf(b[i], base) {
        AlikeInt(b, q, base, i + 1, true, true, false);
      } else if b[i] == '_' {
        AlikeInt(b, q, base, i + 1, sawDigit, false, true);
      } else if IsAlphanumeric(b[i]) {
        AlikeInt(b, q, base, i + 1, sawDigit, afterDigit, afterUnderscore);
      }
    }
  }

  lemma {:induction false} AlikeSlice(b: string, q: string, i: nat, j: nat)
    requires Alike(b, q) && i <= j <= |q| - 1
    ensures b[i..j] == q[i..j]
  {}

  lemma {:induction false} AlikeIdentPiece(b: string, q: string, i: nat)
    requires Alike(b, q) && i < |q| - 1
    ensures AlikePieces(IdentPiece(b, i), IdentPiece(q, i), |q| - 1)
  {
    hide KeywordKind, Alike;
    AlikeIdent(b, q, i + 1);
    AlikeSlice(b, q, i, SkipIdent(b, i + 1));
  }

  lemma {:induction false} AlikeIntPiece(b: string, q: string, i: nat)
    requires Alike(b, q) && i < |q| - 1
    ensures AlikePieces(IntPiece(b, i), IntPiece(q, i), |q| - 1)
  {
    hide ScanInt;
    AlikeEnd(b, q);
    assert IntBase(b, i) == IntBase(q, i) && DigitsStart(b, i) == DigitsStart(q, i) <= |q| - 1;
    AlikeInt(b, q, IntBase(b, i), DigitsStart(b, i), false, false, false);
  }

  lemma {:induction false} AlikeStringPiece(b: string, q: string, i: nat)
    requires Alike(b, q) && i < |q| - 1
    ensures AlikePieces(StringPiece(b, i), StringPiece(q, i), |q| - 1)
  {
    hide ScanString, Alike;
    AlikeScan(b, q, i + 1);
  }

  lemma {:induction false} AlikeBytePiece(b: string, q: string, i: nat)
    requires Alike(b, q) && i < |q| - 1
    ensures AlikePieces(BytePiece(b, i), BytePiece(q, i), |q| - 1)
  {
    AlikeByteLit(b, q, i + 1);
  }

  lemma {:induction false} AlikeCommentPiece(b: string, q: string, i: nat)
    requires Alike(b, q) && i + 1 < |q| - 1
    ensures AlikePieces(BlockCommentPiece(b, i), BlockCommentPiece(q, i), |q| - 1)
  {
    AlikeComment(b, q, i + 2);
  }

  lemma {:induction false} AlikePunctuation(c: char)
    ensures Punctuation(c, Some('\\')) == Punctuation(c, Some('"'))
    ensures Punctuation(c, Some('"')).Some? ==> Punctuation(c, Some('"')).value.1 == 1
    ensures forall next :: Punctuation(c, next).Some? ==> Punctuation(c, next).value.1 <= 2 && Punctuation(c, next).value.0 != TokenKind.StrLit
  {}

  /** Comments and punctuation. */
  predicate StartsMark(c: char) {
    !(c == ' ' || c == '\t' || c == '\r' || c == '\n' || IsIdentStart(c) || IsDigit(c) || c == '"' || c == '\'')
  }

  lemma {:induction false} AlikeMarkPiece(b: string, q: string, i: nat)
    requires Alike(b, q) && i < |q| - 1 && StartsMark(b[i])
    ensures AlikePieces(PieceAt(b, i), PieceAt(q, i), |q| - 1)
  {
    hide IdentPiece, IntPiece, StringPiece, BytePiece, BlockCommentPiece, SkipLine, After, EndsInBadEscape, Punctuation;
    AlikeEnd(b, q);
    AlikePunctuation(b[i]);
    if i + 1 < |q| - 1 {
      AlikeCommentPiece(b, q, i);
      AlikeLine(b, q, i + 2);
    }
  }

  lemma {:induction false} AlikeOtherPiece(b: string, q: string, i: nat)
    requires Alike(b, q) && i < |q| - 1 && !StartsMark(b[i])
    ensures AlikePieces(PieceAt(b, i), PieceAt(q, i), |q| - 1)
  {
    hide IdentPiece, IntPiece, StringPiece, BytePiece, BlockCommentPiece, SkipLine, After, EndsInBadEscape, Punctuation;
    AlikeAfter(b, q, i);
    AlikeIdentPiece(b, q, i);
    AlikeIntPiece(b, q, i);
    AlikeStringPiece(b, q, i);
    AlikeBytePiece(b, q, i);
  }

  lemma {:induction false} AlikePiece(b: string, q: string, i: nat)
    requires Alike(b, q) && i < |q| - 1
    ensures AlikePieces(PieceAt(b, i), PieceAt(q, i), |q| - 1)
  {
    hide PieceAt, AlikePieces, StartsMark;
    if StartsMark(b[i]) {
      AlikeMarkPiece(b, q, i);
    } else {
      AlikeOtherPiece(b, q, i);
    }
  }

  // ----- whole texts -----

  lemma {:induction false} StringEnds(q: string, i: nat, kind: TokenKind, end: nat)
    requires i < |q| && PieceAt(q, i).Piece? && PieceAt(q, i).kind == kind && PieceAt(q, i).end == end
    ensures EndsInString(q, i) <==> if end == |q| then kind == TokenKind.StrLit else EndsInString(q, end)
  {
    hide PieceAt;
  }

  lemma {:induction false} BlankEnds(q: string, i: nat)
    requires i < |q| && PieceAt(q, i) == Blank
    ensures EndsInString(q, i) <==> EndsInString(q, i + 1)
  {
    hide PieceAt;
  }

  /** From the last place on, no token is a whole string literal. */
  lemma {:induction false} LateEnds(q: string, i: nat)
    requires i <= |q| <= i + 1 && q != "" && q[|q| - 1] == '"'
    ensures !EndsInString(q, i)
  {
    if i < |q| {
      assert ScanString(q, |q|) == Unclosed(|q|, []);
      assert PieceAt(q, i) == StringPiece(q, i);
      StringEnds(q, i, Error, |q|);
    }
  }

  lemma {:induction false} CrashSteps(b: string, i: nat)
    requires i < |b|
    ensures LexFrom(b, i).Crashed? <==> match PieceAt(b, i)
      case Blank => LexFrom(b, i + 1).Crashed?
      case ReadsPastEnd => true
      case Piece(_, end, _) => LexFrom(b, end).Crashed?
  {
    hide PieceAt;
  }

  lemma {:induction false} CrashesAlike(b: string, q: string, i: nat)
    requires Alike(b, q) && i <= |q|
    ensures LexFrom(b, i).Crashed? <==> EndsInString(q, i)
    decreases |q| - i
  {
    hide LexFrom, PieceAt, EndsInString;
    if i >= |q| - 1 {
      LateEnds(q, i);
      if LexFrom(b, i).Crashed? {
        CrashNeedsBadEscape(b, i);
      }
    } else {
      AlikePiece(b, q, i);
      CrashStep(b, q, i);
    }
  }

  lemma {:induction false} CrashStep(b: string, q: string, i: nat)
    requires Alike(b, q) && i < |q| - 1 && AlikePieces(PieceAt(b, i), PieceAt(q, i), |q| - 1)
    ensures LexFrom(b, i).Crashed? <==> EndsInString(q, i)
    decreases |q| - i, 0
  {
    hide LexFrom, PieceAt, EndsInString;
    CrashSteps(b, i);
    var p, o := PieceAt(b, i), PieceAt(q, i);
    if p == Blank {
      BlankEnds(q, i);
      CrashesAlike(b, q, i + 1);
    } else {
      StringEnds(q, i, o.kind, o.end);
      if p.Piece? && p.end == o.end <= |q| - 1 {
        CrashesAlike(b, q, p.end);
      } else {
        LateStep(b, q, p, o);
      }
    }
  }

  lemma {:induction false} LateStep(b: string, q: string, p: Piece, o: Piece)
    requires Alike(b, q) && o.Piece? && |q| - 1 <= o.end <= |q| && (p.Piece? ==> |q| - 1 <= p.end <= |b|)
    ensures !EndsInString(q, o.end) && (p.Piece? ==> !LexFrom(b, p.end).Crashed?)
  {
    hide LexFrom, EndsInString;
    LateEnds(q, o.end);
    if p.Piece? && LexFrom(b, p.end).Crashed? {
      CrashNeedsBadEscape(b, p.end);
    }
  }

  /** The lexer reads past the end of a text exactly when the text ends in an escape `\x` before a CR LF, inside a
      literal that a quote in its place would have closed. */
  lemma {:induction false} CrashesIff(b: string)
    ensures Lex(b).Crashed? <==> EndsInBadEscape(b) && EndsInString(ClosedInstead(b), 0)
  {
    hide LexFrom, EndsInString;
    if Lex(b).Crashed? {
      CrashNeedsBadEscape(b, 0);
    }
    if EndsInBadEscape(b) {
      CrashesAlike(b, ClosedInstead(b), 0);
    }
  }
}
