/** What the tokens of a source text look like, said of the text itself, and that the lexer yields exactly those. */
module TokenShapes {
  import opened Ast
  import opened Tokens
  import opened Lexing

  // ----- words -----

  predicate Letter(c: char) { 'A' <= c <= 'Z' || 'a' <= c <= 'z' || c == '_' }

  predicate WordChar(c: char) { 'A' <= c <= 'Z' || 'a' <= c <= 'z' || c == '_' || '0' <= c <= '9' }

  /** How a keyword is spelled. */
  function KeywordText(kind: TokenKind): Option<string> {
    match kind
    case KwFn => Some("fn")
    case KwLet => Some("let")
    case KwMut => Some("mut")
    case KwConst => Some("const")
    case KwStatic => Some("static")
    case KwRet => Some("ret")
    case KwIf => Some("if")
    case KwElse => Some("else")
    case KwLoop => Some("loop")
    case KwWhile => Some("while")
    case KwBreak => Some("break")
    case KwContinue => Some("continue")
    case KwUse => Some("use")
    case KwModule => Some("module")
    case KwPackage => Some("package")
    case KwVersion => Some("version")
    case KwType => Some("type")
    case KwTarget => Some("target")
    case KwRuntime => Some("runtime")
    case KwEntry => Some("entry")
    case KwRequires => Some("requires")
    case KwDep => Some("dep")
    case KwEnd => Some("end")
    case KwUnsafe => Some("unsafe")
    case KwExtern => Some("extern")
    case KwAsm => Some("asm")
    case KwTrue => Some("true")
    case KwFalse => Some("false")
    case KwAnd => Some("and")
    case KwOr => Some("or")
    case KwNot => Some("not")
    case _ => None
  }

  /** A keyword is of its own kind, and any other word is an identifier. */
  ghost predicate WordKind(text: string, kind: TokenKind) {
    || KeywordText(kind) == Some(text)
    || (kind == TokenKind.Ident && forall k :: KeywordText(k) != Some(text))
  }

  /** The characters from one place to another are those of words, and the next is not. */
  ghost predicate WordRun(b: string, i: nat, end: nat) {
    && i <= end <= |b| && (forall k :: i <= k < end ==> WordChar(b[k])) && (end < |b| ==> !WordChar(b[end]))
  }

  ghost predicate WordShape(b: string, i: nat, p: Piece) {
    p.Piece? && i < p.end && WordRun(b, i, p.end) && p.mistakes == [] && WordKind(b[i..p.end], p.kind)
  }

  // ----- numbers -----

  /** What a digit is worth. */
  ghost predicate Worth(c: char, v: nat) {
    v < 16 && (c == "0123456789abcdef"[v] || c == "0123456789ABCDEF"[v])
  }

  ghost predicate DigitOf(c: char, base: nat) {
    exists v: nat :: v < base && Worth(c, v)
  }

  /** The base, and where the digits start. */
  ghost predicate Prefixed(b: string, i: nat, base: nat, start: nat)
    requires i < |b|
  {
    var x := if b[i] == '0' && i + 1 < |b| then b[i + 1] else '0';
    if x == 'x' || x == 'X' then base == 16 && start == i + 2
    else if x == 'b' || x == 'B' then base == 2 && start == i + 2
    else if x == 'o' || x == 'O' then base == 8 && start == i + 2
    else base == 10 && start == i
  }

  /** There is a digit before the place, and no underscore after the last one. */
  ghost predicate Settled(b: string, base: nat, start: nat, k: nat)
    requires k <= |b|
  {
    exists j :: start <= j < k && DigitOf(b[j], base) && forall m :: j < m < k ==> b[m] != '_'
  }

  /** A digit of no such base, or an underscore that does not follow a digit. */
  ghost predicate Misplaced(b: string, base: nat, start: nat, k: nat)
    requires k < |b|
  {
    if b[k] == '_' then !Settled(b, base, start, k) else !DigitOf(b[k], base)
  }

  /** A mistake at each misplaced character, and one at the end if that is not after a digit. */
  ghost function NumberMistakes(b: string, base: nat, start: nat, k: nat, end: nat): seq<Mistake>
    requires k <= end <= |b|
    decreases end - k
  {
    if k == end then if Settled(b, base, start, end) then [] else [Mistake("E1003", end)]
    else (if Misplaced(b, base, start, k) then [Mistake("E1003", k)] else []) + NumberMistakes(b, base, start, k + 1, end)
  }

  ghost predicate NumberShape(b: string, i: nat, p: Piece)
    requires i < |b|
  {
    exists base: nat, start: nat ::
      && Prefixed(b, i, base, start)
      && p.Piece? && p.kind == TokenKind.IntLit && WordRun(b, start, p.end)
      && p.mistakes == NumberMistakes(b, base, start, start, p.end)
  }

  // ----- strings -----

  /** The place after a character; CR LF is one. */
  function Past(b: string, i: nat): nat
    requires i < |b|
  {
    if i + 1 < |b| && b[i] == '\r' && b[i + 1] == '\n' then i + 2 else i + 1
  }

  predicate Escapes(c: char) {
    c in "ntr0\\\"'"
  }

  /** A character or an escape inside a string literal, and where it is mistaken, if it is. */
  ghost predicate Element(b: string, i: nat, j: nat, bad: seq<nat>)
    requires i < |b|
  {
    if b[i] != '\\' then b[i] !in "\"\n\r" && j == i + 1 && bad == []
    else
      && i + 1 < |b|
      && if Escapes(b[i + 1]) then j == i + 2 && bad == []
         else if b[i + 1] != 'x' then j == Past(b, i + 1) && bad == [i + 1]
         else
           && i + 3 < |b|
           && var second := Past(b, i + 2);
           && second < |b| && j == Past(b, second)
           && bad == if DigitOf(b[i + 2], 16) && DigitOf(b[second], 16) then [] else [j]
  }

  /** One element after another, from the first place to the last. */
  ghost predicate Elements(b: string, cuts: seq<nat>, bads: seq<seq<nat>>) {
    && |cuts| == |bads| + 1
    && forall k :: 0 <= k < |bads| ==> cuts[k] < |b| && Element(b, cuts[k], cuts[k + 1], bads[k])
  }

  function Together(bads: seq<seq<nat>>): seq<nat> {
    if bads == [] then [] else bads[0] + Together(bads[1..])
  }

  /** How a literal ends where no element follows. */
  ghost predicate LiteralEnds(b: string, n: nat, r: StringEnd) {
    if n >= |b| || b[n] == '\n' || b[n] == '\r' then r == Unclosed(n, [])
    else if b[n] == '"' then r == Closed(n + 1, [])
    else
      && b[n] == '\\'
      && if n + 1 >= |b| then r == Unclosed(n + 1, [])
         else
           && b[n + 1] == 'x'
           && if n + 3 >= |b| then r == Unclosed(n + 2, [n + 2]) else Past(b, n + 2) >= |b| && r == PastEnd
  }

  /** With mistakes noticed before. */
  function Noticed(bads: seq<nat>, r: StringEnd): StringEnd {
    match r
    case Closed(end, more) => Closed(end, bads + more)
    case Unclosed(end, more) => Unclosed(end, bads + more)
    case PastEnd => PastEnd
  }

  /** A literal from its first element to its end. */
  ghost predicate Literal(b: string, i: nat, cuts: seq<nat>, bads: seq<seq<nat>>, r: StringEnd) {
    && Elements(b, cuts, bads) && cuts[0] == i
    && exists last :: LiteralEnds(b, cuts[|bads|], last) && r == Noticed(Together(bads), last)
  }

  ghost predicate LiteralShape(b: string, i: nat, r: StringEnd) {
    exists cuts: seq<nat>, bads: seq<seq<nat>> :: Literal(b, i, cuts, bads, r)
  }

  function Noted(places: seq<nat>): seq<Mistake> {
    seq(|places|, k requires 0 <= k < |places| => Mistake("E1001", places[k]))
  }

  /** The token that a literal is, which is an error where it is not closed. */
  function LiteralToken(r: StringEnd): Piece {
    match r
    case Closed(end, places) => Piece(TokenKind.StrLit, end, Noted(places))
    case Unclosed(end, places) => Piece(Error, end, Noted(places) + [Mistake("E1002", end)])
    case PastEnd => ReadsPastEnd
  }

  ghost predicate StringShape(b: string, i: nat, p: Piece) {
    exists r :: LiteralShape(b, i + 1, r) && p == LiteralToken(r)
  }

  // ----- byte literals and comments -----

  /** The first place from i on, if any, where a character stops the run. */
  ghost predicate RunTo(b: string, i: nat, end: nat, stops: string) {
    && i <= end <= |b| && (forall k :: i <= k < end ==> b[k] !in stops) && (end < |b| ==> b[end] in stops)
  }

  ghost predicate ByteShape(b: string, i: nat, p: Piece) {
    exists end: nat :: RunTo(b, i + 1, end, "'\n\r") &&
      p == if end < |b| && b[end] == '\'' then Piece(ByteLit, end + 1, []) else Piece(Error, end, [Mistake("E1002", end)])
  }

  ghost predicate LineCommentShape(b: string, i: nat, p: Piece) {
    exists end: nat :: RunTo(b, i + 2, end, "\n\r") && p == Piece(Comment, end, [])
  }

  ghost predicate MarkAt(b: string, i: nat, mark: string) {
    i + |mark| <= |b| && b[i..i + |mark|] == mark
  }

  /** To the first closing mark after the opening one. */
  ghost predicate BlockCommentShape(b: string, i: nat, p: Piece) {
    if exists k: nat :: i + 2 <= k && MarkAt(b, k, "*/") then
      exists k: nat :: i + 2 <= k && MarkAt(b, k, "*/") && (forall m: nat :: i + 2 <= m < k ==> !MarkAt(b, m, "*/")) && p == Piece(Comment, k + 2, [])
    else p == Piece(Error, |b|, [Mistake("E0101", |b|)])
  }

  // ----- marks -----

  /** How a mark is spelled. */
  function MarkText(kind: TokenKind): Option<string> {
    match kind
    case Arrow => Some("->")
    case EqEq => Some("==")
    case BangEq => Some("!=")
    case LtEq => Some("<=")
    case GtEq => Some(">=")
    case Slash => Some("/")
    case Plus => Some("+")
    case Minus => Some("-")
    case Star => Some("*")
    case Percent => Some("%")
    case Eq => Some("=")
    case Lt => Some("<")
    case Gt => Some(">")
    case LParen => Some("(")
    case RParen => Some(")")
    case LBracket => Some("[")
    case RBracket => Some("]")
    case Comma => Some(",")
    case Dot => Some(".")
    case Colon => Some(":")
    case _ => None
  }

  ghost predicate IsMark(b: string, i: nat, kind: TokenKind, length: nat) {
    MarkText(kind).Some? && |MarkText(kind).value| == length && MarkAt(b, i, MarkText(kind).value)
  }

  /** The longer mark wins; a character that starts none is a mistake by itself. */
  ghost predicate MarkShape(b: string, i: nat, p: Piece) {
    if exists kind :: IsMark(b, i, kind, 2) then p.Piece? && IsMark(b, i, p.kind, 2) && p == Piece(p.kind, i + 2, [])
    else if exists kind :: IsMark(b, i, kind, 1) then p.Piece? && IsMark(b, i, p.kind, 1) && p == Piece(p.kind, i + 1, [])
    else p == Piece(Error, i + 1, [Mistake("E0102", i + 1)])
  }

  /** What starts at a place. */
  ghost predicate Shape(b: string, i: nat, p: Piece)
    requires i < |b|
  {
    var c := b[i];
    if c == ' ' || c == '\t' then p == Blank
    else if c == '\n' || c == '\r' then p == Piece(Newline, Past(b, i), [])
    else if Letter(c) then WordShape(b, i, p)
    else if '0' <= c <= '9' then NumberShape(b, i, p)
    else if c == '"' then StringShape(b, i, p)
    else if c == '\'' then ByteShape(b, i, p)
    else if MarkAt(b, i, "//") then LineCommentShape(b, i, p)
    else if MarkAt(b, i, "/*") then BlockCommentShape(b, i, p)
    else MarkShape(b, i, p)
  }

  // ----- the lexer finds words -----

  lemma {:induction false} WordChars(c: char)
    ensures IsIdentStart(c) <==> Letter(c)
    ensures IsIdentRest(c) <==> WordChar(c)
  {}

  lemma {:induction false} SkipWord(b: string, i: nat)
    requires i <= |b|
    ensures WordRun(b, i, SkipIdent(b, i))
    decreases |b| - i
  {
    if i < |b| {
      WordChars(b[i]);
      if WordChar(b[i]) {
        SkipWord(b, i + 1);
      }
    }
  }

  lemma {:induction false} OneRun(b: string, i: nat, j: nat, k: nat)
    requires WordRun(b, i, j) && WordRun(b, i, k)
    ensures j == k
  {}

  lemma {:induction false} KeywordHasText(text: string, kind: TokenKind)
    requires KeywordKind(text) == Some(kind)
    ensures KeywordText(kind) == Some(text)
  {
    hide DeclarationWord, PackageWord, FlowWord, ValueWord, KeywordText;
    if DeclarationWord(text).Some? {
      DeclarationHasText(text);
    } else if PackageWord(text).Some? {
      PackageHasText(text);
    } else if FlowWord(text).Some? {
      FlowHasText(text);
    } else {
      ValueHasText(text);
    }
  }

  lemma {:induction false} DeclarationHasText(text: string)
    requires DeclarationWord(text).Some?
    ensures KeywordText(DeclarationWord(text).value) == Some(text)
  {}

  lemma {:induction false} PackageHasText(text: string)
    requires PackageWord(text).Some?
    ensures KeywordText(PackageWord(text).value) == Some(text)
  {}

  lemma {:induction false} FlowHasText(text: string)
    requires FlowWord(text).Some?
    ensures KeywordText(FlowWord(text).value) == Some(text)
  {}

  lemma {:induction false} ValueHasText(text: string)
    requires ValueWord(text).Some?
    ensures KeywordText(ValueWord(text).value) == Some(text)
  {}

  lemma {:induction false} TextOfDeclarationWord(kind: TokenKind)
    requires kind in {KwFn, KwLet, KwMut, KwConst, KwStatic, KwUse, KwModule, KwPackage, KwVersion, KwType}
    ensures KeywordKind(KeywordText(kind).value) == Some(kind)
  {}

  lemma {:induction false} TextOfPackageWord(kind: TokenKind)
    requires kind in {KwTarget, KwRuntime, KwEntry, KwRequires, KwDep, KwExtern, KwAsm}
    ensures KeywordKind(KeywordText(kind).value) == Some(kind)
  {}

  lemma {:induction false} TextOfFlowWord(kind: TokenKind)
    requires kind in {KwRet, KwIf, KwElse, KwLoop, KwWhile, KwBreak, KwContinue, KwEnd, KwUnsafe}
    ensures KeywordKind(KeywordText(kind).value) == Some(kind)
  {}

  lemma {:induction false} TextOfValueWord(kind: TokenKind)
    requires kind in {KwTrue, KwFalse, KwAnd, KwOr, KwNot}
    ensures KeywordKind(KeywordText(kind).value) == Some(kind)
  {}

  lemma {:induction false} TextOfKeyword(kind: TokenKind)
    requires KeywordText(kind).Some?
    ensures KeywordKind(KeywordText(kind).value) == Some(kind)
  {
    hide KeywordKind;
    match kind
    case KwFn => TextOfDeclarationWord(kind);
    case KwLet => TextOfDeclarationWord(kind);
    case KwMut => TextOfDeclarationWord(kind);
    case KwConst => TextOfDeclarationWord(kind);
    case KwStatic => TextOfDeclarationWord(kind);
    case KwUse => TextOfDeclarationWord(kind);
    case KwModule => TextOfDeclarationWord(kind);
    case KwPackage => TextOfDeclarationWord(kind);
    case KwVersion => TextOfDeclarationWord(kind);
    case KwType => TextOfDeclarationWord(kind);
    case KwTarget => TextOfPackageWord(kind);
    case KwRuntime => TextOfPackageWord(kind);
    case KwEntry => TextOfPackageWord(kind);
    case KwRequires => TextOfPackageWord(kind);
    case KwDep => TextOfPackageWord(kind);
    case KwExtern => TextOfPackageWord(kind);
    case KwAsm => TextOfPackageWord(kind);
    case KwRet => TextOfFlowWord(kind);
    case KwIf => TextOfFlowWord(kind);
    case KwElse => TextOfFlowWord(kind);
    case KwLoop => TextOfFlowWord(kind);
    case KwWhile => TextOfFlowWord(kind);
    case KwBreak => TextOfFlowWord(kind);
    case KwContinue => TextOfFlowWord(kind);
    case KwEnd => TextOfFlowWord(kind);
    case KwUnsafe => TextOfFlowWord(kind);
    case KwTrue => TextOfValueWord(kind);
    case KwFalse => TextOfValueWord(kind);
    case KwAnd => TextOfValueWord(kind);
    case KwOr => TextOfValueWord(kind);
    case KwNot => TextOfValueWord(kind);
    case _ =>
  }

  lemma {:induction false} Keywords(text: string, kind: TokenKind)
    ensures WordKind(text, kind) <==> kind == match KeywordKind(text) case Some(k) => k case None => TokenKind.Ident
  {
    hide KeywordKind, KeywordText;
    if KeywordKind(text).Some? {
      KeywordHasText(text, KeywordKind(text).value);
    }
    forall k | KeywordText(k) == Some(text)
      ensures KeywordKind(text) == Some(k)
    {
      TextOfKeyword(k);
    }
    IdentHasNoText();
  }

  lemma {:induction false} IdentHasNoText()
    ensures KeywordText(TokenKind.Ident) == None
  {}

  lemma {:induction false} WordIff(b: string, i: nat, p: Piece)
    requires i < |b| && Letter(b[i])
    ensures IdentPiece(b, i) == p <==> WordShape(b, i, p)
  {
    hide KeywordKind;
    SkipWord(b, i + 1);
    var end := SkipIdent(b, i + 1);
    assert WordRun(b, i, end);
    if p.Piece? && i <= p.end <= |b| {
      Keywords(b[i..p.end], p.kind);
    }
    if WordShape(b, i, p) {
      OneRun(b, i, end, p.end);
    }
  }

  // ----- numbers -----

  lemma {:induction false} WorthIs(c: char, v: nat)
    requires v < 16
    ensures Worth(c, v) <==> DigitValue(c) == Some(v)
  {
    var small, large := "0123456789abcdef", "0123456789ABCDEF";
    if v < 10 {
      assert small[v] as int == '0' as int + v && large[v] as int == '0' as int + v;
    } else {
      assert small[v] as int == 'a' as int + v - 10 && large[v] as int == 'A' as int + v - 10;
    }
  }

  lemma {:induction false} DigitIff(c: char, base: nat)
    requires base <= 16
    ensures IsDigitOf(c, base) <==> DigitOf(c, base)
  {
    hide Worth;
    if IsDigitOf(c, base) {
      WorthIs(c, DigitValue(c).value);
    }
    if DigitOf(c, base) {
      var v: nat :| v < base && Worth(c, v);
      WorthIs(c, v);
    }
  }

  lemma {:induction false} SettledStep(b: string, base: nat, start: nat, k: nat)
    requires start <= k < |b|
    ensures Settled(b, base, start, k + 1) <==> DigitOf(b[k], base) || (Settled(b, base, start, k) && b[k] != '_')
    ensures !Settled(b, base, start, start)
  {
    hide DigitOf;
    if Settled(b, base, start, k + 1) && !DigitOf(b[k], base) {
      var j :| start <= j < k + 1 && DigitOf(b[j], base) && forall m :: j < m < k + 1 ==> b[m] != '_';
      assert j < k;
    }
  }

  lemma {:induction false} UnderscoreIsNoDigit(c: char, base: nat)
    requires base <= 16
    ensures IsDigitOf(c, base) ==> IsAlphanumeric(c) && c != '_'
    ensures WordChar(c) <==> c == '_' || IsAlphanumeric(c)
  {}

  lemma {:induction false} ScanStep(b: string, base: nat, i: nat, sawDigit: bool, afterDigit: bool, afterUnderscore: bool)
    requires i <= |b|
    ensures ScanInt(b, base, i, sawDigit, afterDigit, afterUnderscore)
      == if i < |b| && IsDigitOf(b[i], base) then ScanInt(b, base, i + 1, true, true, false)
         else if i < |b| && b[i] == '_' then
           var r := ScanInt(b, base, i + 1, sawDigit, false, true);
           if afterDigit then r else IntEnd(r.end, r.sawDigit, r.afterUnderscore, [i] + r.mistakes)
         else if i < |b| && IsAlphanumeric(b[i]) then
           var r := ScanInt(b, base, i + 1, sawDigit, afterDigit, afterUnderscore);
           IntEnd(r.end, r.sawDigit, r.afterUnderscore, [i] + r.mistakes)
         else IntEnd(i, sawDigit, afterUnderscore, [])
  {
    hide IsDigitOf, IsAlphanumeric;
  }

  /** From a place in a number on. */
  lemma {:induction false} ScanIs(b: string, base: nat, start: nat, i: nat, sawDigit: bool, afterDigit: bool, afterUnderscore: bool)
    requires start <= i <= |b| && base <= 16
    requires afterDigit == Settled(b, base, start, i) && (sawDigit && !afterUnderscore <==> Settled(b, base, start, i))
    ensures var r := ScanInt(b, base, i, sawDigit, afterDigit, afterUnderscore);
      && WordRun(b, i, r.end)
      && NumberMistakes(b, base, start, i, r.end)
         == Mistakes("E1003", r.mistakes) + if !r.sawDigit || r.afterUnderscore then [Mistake("E1003", r.end)] else []
    decreases |b| - i
  {
    hide DigitOf, Settled, Mistakes, IsDigitOf, WordChar, IsAlphanumeric, ScanInt;
    NoMistakes();
    ScanStep(b, base, i, sawDigit, afterDigit, afterUnderscore);
    if i < |b| {
      DigitIff(b[i], base);
      SettledStep(b, base, start, i);
      UnderscoreIsNoDigit(b[i], base);
      if IsDigitOf(b[i], base) {
        ScanIs(b, base, start, i + 1, true, true, false);
      } else if b[i] == '_' {
        ScanIs(b, base, start, i + 1, sawDigit, false, true);
        OneMistake(i, ScanInt(b, base, i + 1, sawDigit, false, true).mistakes);
      } else if IsAlphanumeric(b[i]) {
        ScanIs(b, base, start, i + 1, sawDigit, afterDigit, afterUnderscore);
        OneMistake(i, ScanInt(b, base, i + 1, sawDigit, afterDigit, afterUnderscore).mistakes);
      }
    }
  }

  lemma {:induction false} NoMistakes()
    ensures Mistakes("E1003", []) == []
  {}

  lemma {:induction false} OneMistake(i: nat, ms: seq<nat>)
    ensures Mistakes("E1003", [i] + ms) == [Mistake("E1003", i)] + Mistakes("E1003", ms)
  {}

  lemma {:induction false} NumberIff(b: string, i: nat, p: Piece)
    requires i < |b| && '0' <= b[i] <= '9'
    ensures IntPiece(b, i) == p <==> NumberShape(b, i, p)
  {
    var base, start := IntBase(b, i), DigitsStart(b, i);
    PrefixIff(b, i, base, start);
    hide IntBase, DigitsStart, Settled, Prefixed, NumberMistakes;
    NothingSettled(b, base, start);
    ScanIs(b, base, start, start, false, false, false);
    var r := ScanInt(b, base, start, false, false, false);
    EmptyNumber(b, base, start);
    if NumberShape(b, i, p) {
      var base', start' :| Prefixed(b, i, base', start') && p.Piece? && p.kind == TokenKind.IntLit && WordRun(b, start', p.end)
        && p.mistakes == NumberMistakes(b, base', start', start', p.end);
      PrefixIff(b, i, base', start');
      OneRun(b, start, r.end, p.end);
    }
  }

  lemma {:induction false} NothingSettled(b: string, base: nat, start: nat)
    requires start <= |b|
    ensures !Settled(b, base, start, start)
  {}

  lemma {:induction false} EmptyNumber(b: string, base: nat, start: nat)
    requires start <= |b|
    ensures var r := ScanInt(b, base, start, false, false, false); r.end == start ==> !r.sawDigit
  {}

  lemma {:induction false} PrefixIff(b: string, i: nat, base: nat, start: nat)
    requires i < |b|
    ensures Prefixed(b, i, base, start) <==> base == IntBase(b, i) && start == DigitsStart(b, i)
    ensures IntBase(b, i) <= 16
  {}

  // ----- strings -----

  lemma {:induction false} HexIff(c: char)
    ensures IsHex(c) <==> DigitOf(c, 16)
  {
    DigitIff(c, 16);
  }

  lemma {:induction false} EscapesIff(c: char)
    ensures IsSimpleEscape(c) <==> Escapes(c)
  {
    var all := "ntr0\\\"'";
    assert all[0] == 'n' && all[1] == 't' && all[2] == 'r' && all[3] == '0' && all[4] == '\\' && all[5] == '"' && all[6] == '\'';
  }

  lemma {:induction false} ElementScans(b: string, i: nat, j: nat, bad: seq<nat>)
    requires i < |b| && j <= |b| && Element(b, i, j, bad)
    ensures ScanString(b, i) == Noticed(bad, ScanString(b, j))
  {
    hide EscapeAt, Escapes, DigitOf;
    NoticedNone(ScanString(b, j));
    if b[i] != '\\' {
      NotIn(b[i]);
    } else {
      EscapeLeads(b, i, j, bad);
    }
  }

  lemma {:induction false} EscapeLeads(b: string, i: nat, j: nat, bad: seq<nat>)
    requires i < |b| && b[i] == '\\' && j <= |b| && Element(b, i, j, bad)
    ensures EscapeAt(b, i) == LeadsTo(j, bad)
  {
    hide DigitOf, Escapes;
    EscapesIff(b[i + 1]);
    if i + 3 < |b| {
      HexIff(b[i + 2]);
      if Past(b, i + 2) < |b| {
        HexIff(b[Past(b, i + 2)]);
      }
    }
  }

  lemma {:induction false} NoticedNone(r: StringEnd)
    ensures Noticed([], r) == r
  {}

  lemma {:induction false} NotIn(c: char)
    ensures c !in "\"\n\r" <==> c != '"' && c != '\n' && c != '\r'
  {
    var all := "\"\n\r";
    assert all[0] == '"' && all[1] == '\n' && all[2] == '\r';
  }

  lemma {:induction false} EndScans(b: string, n: nat, r: StringEnd)
    requires n <= |b| && LiteralEnds(b, n, r)
    ensures ScanString(b, n) == r
  {
    if n + 1 < |b| && b[n] == '\\' {
      EscapesIff(b[n + 1]);
    }
  }

  lemma {:induction false} NoticedTwice(a: seq<nat>, c: seq<nat>, r: StringEnd)
    ensures Noticed(a, Noticed(c, r)) == Noticed(a + c, r)
  {
    match r
    case PastEnd =>
    case Closed(_, more) => assert a + (c + more) == a + c + more;
    case Unclosed(_, more) => assert a + (c + more) == a + c + more;
  }

  lemma {:induction false} LiteralScans(b: string, cuts: seq<nat>, bads: seq<seq<nat>>, last: StringEnd)
    requires Elements(b, cuts, bads) && cuts[|bads|] <= |b| && LiteralEnds(b, cuts[|bads|], last)
    ensures cuts[0] <= |b| && ScanString(b, cuts[0]) == Noticed(Together(bads), last)
    decreases |bads|
  {
    hide Element, LiteralEnds, ScanString, Noticed;
    if bads == [] {
      EndScans(b, cuts[0], last);
      NoticedNone(last);
    } else {
      assert Element(b, cuts[0], cuts[1], bads[0]);
      LaterElements(b, cuts, bads);
      LiteralScans(b, cuts[1..], bads[1..], last);
      ElementScans(b, cuts[0], cuts[1], bads[0]);
      NoticedTwice(bads[0], Together(bads[1..]), last);
    }
  }

  lemma {:induction false} LaterElements(b: string, cuts: seq<nat>, bads: seq<seq<nat>>)
    requires Elements(b, cuts, bads) && bads != []
    ensures Elements(b, cuts[1..], bads[1..]) && cuts[1..][|bads[1..]|] == cuts[|bads|]
  {
    hide Element;
    forall k | 0 <= k < |bads[1..]|
      ensures cuts[1..][k] < |b| && Element(b, cuts[1..][k], cuts[1..][k + 1], bads[1..][k])
    {
      assert Element(b, cuts[k + 1], cuts[k + 2], bads[k + 1]);
    }
  }

  /** The elements that the lexer goes through. */
  lemma {:induction false} ScanHasElements(b: string, i: nat) returns (cuts: seq<nat>, bads: seq<seq<nat>>, last: StringEnd)
    requires i <= |b|
    ensures Elements(b, cuts, bads) && cuts[0] == i && cuts[|bads|] <= |b| && LiteralEnds(b, cuts[|bads|], last)
    decreases |b| - i
  {
    hide Element, LiteralEnds;
    if last' :| LiteralEnds(b, i, last') {
      cuts, bads, last := [i], [], last';
    } else {
      var j, bad := ElementOrEnd(b, i);
      var cuts', bads';
      cuts', bads', last := ScanHasElements(b, j);
      cuts, bads := [i] + cuts', [bad] + bads';
      forall k | 0 <= k < |bads|
        ensures cuts[k] < |b| && Element(b, cuts[k], cuts[k + 1], bads[k])
      {
        if k > 0 {
          assert Element(b, cuts'[k - 1], cuts'[k], bads'[k - 1]);
        }
      }
    }
  }

  /** The text, a line or the literal ends. */
  lemma {:induction false} EndsHere(b: string, i: nat)
    requires i <= |b|
    ensures i == |b| || b[i] == '\n' || b[i] == '\r' || b[i] == '"' ==> exists last :: LiteralEnds(b, i, last)
  {
    if i < |b| && b[i] == '"' {
      assert LiteralEnds(b, i, Closed(i + 1, []));
    } else if i == |b| || b[i] == '\n' || b[i] == '\r' {
      assert LiteralEnds(b, i, Unclosed(i, []));
    }
  }

  lemma {:induction false} ElementOrEnd(b: string, i: nat) returns (j: nat, bad: seq<nat>)
    requires i <= |b| && !exists last :: LiteralEnds(b, i, last)
    ensures i < j <= |b| && Element(b, i, j, bad)
  {
    EndsHere(b, i);
    NotIn(b[i]);
    if b[i] != '\\' {
      j, bad := i + 1, [];
    } else {
      j, bad := EscapeOrEnd(b, i);
    }
  }

  /** The text ends inside an escape, or the lexer goes past its end. */
  lemma {:induction false} EndsInside(b: string, i: nat)
    requires i < |b| && b[i] == '\\'
    ensures i + 1 == |b| ==> exists last :: LiteralEnds(b, i, last)
    ensures i + 1 < |b| <= i + 3 && b[i + 1] == 'x' ==> exists last :: LiteralEnds(b, i, last)
    ensures i + 3 < |b| && b[i + 1] == 'x' && Past(b, i + 2) >= |b| ==> exists last :: LiteralEnds(b, i, last)
  {
    if i + 1 == |b| {
      assert LiteralEnds(b, i, Unclosed(i + 1, []));
    } else if b[i + 1] == 'x' && i + 3 >= |b| {
      assert LiteralEnds(b, i, Unclosed(i + 2, [i + 2]));
    } else if b[i + 1] == 'x' && Past(b, i + 2) >= |b| {
      assert LiteralEnds(b, i, PastEnd);
    }
  }

  lemma {:induction false} EscapeOrEnd(b: string, i: nat) returns (j: nat, bad: seq<nat>)
    requires i < |b| && b[i] == '\\' && !exists last :: LiteralEnds(b, i, last)
    ensures i < j <= |b| && Element(b, i, j, bad)
  {
    hide DigitOf, Escapes;
    EndsInside(b, i);
    EscapesIff(b[i + 1]);
    if Escapes(b[i + 1]) {
      j, bad := i + 2, [];
    } else if b[i + 1] != 'x' {
      j, bad := Past(b, i + 1), [i + 1];
    } else {
      var second := Past(b, i + 2);
      j := Past(b, second);
      bad := if DigitOf(b[i + 2], 16) && DigitOf(b[second], 16) then [] else [j];
    }
  }

  lemma {:induction false} LiteralIff(b: string, i: nat, r: StringEnd)
    requires i <= |b|
    ensures ScanString(b, i) == r <==> LiteralShape(b, i, r)
  {
    hide ScanString, Elements, LiteralEnds, Noticed, Literal;
    if LiteralShape(b, i, r) {
      var cuts, bads :| Literal(b, i, cuts, bads, r);
      var last := LiteralParts(b, i, cuts, bads, r);
      LiteralScans(b, cuts, bads, last);
    }
    LiteralExists(b, i);
  }

  lemma {:induction false} LiteralExists(b: string, i: nat)
    requires i <= |b|
    ensures LiteralShape(b, i, ScanString(b, i))
  {
    var cuts, bads, last := ScanHasElements(b, i);
    LiteralScans(b, cuts, bads, last);
    hide ScanString, Element, LiteralEnds, Noticed;
    assert Literal(b, i, cuts, bads, ScanString(b, i));
  }

  lemma {:induction false} LiteralParts(b: string, i: nat, cuts: seq<nat>, bads: seq<seq<nat>>, r: StringEnd) returns (last: StringEnd)
    requires i <= |b| && Literal(b, i, cuts, bads, r)
    ensures |cuts| == |bads| + 1 && Elements(b, cuts, bads) && cuts[0] == i && cuts[|bads|] <= |b|
    ensures LiteralEnds(b, cuts[|bads|], last) && r == Noticed(Together(bads), last)
  {
    last :| LiteralEnds(b, cuts[|bads|], last) && r == Noticed(Together(bads), last);
    CutsInside(b, cuts, bads, |bads|);
  }

  lemma {:induction false} CutsInside(b: string, cuts: seq<nat>, bads: seq<seq<nat>>, k: nat)
    requires Elements(b, cuts, bads) && cuts[0] <= |b| && k <= |bads|
    ensures cuts[k] <= |b|
  {
    hide DigitOf, Escapes;
    if k > 0 {
      assert Element(b, cuts[k - 1], cuts[k], bads[k - 1]);
    }
  }

  lemma {:induction false} StringIff(b: string, i: nat, p: Piece)
    requires i < |b|
    ensures StringPiece(b, i) == p <==> StringShape(b, i, p)
  {
    hide ScanString, LiteralShape;
    var r := ScanString(b, i + 1);
    LiteralIff(b, i + 1, r);
    SameToken(r);
    assert StringPiece(b, i) == LiteralToken(r);
    if StringShape(b, i, p) {
      var r' :| LiteralShape(b, i + 1, r') && p == LiteralToken(r');
      LiteralIff(b, i + 1, r');
    }
  }

  lemma {:induction false} SameToken(r: StringEnd)
    ensures !r.PastEnd? ==> Mistakes("E1001", r.mistakes) == Noted(r.mistakes)
  {}

  // ----- byte literals, comments and marks -----

  lemma {:induction false} OneRunTo(b: string, i: nat, j: nat, k: nat, stops: string)
    requires RunTo(b, i, j, stops) && RunTo(b, i, k, stops)
    ensures j == k
  {}

  lemma {:induction false} SkipsTo(b: string, i: nat)
    requires i <= |b|
    ensures RunTo(b, i, SkipByteLit(b, i), "'\n\r") && RunTo(b, i, SkipLine(b, i), "\n\r")
    decreases |b| - i
  {
    var quotes, ends := "'\n\r", "\n\r";
    assert quotes[0] == '\'' && quotes[1] == '\n' && quotes[2] == '\r' && ends[0] == '\n' && ends[1] == '\r';
    if i < |b| {
      SkipsTo(b, i + 1);
    }
  }

  lemma {:induction false} ByteIff(b: string, i: nat, p: Piece)
    requires i < |b|
    ensures BytePiece(b, i) == p <==> ByteShape(b, i, p)
  {
    SkipsTo(b, i + 1);
    var end := SkipByteLit(b, i + 1);
    hide RunTo;
    assert RunTo(b, i + 1, end, "'\n\r") && end <= |b|;
    if ByteShape(b, i, p) {
      var end': nat :| RunTo(b, i + 1, end', "'\n\r") &&
        p == if end' < |b| && b[end'] == '\'' then Piece(ByteLit, end' + 1, []) else Piece(Error, end', [Mistake("E1002", end')]);
      OneRunTo(b, i + 1, end, end', "'\n\r");
    }
  }

  lemma {:induction false} LineCommentIff(b: string, i: nat, p: Piece)
    requires i + 2 <= |b|
    ensures Piece(Comment, SkipLine(b, i + 2), []) == p <==> LineCommentShape(b, i, p)
  {
    SkipsTo(b, i + 2);
    var end := SkipLine(b, i + 2);
    hide RunTo;
    if LineCommentShape(b, i, p) {
      var end': nat :| RunTo(b, i + 2, end', "\n\r") && p == Piece(Comment, end', []);
      OneRunTo(b, i + 2, end, end', "\n\r");
    }
  }

  lemma {:induction false} SkipsComment(b: string, i: nat)
    requires i <= |b|
    ensures match SkipBlockComment(b, i)
      case CommentClosed(end) =>
        i + 2 <= end <= |b| && MarkAt(b, end - 2, "*/") && forall m: nat :: i <= m < end - 2 ==> !MarkAt(b, m, "*/")
      case CommentOpen => forall m: nat :: i <= m ==> !MarkAt(b, m, "*/")
    decreases |b| - i
  {
    hide MarkAt;
    if i < |b| {
      CloseAt(b, i);
      if !MarkAt(b, i, "*/") {
        SkipsComment(b, After(b, i));
        if After(b, i) == i + 2 {
          CloseAt(b, i + 1);
        }
      }
    } else {
      forall m: nat | i <= m
        ensures !MarkAt(b, m, "*/")
      {
        NoMarkBeyond(b, m);
      }
    }
  }

  lemma {:induction false} CloseAt(b: string, i: nat)
    requires i < |b|
    ensures MarkAt(b, i, "*/") <==> b[i] == '*' && i + 1 < |b| && b[i + 1] == '/'
  {
    TwoChars(b, i, "*/");
  }

  lemma {:induction false} TwoChars(b: string, i: nat, mark: string)
    requires i < |b| && |mark| == 2
    ensures MarkAt(b, i, mark) <==> i + 1 < |b| && b[i] == mark[0] && b[i + 1] == mark[1]
  {
    if i + 1 < |b| {
      assert b[i..i + 2] == [b[i], b[i + 1]] && mark == [mark[0], mark[1]];
    }
  }

  lemma {:induction false} NoMarkBeyond(b: string, m: nat)
    requires m >= |b|
    ensures !MarkAt(b, m, "*/")
  {}

  lemma {:induction false} BlockCommentIff(b: string, i: nat, p: Piece)
    requires i + 2 <= |b|
    ensures BlockCommentPiece(b, i) == p <==> BlockCommentShape(b, i, p)
  {
    hide MarkAt, SkipBlockComment;
    SkipsComment(b, i + 2);
    match SkipBlockComment(b, i + 2)
    case CommentOpen =>
    case CommentClosed(end) =>
      assert i + 2 <= end - 2 && MarkAt(b, end - 2, "*/");
      if BlockCommentShape(b, i, p) {
        var k: nat :| i + 2 <= k && MarkAt(b, k, "*/") && (forall m: nat :: i + 2 <= m < k ==> !MarkAt(b, m, "*/")) && p == Piece(Comment, k + 2, []);
        assert k == end - 2;
      }
  }

  predicate OneOrLonger(m: Option<(TokenKind, nat)>, kind: TokenKind) {
    m == Some((kind, 1)) || (m.Some? && m.value.1 == 2)
  }

  /** A mark at a place is what the lexer finds there, unless a longer one is. */
  lemma {:induction false} MarkFound(b: string, i: nat, kind: TokenKind, length: nat)
    requires i < |b| && IsMark(b, i, kind, length)
    ensures length == 2 ==> Punctuation(b[i], NextChar(b, i)) == Some((kind, 2))
    ensures length == 1 ==> OneOrLonger(Punctuation(b[i], NextChar(b, i)), kind)
  {
    var mark := MarkText(kind).value;
    if length == 2 {
      TwoChars(b, i, mark);
      hide MarkAt;
    } else {
      assert b[i..i + 1] == [b[i]];
      assert mark[0] == b[i];
    }
  }

  /** And what it finds is a mark. */
  lemma {:induction false} FoundIsMark(b: string, i: nat)
    requires i < |b| && Punctuation(b[i], NextChar(b, i)).Some?
    ensures var m := Punctuation(b[i], NextChar(b, i)).value; (m.1 == 1 || m.1 == 2) && IsMark(b, i, m.0, m.1)
  {
    var m := Punctuation(b[i], NextChar(b, i)).value;
    assert m.1 == 1 || m.1 == 2;
    var mark := MarkText(m.0).value;
    assert |mark| == m.1;
    if m.1 == 2 {
      TwoChars(b, i, mark);
    } else {
      assert b[i..i + 1] == [b[i]] && mark == [mark[0]];
    }
  }

  lemma {:induction false} MarkIff(b: string, i: nat, p: Piece)
    requires i < |b|
    ensures MarkShape(b, i, p) <==> p == match Punctuation(b[i], NextChar(b, i))
      case Some(m) => Piece(m.0, i + m.1, [])
      case None => Piece(Error, i + 1, [Mistake("E0102", i + 1)])
  {
    hide IsMark, Punctuation;
    forall kind, length: nat | IsMark(b, i, kind, length)
      ensures length == 2 ==> Punctuation(b[i], NextChar(b, i)) == Some((kind, 2))
      ensures length == 1 ==> OneOrLonger(Punctuation(b[i], NextChar(b, i)), kind)
    {
      MarkFound(b, i, kind, length);
    }
    if Punctuation(b[i], NextChar(b, i)).Some? {
      FoundIsMark(b, i);
    }
  }

  // ----- tokens -----

  lemma {:induction false} PastIs(b: string, i: nat)
    requires i < |b|
    ensures Past(b, i) == After(b, i)
  {}

  /** The lexer yields for each place exactly what the text shows there: the token's kind and end with its
      mistakes, blank space, or the read past the end. */
  lemma {:induction false} PieceIff(b: string, i: nat, p: Piece)
    requires i < |b|
    ensures PieceAt(b, i) == p <==> Shape(b, i, p)
  {
    hide IdentPiece, IntPiece, StringPiece, BytePiece, BlockCommentPiece, Punctuation, SkipLine, WordShape, NumberShape, StringShape, ByteShape,
      LineCommentShape, BlockCommentShape, MarkShape, MarkAt, IsIdentStart, Letter;
    var c := b[i];
    WordChars(c);
    TwoChars(b, i, "//");
    TwoChars(b, i, "/*");
    PastIs(b, i);
    if c == ' ' || c == '\t' || c == '\n' || c == '\r' {
    } else if Letter(c) {
      WordIff(b, i, p);
    } else if '0' <= c <= '9' {
      NumberIff(b, i, p);
    } else if c == '"' {
      StringIff(b, i, p);
    } else if c == '\'' {
      ByteIff(b, i, p);
    } else if MarkAt(b, i, "//") {
      LineCommentIff(b, i, p);
    } else if MarkAt(b, i, "/*") {
      BlockCommentIff(b, i, p);
    } else {
      MarkIff(b, i, p);
    }
  }

  // ----- whole texts -----

  predicate LineEndAt(b: string, k: nat)
    requires k < |b|
  {
    b[k] == '\n' || (b[k] == '\r' && !(k + 1 < |b| && b[k + 1] == '\n'))
  }

  /** The line of a place is one more than the line ends before it. */
  lemma {:induction false} LineCounts(b: string, i: nat)
    requires i <= |b|
    ensures PosOf(b, i).byte == i && PosOf(b, i).line == 1 + |set k | 0 <= k < i && LineEndAt(b, k)|
    decreases i
  {
    hide ColumnOf;
    if i > 0 {
      LineCounts(b, i - 1);
      var before, all := set k | 0 <= k < i - 1 && LineEndAt(b, k), set k | 0 <= k < i && LineEndAt(b, k);
      if LineEndAt(b, i - 1) {
        assert all == before + {i - 1};
      } else {
        assert all == before;
      }
    }
  }

  /** Its column counts from the last of them, or from the start of the text. */
  lemma {:induction false} ColumnCounts(b: string, i: nat, first: nat)
    requires first <= i <= |b| && (first > 0 ==> LineEndAt(b, first - 1))
    requires forall k :: first <= k < i ==> !LineEndAt(b, k)
    ensures PosOf(b, i).column == 1 + i - first
    decreases i
  {
    hide LineOf;
    if i > first {
      assert !LineEndAt(b, i - 1);
      ColumnCounts(b, i - 1, first);
    }
  }

  ghost predicate BlankTo(b: string, i: nat, j: nat) {
    i <= j <= |b| && forall k :: i <= k < j ==> b[k] == ' ' || b[k] == '\t'
  }

  /** A token with its text and place, and its diagnostics, each reaching from its start to the mistake. */
  ghost predicate Reported(b: string, i: nat, p: Piece, t: Token, ds: seq<Diagnostic>)
    requires i <= |b|
  {
    && p.Piece? && i <= p.end <= |b|
    && t == Token(p.kind, if p.kind == Newline then "\n" else b[i..p.end], Span(PosOf(b, i), PosOf(b, p.end)))
    && |ds| == |p.mistakes|
    && forall k :: 0 <= k < |ds| ==>
      p.mistakes[k].end <= |b| && ds[k] == Diagnostic(p.mistakes[k].code, Span(PosOf(b, i), PosOf(b, p.mistakes[k].end)))
  }

  /** The text from a place on is that row of tokens, with blanks before each of them, and the end of the file. */
  ghost predicate Scans(b: string, i: nat, ts: seq<Token>, ds: seq<Diagnostic>)
    decreases |ts|
  {
    if |ts| <= 1 then BlankTo(b, i, |b|) && ts == [Token(Eof, "", Span(PosOf(b, |b|), PosOf(b, |b|)))] && ds == []
    else
      exists start: nat, p: Piece, n: nat ::
        && BlankTo(b, i, start) && start < |b| && Shape(b, start, p) && n <= |ds|
        && Reported(b, start, p, ts[0], ds[..n]) && Scans(b, p.end, ts[1..], ds[n..])
  }

  lemma {:induction false} BlanksSkipped(b: string, i: nat, start: nat)
    requires BlankTo(b, i, start)
    ensures LexFrom(b, i) == LexFrom(b, start)
    decreases start - i
  {
    hide LexFrom;
    if i < start {
      BlankStep(b, i);
      BlanksSkipped(b, i + 1, start);
    }
  }

  lemma {:induction false} BlankStep(b: string, i: nat)
    requires i < |b| && (b[i] == ' ' || b[i] == '\t')
    ensures LexFrom(b, i) == LexFrom(b, i + 1)
  {}

  lemma {:induction false} LexStep(b: string, i: nat, p: Piece)
    requires i < |b| && PieceAt(b, i) == p && p.Piece?
    ensures LexFrom(b, i) == match LexFrom(b, p.end)
      case Crashed => Crashed
      case Lexed(ts, ds) => Lexed([TokenOf(b, p.kind, i, p.end)] + ts, DiagnosticsOf(b, i, p.mistakes) + ds)
    ensures Reported(b, i, p, TokenOf(b, p.kind, i, p.end), DiagnosticsOf(b, i, p.mistakes))
    ensures forall t, ds :: Reported(b, i, p, t, ds) ==> t == TokenOf(b, p.kind, i, p.end) && ds == DiagnosticsOf(b, i, p.mistakes)
  {
    hide PieceAt, LexFrom, LineOf, ColumnOf;
    LexUnfolds(b, i);
  }

  lemma {:induction false} LexUnfolds(b: string, i: nat)
    requires i < |b| && PieceAt(b, i).Piece?
    ensures var p := PieceAt(b, i); LexFrom(b, i) == match LexFrom(b, p.end)
      case Crashed => Crashed
      case Lexed(ts, ds) => Lexed([TokenOf(b, p.kind, i, p.end)] + ts, DiagnosticsOf(b, i, p.mistakes) + ds)
  {
    hide PieceAt;
  }

  lemma {:induction false} ScansLex(b: string, i: nat, ts: seq<Token>, ds: seq<Diagnostic>)
    requires i <= |b| && Scans(b, i, ts, ds)
    ensures LexFrom(b, i) == Lexed(ts, ds)
    decreases |ts|
  {
    hide PieceAt, Shape, LexFrom, Reported, PosOf, BlankTo;
    if |ts| <= 1 {
      BlanksSkipped(b, i, |b|);
      LexEnds(b);
    } else {
      var start, p, n := ScansParts(b, i, ts, ds);
      BlanksSkipped(b, i, start);
      PieceIff(b, start, p);
      LexStep(b, start, p);
      ScansLex(b, p.end, ts[1..], ds[n..]);
      assert ts == [ts[0]] + ts[1..] && ds == ds[..n] + ds[n..];
    }
  }

  lemma {:induction false} ScansParts(b: string, i: nat, ts: seq<Token>, ds: seq<Diagnostic>) returns (start: nat, p: Piece, n: nat)
    requires |ts| > 1 && Scans(b, i, ts, ds)
    ensures BlankTo(b, i, start) && start < |b| && Shape(b, start, p) && n <= |ds| && p.Piece? && start <= p.end <= |b|
    ensures Reported(b, start, p, ts[0], ds[..n]) && Scans(b, p.end, ts[1..], ds[n..])
  {
    hide PosOf, Shape, BlankTo;
    start, p, n :| BlankTo(b, i, start) && start < |b| && Shape(b, start, p) && n <= |ds|
      && Reported(b, start, p, ts[0], ds[..n]) && Scans(b, p.end, ts[1..], ds[n..]);
  }

  lemma {:induction false} LexEnds(b: string)
    ensures LexFrom(b, |b|) == Lexed([Token(Eof, "", Span(PosOf(b, |b|), PosOf(b, |b|)))], [])
  {
    hide LineOf, ColumnOf;
    assert b[|b|..|b|] == "";
  }

  lemma {:induction false} LexScans(b: string, i: nat)
    requires i <= |b| && LexFrom(b, i).Lexed?
    ensures Scans(b, i, LexFrom(b, i).tokens, LexFrom(b, i).diagnostics)
    decreases |b| - i
  {
    hide PieceAt, Shape, LexFrom, Reported, PosOf, Scans, TokenOf, DiagnosticsOf;
    var start := NextToken(b, i);
    BlanksSkipped(b, i, start);
    if start == |b| {
      LexEnds(b);
      ScansEnd(b, i);
    } else {
      var p := PieceAt(b, start);
      PieceIff(b, start, p);
      Overruns(b, start);
      LexStep(b, start, p);
      LexScans(b, p.end);
      ScansStep(b, i, start, p, TokenOf(b, p.kind, start, p.end), DiagnosticsOf(b, start, p.mistakes),
                LexFrom(b, p.end).tokens, LexFrom(b, p.end).diagnostics);
    }
  }

  lemma {:induction false} Overruns(b: string, i: nat)
    requires i < |b| && LexFrom(b, i).Lexed? && !PieceAt(b, i).Blank?
    ensures PieceAt(b, i).Piece? && LexFrom(b, PieceAt(b, i).end).Lexed?
  {
    hide PieceAt;
  }

  lemma {:induction false} ScansEnd(b: string, i: nat)
    requires BlankTo(b, i, |b|)
    ensures Scans(b, i, [Token(Eof, "", Span(PosOf(b, |b|), PosOf(b, |b|)))], [])
  {
    hide PosOf, Shape, Reported;
  }

  lemma {:induction false} ScansStep(b: string, i: nat, start: nat, p: Piece, t: Token, ds: seq<Diagnostic>, ts: seq<Token>, more: seq<Diagnostic>)
    requires BlankTo(b, i, start) && start < |b| && Shape(b, start, p) && Reported(b, start, p, t, ds) && p.Piece? && Scans(b, p.end, ts, more)
    ensures Scans(b, i, [t] + ts, ds + more)
  {
    hide PosOf, Shape, Reported, BlankTo;
    ScansSome(b, p.end, ts, more);
    var all, notes := [t] + ts, ds + more;
    assert all[0] == t && all[1..] == ts && notes[..|ds|] == ds && notes[|ds|..] == more;
  }

  lemma {:induction false} ScansSome(b: string, i: nat, ts: seq<Token>, ds: seq<Diagnostic>)
    requires Scans(b, i, ts, ds)
    ensures ts != []
  {
    hide PosOf, Shape, Reported;
  }

  /** The first place from here that is not blank. */
  lemma {:induction false} NextToken(b: string, i: nat) returns (start: nat)
    requires i <= |b|
    ensures BlankTo(b, i, start) && (start < |b| ==> !PieceAt(b, start).Blank?)
    decreases |b| - i
  {
    if i == |b| || !(b[i] == ' ' || b[i] == '\t') {
      start := i;
      if i < |b| {
        NotBlank(b, i);
      }
    } else {
      start := NextToken(b, i + 1);
    }
  }

  lemma {:induction false} NotBlank(b: string, i: nat)
    requires i < |b| && b[i] != ' ' && b[i] != '\t'
    ensures !PieceAt(b, i).Blank?
  {
    hide SkipIdent, KeywordKind, ScanInt, SkipByteLit, SkipBlockComment, ScanString, Punctuation, SkipLine;
  }

  /** The tokens and diagnostics of a text are what the text shows, and nothing else is. */
  lemma {:induction false} LexIff(b: string, ts: seq<Token>, ds: seq<Diagnostic>)
    ensures Lex(b) == Lexed(ts, ds) <==> Scans(b, 0, ts, ds)
  {
    hide LexFrom, Scans;
    if Lex(b) == Lexed(ts, ds) {
      LexScans(b, 0);
    }
    if Scans(b, 0, ts, ds) {
      ScansLex(b, 0, ts, ds);
    }
  }
}
