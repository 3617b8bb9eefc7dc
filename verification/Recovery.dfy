/** What the parser reports about items that are none, and where it goes on after them. */
module Recovery {
  import opened Ast
  import opened Tokens
  import opened Parsing
  import opened SourceGrammar
  import Derivations
  import RoundTrip

  /** What is heard of the diagnostics: the first 100, and one more that says there were others. */
  function Heard(codes: seq<string>): seq<string> {
    if |codes| <= 100 then codes else codes[..100] + ["E9999"]
  }

  /** The parser at a token, with what it reported. */
  function Place(i: nat, codes: seq<string>): St {
    St(i, Heard(codes))
  }

  lemma {:induction false} ReportHeard(i: nat, codes: seq<string>, code: string)
    ensures Report(Place(i, codes), code) == Place(i, codes + [code])
  {
    if |codes| > 100 {
      assert (codes + [code])[..100] == codes[..100];
    } else if |codes| == 100 {
      assert (codes + [code])[..100] == codes;
    }
  }

  // ----- what goes wrong -----

  /** The nearest `fn`, `use` or end of file. */
  ghost predicate NextItem(ts: seq<Token>, i: nat, j: nat) {
    && i <= j < |ts| && (Is(ts, j, KwFn) || Is(ts, j, KwUse) || Is(ts, j, Eof))
    && forall k :: i <= k < j ==> ts[k].kind != KwFn && ts[k].kind != KwUse && ts[k].kind != Eof
  }

  predicate StartsStatement(kind: TokenKind) {
    kind == KwLet || kind == KwMut || kind == KwIf || kind == KwLoop || kind == KwWhile || kind == KwRet
  }

  /** The nearest end of a line or block, `fn`, or keyword of a statement. */
  ghost predicate NextStatement(ts: seq<Token>, i: nat, j: nat) {
    && i <= j < |ts| && (EndsLine(ts[j].kind) || StartsStatement(ts[j].kind) || Is(ts, j, KwFn))
    && forall k :: i <= k < j ==> !EndsLine(ts[k].kind) && !StartsStatement(ts[k].kind) && ts[k].kind != KwFn
  }

  /** A token that no item starts with. */
  ghost predicate StrayAt(ts: seq<Token>, i: nat, j: nat, codes: seq<string>) {
    && i + 1 == j < |ts| && ts[i].kind !in {KwUse, KwFn, KwUnsafe, Eof, Newline, Comment}
    && codes == [if ts[i].kind == KwEnd then "E0204" else if ts[i].kind == KwElse then "E0205" else "E0206"]
  }

  /** A `use` of nothing. */
  ghost predicate NoPathAt(ts: seq<Token>, i: nat, j: nat, codes: seq<string>) {
    Is(ts, i, KwUse) && i + 1 == j < |ts| && !Is(ts, j, TokenKind.Ident) && codes == ["E0206"]
  }

  /** What a function starts with, up to its name. */
  ghost predicate HeadAt(ts: seq<Token>, i: nat, h: nat, isUnsafe: bool) {
    && h < |ts|
    && if isUnsafe then Is(ts, i, KwUnsafe) && Is(ts, i + 1, KwFn) && h == i + 2 else Is(ts, i, KwFn) && h == i + 1
  }

  ghost predicate NamelessAt(ts: seq<Token>, h: nat, j: nat, codes: seq<string>) {
    h < |ts| && !Is(ts, h, TokenKind.Ident) && NextItem(ts, h, j) && codes == ["E0206", "E0201"]
  }

  ghost predicate ParamRow(ts: seq<Token>, i: nat, j: nat, params: seq<Param>)
    decreases params
  {
    if params == [] then i == j < |ts|
    else
      && Is(ts, i, TokenKind.Ident) && ts[i].lexeme == params[0].name
      && exists k: nat :: TypeAt(ts, i + 1, k, params[0].ty) && ParamRow(ts, k, j, params[1..])
  }

  /** No type: j is the token that should be its name. */
  ghost predicate NoTypeAt(ts: seq<Token>, i: nat, j: nat) {
    && j < |ts| && !Is(ts, j, TokenKind.Ident)
    && if Is(ts, i, Star) then j == i + 1 else j == i
  }

  /** The line ends before the arrow. */
  ghost predicate NoArrowAt(ts: seq<Token>, m: nat, j: nat, codes: seq<string>) {
    (Is(ts, m, Newline) || Is(ts, m, Eof)) && NextItem(ts, m, j) && codes == ["E0206", "E0202"]
  }

  ghost predicate NoReturnAt(ts: seq<Token>, m: nat, j: nat, codes: seq<string>) {
    Is(ts, m, Arrow) && (exists k: nat :: NoTypeAt(ts, m + 1, k) && NextItem(ts, k, j)) && codes == ["E0206", "E0202"]
  }

  /** A parameter that is none, or has no type: the token after which the parser looks for a statement. */
  ghost predicate BadParamAt(ts: seq<Token>, m: nat, k: nat) {
    || (k == m < |ts| && ts[m].kind !in {TokenKind.Ident, Arrow, Newline, Eof})
    || (Is(ts, m, TokenKind.Ident) && NoTypeAt(ts, m + 1, k))
  }

  ghost predicate NoParamAt(ts: seq<Token>, m: nat, j: nat, codes: seq<string>) {
    && (exists k: nat, x: nat :: BadParamAt(ts, m, k) && NextStatement(ts, k, x) && NextItem(ts, x, j))
    && codes == ["E0206", "E0206", "E0206", "E0202"]
  }

  /** A function without a name, or one whose name and first parameters are followed by something else. */
  ghost predicate NoFnAt(ts: seq<Token>, i: nat, j: nat, codes: seq<string>) {
    exists h: nat, isUnsafe: bool :: HeadAt(ts, i, h, isUnsafe) && (NamelessAt(ts, h, j, codes) || BrokenAt(ts, h, j, codes))
  }

  ghost predicate BrokenAt(ts: seq<Token>, h: nat, j: nat, codes: seq<string>) {
    Is(ts, h, TokenKind.Ident) && BrokenAfter(ts, h + 1, j, codes)
  }

  /** Parameters, and then no arrow with a type after it. */
  ghost predicate BrokenAfter(ts: seq<Token>, i: nat, j: nat, codes: seq<string>) {
    exists m: nat, params: seq<Param> :: ParamRow(ts, i, m, params) && SignatureStops(ts, m, j, codes)
  }

  ghost predicate SignatureStops(ts: seq<Token>, m: nat, j: nat, codes: seq<string>) {
    NoArrowAt(ts, m, j, codes) || NoReturnAt(ts, m, j, codes) || NoParamAt(ts, m, j, codes)
  }

  /** A function whose statements end at something other than `end`. */
  ghost predicate UnendedAt(ts: seq<Token>, i: nat, j: nat, f: FnDecl) {
    exists h: nat :: HeadAt(ts, i, h, f.isUnsafe) && Is(ts, h, TokenKind.Ident) && ts[h].lexeme == f.name && OpenAt(ts, h + 1, j, f)
  }

  /** From the parameters on. */
  ghost predicate OpenAt(ts: seq<Token>, i: nat, j: nat, f: FnDecl) {
    exists k: nat, m: nat, q: nat ::
      ParamsAt(ts, i, k, f.params) && TypeAt(ts, k + 1, m, f.ret) && Spaces(ts, m, q) && BlockAt(ts, q, j, f.body) && !Is(ts, j, KwEnd)
  }

  // ----- whole files -----

  /** What one turn of the parser makes of its tokens. */
  datatype Turn = Turn(item: Option<Item>, codes: seq<string>)

  ghost predicate MistakeAt(ts: seq<Token>, i: nat, j: nat, codes: seq<string>) {
    StrayAt(ts, i, j, codes) || NoPathAt(ts, i, j, codes) || NoFnAt(ts, i, j, codes)
  }

  /** An item, a mistake with the spaces after it, or a function that is not ended. */
  ghost predicate TurnAt(ts: seq<Token>, i: nat, j: nat, turn: Turn) {
    match turn.item
    case Some(item) =>
      if turn.codes == [] then ItemAt(ts, i, j, item)
      else item.Fn? && UnendedAt(ts, i, j, item.decl) && turn.codes == ["E0206", "E0203"]
    case None => exists m: nat :: MistakeAt(ts, i, m, turn.codes) && Spaces(ts, m, j)
  }

  ghost predicate TurnsAt(ts: seq<Token>, i: nat, turns: seq<Turn>)
    decreases turns
  {
    if turns == [] then Is(ts, i, Eof) else exists j: nat :: TurnAt(ts, i, j, turns[0]) && TurnsAt(ts, j, turns[1..])
  }

  function Items(turns: seq<Turn>): seq<Item> {
    if turns == [] then []
    else (match turns[0].item case Some(item) => [item] case None => []) + Items(turns[1..])
  }

  function Codes(turns: seq<Turn>): seq<string> {
    if turns == [] then [] else turns[0].codes + Codes(turns[1..])
  }

  // ----- looking for the next item -----

  lemma {:induction false} ItemFound(ts: seq<Token>, i: nat, j: nat, errs: seq<string>)
    requires Stream(ts) && NextItem(ts, i, j)
    ensures SyncItem(ts, St(i, errs)) == St(j, errs)
    decreases j - i
  {
    if i < j {
      ItemFound(ts, i + 1, j, errs);
    }
  }

  lemma {:induction false} StatementFound(ts: seq<Token>, i: nat, j: nat, errs: seq<string>)
    requires Stream(ts) && NextStatement(ts, i, j)
    ensures SyncStatement(ts, St(i, errs)) == St(j, errs)
    decreases j - i
  {
    hide SyncStatement, EndsLine, StartsStatement, StopsStatement;
    StopIs(ts[i].kind);
    SyncStep(ts, i, errs);
    if i < j {
      StatementFound(ts, i + 1, j, errs);
    }
  }

  lemma {:induction false} StopIs(kind: TokenKind)
    ensures StopsStatement(kind) <==> EndsLine(kind) || StartsStatement(kind) || kind == KwFn
    ensures kind == Eof ==> StopsStatement(kind)
  {}

  lemma {:induction false} SyncStep(ts: seq<Token>, i: nat, errs: seq<string>)
    requires Stream(ts) && i < |ts|
    ensures StopsStatement(ts[i].kind) ==> SyncStatement(ts, St(i, errs)) == St(i, errs)
    ensures !StopsStatement(ts[i].kind) ==> i + 1 < |ts| && SyncStatement(ts, St(i, errs)) == SyncStatement(ts, St(i + 1, errs))
  {}

  lemma {:induction false} GivesUp(ts: seq<Token>, i: nat, j: nat, codes: seq<string>, code: string)
    requires Stream(ts) && NextItem(ts, i, j)
    ensures GiveUp(ts, Place(i, codes), code) == ItemResult(None, Place(j, codes + [code]))
  {
    hide SyncItem, Report, NextItem, Heard;
    ReportHeard(i, codes, code);
    ItemFound(ts, i, j, Heard(codes + [code]));
  }

  lemma {:induction false} Missed(ts: seq<Token>, i: nat, codes: seq<string>, kind: TokenKind)
    requires Stream(ts) && i < |ts| && ts[i].kind != kind
    ensures Expect(ts, Place(i, codes), kind) == Expected(false, Place(i, codes + ["E0206"]))
  {
    hide Report, Heard;
    ReportHeard(i, codes, "E0206");
  }

  lemma {:induction false} NoType(ts: seq<Token>, i: nat, j: nat, codes: seq<string>)
    requires Stream(ts) && NoTypeAt(ts, i, j) && i < |ts|
    ensures ParseTypeRef(ts, Place(i, codes)) == TypeResult(None, Place(j, codes + ["E0206"]))
  {
    hide Expect, Heard;
    Missed(ts, j, codes, TokenKind.Ident);
  }

  // ----- functions that are none -----

  lemma {:induction false} HeadParsed(ts: seq<Token>, i: nat, h: nat, isUnsafe: bool, errs: seq<string>)
    requires Stream(ts) && HeadAt(ts, i, h, isUnsafe)
    ensures i < h < |ts| && !IsSpace(ts[i].kind) && ts[i].kind != Eof
    ensures ParseFnItem(ts, St(i, errs)) == ParseNamedFn(ts, St(h, errs), isUnsafe)
    ensures var r := ParseNamedFn(ts, St(h, errs), isUnsafe);
      ItemStep(ts, St(i, errs)) == ItemResult(r.item, Skip(ts, r.s))
  {
    hide ParseNamedFn, Skip, ItemStep;
    RoundTrip.ItemDispatch(ts, St(i, errs));
  }

  lemma {:induction false} Nameless(ts: seq<Token>, h: nat, j: nat, isUnsafe: bool, codes: seq<string>, more: seq<string>)
    requires Stream(ts) && NamelessAt(ts, h, j, more)
    ensures ParseNamedFn(ts, Place(h, codes), isUnsafe) == ItemResult(None, Place(j, codes + more))
  {
    hide NextItem, Expect, GiveUp, ParseParams, ParseFnRest, Heard;
    Missed(ts, h, codes, TokenKind.Ident);
    GivesUp(ts, h, j, codes + ["E0206"], "E0201");
    assert codes + more == codes + ["E0206"] + ["E0201"];
  }

  lemma {:induction false} RowParsed(ts: seq<Token>, i: nat, j: nat, errs: seq<string>, params: seq<Param>)
    requires Stream(ts) && ParamRow(ts, i, j, params)
    ensures i <= j < |ts|
    ensures var rest := ParseParams(ts, St(j, errs)); ParseParams(ts, St(i, errs)) == ParamsResult(params + rest.params, rest.s)
    decreases params
  {
    hide TypeAt, ParseParams, ParseTypeRef;
    if params != [] {
      var k: nat :| TypeAt(ts, i + 1, k, params[0].ty) && ParamRow(ts, k, j, params[1..]);
      Derivations.TypeParsed(ts, i + 1, k, errs, params[0].ty);
      RowParsed(ts, k, j, errs, params[1..]);
      RoundTrip.ParamStep(ts, i, errs, params[0].ty, k);
      assert params == [params[0]] + params[1..];
    }
  }

  lemma {:induction false} RowEnds(ts: seq<Token>, m: nat, errs: seq<string>)
    requires Stream(ts) && (Is(ts, m, Newline) || Is(ts, m, Eof) || Is(ts, m, Arrow))
    ensures ParseParams(ts, St(m, errs)) == ParamsResult([], St(m, errs))
  {}

  /** From the name on, after the parameters. */
  lemma {:induction false} NamedStep(ts: seq<Token>, h: nat, isUnsafe: bool, errs: seq<string>, params: seq<Param>, s: St)
    requires Stream(ts) && Is(ts, h, TokenKind.Ident) && h + 1 < |ts| && On(ts, s) && ParseParams(ts, St(h + 1, errs)) == ParamsResult(params, s)
    ensures Kind(ts, s) != Arrow ==> ParseNamedFn(ts, St(h, errs), isUnsafe) == GiveUp(ts, Expect(ts, s, Arrow).s, "E0202")
    ensures Kind(ts, s) == Arrow ==> (
      s.i + 1 < |ts| && ParseNamedFn(ts, St(h, errs), isUnsafe) == ParseFnRest(ts, St(s.i + 1, s.errs), ts[h].lexeme, params, isUnsafe))
  {
    hide ParseParams, ParseFnRest, GiveUp;
  }

  lemma {:induction false} NoArrow(ts: seq<Token>, m: nat, j: nat, codes: seq<string>)
    requires Stream(ts) && m < |ts| && ts[m].kind != Arrow && NextItem(ts, m, j)
    ensures GiveUp(ts, Expect(ts, Place(m, codes), Arrow).s, "E0202") == ItemResult(None, Place(j, codes + ["E0206", "E0202"]))
  {
    hide NextItem, Expect, GiveUp, Heard;
    Missed(ts, m, codes, Arrow);
    GivesUp(ts, m, j, codes + ["E0206"], "E0202");
    assert codes + ["E0206", "E0202"] == codes + ["E0206"] + ["E0202"];
  }

  lemma {:induction false} NoReturn(ts: seq<Token>, i: nat, j: nat, name: string, params: seq<Param>, isUnsafe: bool, codes: seq<string>)
    requires Stream(ts) && i < |ts| && exists k: nat :: NoTypeAt(ts, i, k) && NextItem(ts, k, j)
    ensures ParseFnRest(ts, Place(i, codes), name, params, isUnsafe) == ItemResult(None, Place(j, codes + ["E0206", "E0202"]))
  {
    hide NextItem, NoTypeAt, GiveUp, Heard, ParseTypeRef, ParseBlock, EndBlock, Skip;
    var k: nat :| NoTypeAt(ts, i, k) && NextItem(ts, k, j);
    NoType(ts, i, k, codes);
    TypeMissing(ts, i, k);
    GivesUp(ts, k, j, codes + ["E0206"], "E0202");
    assert codes + ["E0206", "E0202"] == codes + ["E0206"] + ["E0202"];
  }

  lemma {:induction false} TypeMissing(ts: seq<Token>, i: nat, j: nat)
    requires NoTypeAt(ts, i, j)
    ensures j < |ts|
  {}

  /** The two reports of a parameter that is none, and where the parser is then. */
  lemma {:induction false} NoParam(ts: seq<Token>, m: nat, k: nat, x: nat, codes: seq<string>)
    requires Stream(ts) && BadParamAt(ts, m, k) && NextStatement(ts, k, x)
    ensures m < |ts| && ParseParams(ts, Place(m, codes)) == ParamsResult([], Place(x, codes + ["E0206", "E0206"]))
  {
    hide NoTypeAt, NextStatement, Heard, SyncStatement, ParseTypeRef, Report;
    ReportHeard(k, codes + ["E0206"], "E0206");
    assert codes + ["E0206", "E0206"] == codes + ["E0206"] + ["E0206"];
    StatementFound(ts, k, x, Heard(codes + ["E0206", "E0206"]));
    if Is(ts, m, TokenKind.Ident) {
      Derivations.More(ts, m, TokenKind.Ident);
      NoType(ts, m + 1, k, codes);
    } else {
      Missed(ts, m, codes, TokenKind.Ident);
    }
  }

  lemma {:induction false} StatementIsNoArrow(ts: seq<Token>, i: nat, j: nat)
    requires NextStatement(ts, i, j)
    ensures j < |ts| && ts[j].kind != Arrow
  {}

  lemma {:induction false} Signature(ts: seq<Token>, h: nat, m: nat, params: seq<Param>, j: nat, isUnsafe: bool, codes: seq<string>, more: seq<string>)
    requires Stream(ts) && Is(ts, h, TokenKind.Ident) && ParamRow(ts, h + 1, m, params) && SignatureStops(ts, m, j, more)
    ensures ParseNamedFn(ts, Place(h, codes), isUnsafe) == ItemResult(None, Place(j, codes + more))
  {
    hide ParamRow, NextItem, NextStatement, BadParamAt, NoTypeAt, ParseNamedFn, ParseParams, ParseFnRest, GiveUp, Heard, Expect;
    Derivations.More(ts, h, TokenKind.Ident);
    RowParsed(ts, h + 1, m, Heard(codes), params);
    if NoParamAt(ts, m, j, more) {
      var k: nat, x: nat :| BadParamAt(ts, m, k) && NextStatement(ts, k, x) && NextItem(ts, x, j);
      NoParam(ts, m, k, x, codes);
      StatementIsNoArrow(ts, k, x);
      var two := codes + ["E0206", "E0206"];
      NamedStep(ts, h, isUnsafe, Heard(codes), params + [], Place(x, two));
      NoArrow(ts, x, j, two);
      assert codes + more == two + ["E0206", "E0202"];
    } else {
      RowEnds(ts, m, Heard(codes));
      NamedStep(ts, h, isUnsafe, Heard(codes), params + [], Place(m, codes));
      if NoArrowAt(ts, m, j, more) {
        NoArrow(ts, m, j, codes);
      } else {
        NoReturn(ts, m + 1, j, ts[h].lexeme, params + [], isUnsafe, codes);
      }
    }
  }

  lemma {:induction false} NoFn(ts: seq<Token>, i: nat, j: nat, codes: seq<string>, more: seq<string>)
    requires Stream(ts) && NoFnAt(ts, i, j, more)
    ensures i < j < |ts| && !IsSpace(ts[i].kind) && ts[i].kind != Eof
    ensures ItemStep(ts, Place(i, codes)) == ItemResult(None, Skip(ts, Place(j, codes + more)))
  {
    hide HeadAt, NamelessAt, ParamRow, SignatureStops, ParseNamedFn, ParseFnItem, ItemStep, Skip, Heard;
    var h: nat, isUnsafe: bool :| HeadAt(ts, i, h, isUnsafe) && (NamelessAt(ts, h, j, more) || BrokenAt(ts, h, j, more));
    HeadParsed(ts, i, h, isUnsafe, Heard(codes));
    if NamelessAt(ts, h, j, more) {
      Nameless(ts, h, j, isUnsafe, codes, more);
      NamelessEnds(ts, h, j, more);
    } else {
      var m: nat, params: seq<Param> :| ParamRow(ts, h + 1, m, params) && SignatureStops(ts, m, j, more);
      Signature(ts, h, m, params, j, isUnsafe, codes, more);
      RowParsed(ts, h + 1, m, [], params);
      SignatureEnds(ts, m, j, more);
    }
  }

  lemma {:induction false} NamelessEnds(ts: seq<Token>, h: nat, j: nat, codes: seq<string>)
    requires NamelessAt(ts, h, j, codes)
    ensures h <= j < |ts|
  {}

  lemma {:induction false} SignatureEnds(ts: seq<Token>, m: nat, j: nat, codes: seq<string>)
    requires SignatureStops(ts, m, j, codes)
    ensures m <= j < |ts|
  {}

  // ----- the other mistakes -----

  lemma {:induction false} StrayStep(ts: seq<Token>, s: St, code: string)
    requires On(ts, s) && s.i + 1 < |ts| && Kind(ts, s) != KwUse && Kind(ts, s) != KwFn && Kind(ts, s) != KwUnsafe
    requires code == if Kind(ts, s) == KwEnd then "E0204" else if Kind(ts, s) == KwElse then "E0205" else "E0206"
    ensures ItemStep(ts, s) == ItemResult(None, Skip(ts, Report(St(s.i + 1, s.errs), code)))
  {
    hide Skip, Report, ParseUse, ParseFnItem;
  }

  lemma {:induction false} StrayEnds(ts: seq<Token>, i: nat, j: nat, codes: seq<string>) returns (code: string)
    requires StrayAt(ts, i, j, codes)
    ensures i + 1 == j < |ts| && ts[i].kind !in {KwUse, KwFn, KwUnsafe, Eof} && codes == [code]
    ensures code == if ts[i].kind == KwEnd then "E0204" else if ts[i].kind == KwElse then "E0205" else "E0206"
  {
    code := codes[0];
  }

  lemma {:induction false} Stray(ts: seq<Token>, i: nat, j: nat, codes: seq<string>, more: seq<string>)
    requires Stream(ts) && StrayAt(ts, i, j, more)
    ensures ItemStep(ts, Place(i, codes)) == ItemResult(None, Skip(ts, Place(j, codes + more)))
  {
    hide Skip, Heard, Report, ItemStep, StrayAt;
    var code := StrayEnds(ts, i, j, more);
    StrayStep(ts, Place(i, codes), code);
    ReportHeard(j, codes, code);
  }

  lemma {:induction false} NoPathStep(ts: seq<Token>, s: St)
    requires On(ts, s) && Kind(ts, s) == KwUse && s.i + 1 < |ts| && ts[s.i + 1].kind != TokenKind.Ident
    ensures ParseUse(ts, s) == ItemResult(None, Expect(ts, St(s.i + 1, s.errs), TokenKind.Ident).s)
  {
    hide PathRest, Skip, Report;
  }

  lemma {:induction false} NoPath(ts: seq<Token>, i: nat, j: nat, codes: seq<string>, more: seq<string>)
    requires Stream(ts) && NoPathAt(ts, i, j, more)
    ensures ItemStep(ts, Place(i, codes)) == ItemResult(None, Skip(ts, Place(j, codes + more)))
  {
    hide Skip, Heard, Expect, ItemStep, ParseUse;
    RoundTrip.ItemDispatch(ts, Place(i, codes));
    NoPathStep(ts, Place(i, codes));
    Missed(ts, j, codes, TokenKind.Ident);
  }

  lemma {:induction false} Mistake(ts: seq<Token>, i: nat, m: nat, j: nat, codes: seq<string>, more: seq<string>)
    requires Stream(ts) && MistakeAt(ts, i, m, more) && Spaces(ts, m, j)
    ensures i < j < |ts| && !IsSpace(ts[j].kind) && ts[i].kind != Eof && !IsSpace(ts[i].kind)
    ensures ItemStep(ts, Place(i, codes)) == ItemResult(None, Place(j, codes + more))
  {
    hide NoFnAt, Spaces, Skip, Heard, ItemStep;
    Derivations.SpacesSkipped(ts, m, j, Heard(codes + more));
    Derivations.SpacesEnd(ts, m, j);
    if NoFnAt(ts, i, m, more) {
      NoFn(ts, i, m, codes, more);
    } else if StrayAt(ts, i, m, more) {
      Stray(ts, i, m, codes, more);
    } else {
      NoPath(ts, i, m, codes, more);
    }
  }

  // ----- a function that is not ended -----

  lemma {:induction false} Unended(ts: seq<Token>, i: nat, j: nat, f: FnDecl, codes: seq<string>)
    requires Stream(ts) && UnendedAt(ts, i, j, f)
    ensures i < j < |ts| && !IsSpace(ts[j].kind) && ts[i].kind != Eof && !IsSpace(ts[i].kind)
    ensures ItemStep(ts, Place(i, codes)) == ItemResult(Some(Fn(f)), Place(j, codes + ["E0206", "E0203"]))
  {
    hide HeadAt, OpenAt, ParseNamedFn, ParseFnItem, ItemStep, Skip, Heard;
    var h: nat :| HeadAt(ts, i, h, f.isUnsafe) && Is(ts, h, TokenKind.Ident) && ts[h].lexeme == f.name && OpenAt(ts, h + 1, j, f);
    HeadParsed(ts, i, h, f.isUnsafe, Heard(codes));
    OpenParsed(ts, h, j, f, codes);
    RoundTrip.SkipNothing(ts, j, Heard(codes + ["E0206", "E0203"]));
  }

  lemma {:induction false} OpenParsed(ts: seq<Token>, h: nat, j: nat, f: FnDecl, codes: seq<string>)
    requires Stream(ts) && Is(ts, h, TokenKind.Ident) && ts[h].lexeme == f.name && OpenAt(ts, h + 1, j, f)
    ensures h < j < |ts| && !IsSpace(ts[j].kind)
    ensures ParseNamedFn(ts, Place(h, codes), f.isUnsafe) == ItemResult(Some(Fn(f)), Place(j, codes + ["E0206", "E0203"]))
  {
    hide ParamsAt, TypeAt, Spaces, BlockAt, ParseNamedFn, ParseFnRest, ParseParams, ParseTypeRef, Heard;
    var k: nat, m: nat, q: nat :|
      ParamsAt(ts, h + 1, k, f.params) && TypeAt(ts, k + 1, m, f.ret) && Spaces(ts, m, q) && BlockAt(ts, q, j, f.body) && !Is(ts, j, KwEnd);
    Derivations.ParamsParsed(ts, h + 1, k, Heard(codes), f.params);
    AfterParams(ts, h + 1, k, f.params);
    RoundTrip.NamedFnStep(ts, h, Heard(codes), f.isUnsafe, f.params, k);
    BodyParsed(ts, k + 1, m, q, j, f, codes);
  }

  lemma {:induction false} BodyParsed(ts: seq<Token>, i: nat, m: nat, q: nat, j: nat, f: FnDecl, codes: seq<string>)
    requires Stream(ts) && i < |ts| && TypeAt(ts, i, m, f.ret) && Spaces(ts, m, q) && BlockAt(ts, q, j, f.body) && !Is(ts, j, KwEnd)
    ensures i < j < |ts| && !IsSpace(ts[j].kind)
    ensures ParseFnRest(ts, Place(i, codes), f.name, f.params, f.isUnsafe) == ItemResult(Some(Fn(f)), Place(j, codes + ["E0206", "E0203"]))
  {
    hide TypeAt, Spaces, BlockAt, ParseFnRest, ParseTypeRef, BlockRest, EndBlock, Skip, Heard, EndsBlock;
    var errs := Heard(codes);
    Derivations.TypeParsed(ts, i, m, errs, f.ret);
    Derivations.SpacesSkipped(ts, m, q, errs);
    Derivations.SpacesEnd(ts, m, q);
    RoundTrip.SkipNothing(ts, q, errs);
    Derivations.BlockParsed(ts, q, j, errs, f.body);
    RoundTrip.FnRestStep(ts, i, errs, f.name, f.params, f.isUnsafe, f.ret, m);
    NoEnd(ts, j, codes);
  }

  lemma {:induction false} AfterParams(ts: seq<Token>, i: nat, j: nat, params: seq<Param>)
    requires Stream(ts) && ParamsAt(ts, i, j, params)
    ensures i <= j && j + 1 < |ts| && ts[j].kind == Arrow
    decreases params
  {
    if params != [] {
      var k: nat :| TypeAt(ts, i + 1, k, params[0].ty) && ParamsAt(ts, k, j, params[1..]);
      AfterParams(ts, k, j, params[1..]);
    }
  }

  lemma {:induction false} NoEnd(ts: seq<Token>, j: nat, codes: seq<string>)
    requires Stream(ts) && j < |ts| && EndsBlock(ts[j].kind) && !Is(ts, j, KwEnd)
    ensures EndBlock(ts, Place(j, codes)) == Place(j, codes + ["E0206", "E0203"]) && !IsSpace(ts[j].kind)
  {
    hide Expect, Skip, Heard, Report;
    Missed(ts, j, codes, KwEnd);
    ReportHeard(j, codes + ["E0206"], "E0203");
    assert codes + ["E0206", "E0203"] == codes + ["E0206"] + ["E0203"];
    RoundTrip.SkipNothing(ts, j, Heard(codes + ["E0206", "E0203"]));
  }

  // ----- all turns -----

  lemma {:induction false} TurnTaken(ts: seq<Token>, i: nat, j: nat, turn: Turn, codes: seq<string>)
    requires Stream(ts) && TurnAt(ts, i, j, turn)
    ensures i < j < |ts| && ts[i].kind != Eof
    ensures ItemStep(ts, Place(i, codes)) == ItemResult(turn.item, Place(j, codes + turn.codes))
  {
    hide ItemAt, UnendedAt, MistakeAt, Spaces, ItemStep, Heard;
    match turn.item
    case Some(item) =>
      if turn.codes == [] {
        Derivations.ItemParsed(ts, i, j, Heard(codes), item);
        assert codes + turn.codes == codes;
      } else {
        Unended(ts, i, j, item.decl, codes);
      }
    case None =>
      var m: nat :| MistakeAt(ts, i, m, turn.codes) && Spaces(ts, m, j);
      Mistake(ts, i, m, j, codes, turn.codes);
  }

  lemma {:induction false} TurnStep(ts: seq<Token>, s: St, r: ItemResult)
    requires On(ts, s) && Kind(ts, s) != Eof && ItemStep(ts, s) == r && s.i < r.s.i < |ts| && ItemsFrom(ts, r.s).Parsed?
    ensures var rest := ItemsFrom(ts, r.s);
      ItemsFrom(ts, s) == Parsed((match r.item case Some(item) => [item] case None => []) + rest.items, rest.errs)
  {
    hide ItemStep;
  }

  lemma {:induction false} TurnsTaken(ts: seq<Token>, i: nat, turns: seq<Turn>, codes: seq<string>)
    requires Stream(ts) && TurnsAt(ts, i, turns)
    ensures i < |ts| && ItemsFrom(ts, Place(i, codes)) == Parsed(Items(turns), Heard(codes + Codes(turns)))
    decreases turns
  {
    hide TurnAt, ItemsFrom, ItemStep, Heard;
    if turns == [] {
      Derivations.NoItemsParsed(ts, i, Heard(codes));
      assert codes + [] == codes;
    } else {
      var j: nat :| TurnAt(ts, i, j, turns[0]) && TurnsAt(ts, j, turns[1..]);
      TurnTaken(ts, i, j, turns[0], codes);
      TurnsTaken(ts, j, turns[1..], codes + turns[0].codes);
      TurnStep(ts, Place(i, codes), ItemResult(turns[0].item, Place(j, codes + turns[0].codes)));
      assert codes + turns[0].codes + Codes(turns[1..]) == codes + Codes(turns);
    }
  }

  /** A file of items, of functions that are not ended and of tokens that are no item at all: the parser yields the
      items and the unended functions, and reports the rest with these codes in the order of the text, 100 of them. */
  lemma {:induction false} MistakesReported(ts: seq<Token>, i: nat, turns: seq<Turn>)
    requires Stream(ts) && Spaces(ts, 0, i) && TurnsAt(ts, i, turns)
    ensures Parse(ts) == Parsed(Items(turns), Heard(Codes(turns)))
  {
    hide Spaces, TurnsAt, ItemsFrom, Skip, Heard;
    Derivations.SpacesSkipped(ts, 0, i, []);
    TurnsTaken(ts, i, turns, []);
    assert [] + Codes(turns) == Codes(turns);
    assert Place(0, []) == St(0, []) && Place(i, []) == St(i, []) by {
      HeardNothing();
    }
  }

  lemma {:induction false} HeardNothing()
    ensures Heard([]) == []
  {}
}
