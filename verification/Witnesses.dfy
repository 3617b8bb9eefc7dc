/** Inputs at which the front end and the generator fail, each within the exact condition proved elsewhere. */
module Witnesses {
  import opened Ast
  import opened Tokens
  import opened Machine
  import opened Emission
  import opened Checking
  import opened Inspection
  import opened Limits
  import Assembling
  import Capability
  import Lexing
  import Parsing

  // ----- the lexer -----

  const BAD_ESCAPE := "\"\\x\r\n"

  /** A string literal that an escape at the end of the file breaks off makes the lexer read past the end. */
  lemma {:induction false} BadEscapeCrashes()
    ensures Lexing.Lex(BAD_ESCAPE).Crashed?
  {
    var b := BAD_ESCAPE;
    assert Lexing.EscapeAt(b, 1) == Lexing.RunsPastEnd;
    hide Lexing.EscapeAt;
    assert Lexing.ScanString(b, 1) == Lexing.PastEnd;
    hide Lexing.ScanString, Lexing.IdentPiece, Lexing.IntPiece, Lexing.BytePiece, Lexing.BlockCommentPiece, Lexing.Punctuation;
    assert Lexing.PieceAt(b, 0) == Lexing.ReadsPastEnd;
  }

  // ----- the parser -----

  lemma {:induction false} AllIdent(b: string, i: nat)
    requires i <= |b| && forall k :: i <= k < |b| ==> IsIdentRest(b[k])
    ensures Lexing.SkipIdent(b, i) == |b|
    decreases |b| - i
  {
    if i < |b| {
      AllIdent(b, i + 1);
    }
  }

  lemma {:induction false} UnsafePiece()
    ensures Lexing.PieceAt("unsafe", 0) == Lexing.Piece(KwUnsafe, 6, [])
  {
    hide Lexing.SkipIdent, Lexing.IntPiece, Lexing.StringPiece, Lexing.BytePiece, Lexing.BlockCommentPiece, Lexing.Punctuation;
    AllIdent("unsafe", 1);
    assert "unsafe"[0..6] == "unsafe";
  }

  lemma {:induction false} UnsafeLexes()
    ensures Lexing.Lex("unsafe") == Lexing.Lexed([Lexing.TokenOf("unsafe", KwUnsafe, 0, 6), Lexing.EofToken("unsafe")], [])
  {
    hide Lexing.PieceAt, Lexing.EofToken, Lexing.TokenOf;
    UnsafePiece();
    assert Lexing.LexFrom("unsafe", 6) == Lexing.Lexed([Lexing.EofToken("unsafe")], []);
    assert Lexing.DiagnosticsOf("unsafe", 0, []) + [] == [];
  }

  lemma {:induction false} HangsAtOnce(ts: seq<Token>)
    requires Parsing.Stream(ts) && ts[0].kind == KwUnsafe && Parsing.PeekKind(ts, Parsing.St(0, []), 1) != KwFn
    ensures Parsing.Parse(ts).Hangs?
  {
    hide Parsing.ItemStep;
    Parsing.ItemsProgress(ts, Parsing.St(0, []));
  }

  /** The text `unsafe` alone makes the parser loop for ever. */
  lemma {:induction false} UnsafeHangs()
    ensures Lexing.Lex("unsafe").Lexed? && Lexing.Lex("unsafe").diagnostics == []
    ensures Parsing.Stream(Lexing.Lex("unsafe").tokens) && Parsing.Parse(Lexing.Lex("unsafe").tokens).Hangs?
  {
    hide Lexing.LexFrom, Parsing.ItemsFrom, Parsing.Skip;
    UnsafeLexes();
    HangsAtOnce(Lexing.Lex("unsafe").tokens);
  }

  // ----- the checker and the generator -----

  const WRITE := Call(Path(["io", "write"], PathSep.Dot), [Expr.IntLit(1), Expr.StrLit("x"), Expr.IntLit(1)])
  const ALLOC := Call(Path(["mem", "alloc"], PathSep.Dot), [WRITE])
  const RET_0 := Ret(Some(Expr.IntLit(0)))
  const QUIET := Package(true, "tiny", {"heap", "unsafe"})

  /** fn main -> i32: unsafe -> mem.alloc (io.write 1 "x" 1) end; ret 0 */
  const HIDES := FnDecl("main", [], "i32", [UnsafeBlock([ExprStmt(ALLOC)])] + [RET_0], false)

  lemma {:induction false} Spelt()
    ensures WRITE.callee.Display() == "io.write" && ALLOC.callee.Display() == "mem.alloc"
  {
    assert Join(["write"], ".") == "write" && Join(["alloc"], ".") == "alloc";
    assert ["io", "write"][1..] == ["write"] && ["mem", "alloc"][1..] == ["alloc"];
    assert "io" + "." + "write" == "io.write" && "mem" + "." + "alloc" == "mem.alloc";
  }

  lemma {:induction false} HidesTop()
    ensures (ALLOC, 1) in BlockExprs(HIDES.body, 0) && ALLOC in Parts(ALLOC) && WRITE in Hidden(ALLOC)
  {
    Spelt();
    assert (ALLOC, 1) in StmtExprs(ExprStmt(ALLOC), 1);
    assert (ALLOC, 1) in BlockExprs([ExprStmt(ALLOC)], 1);
    assert HIDES.body[0] == UnsafeBlock([ExprStmt(ALLOC)]);
    assert WRITE in Parts(WRITE);
  }

  lemma {:induction false} AllocTyped(g: Globals, sc: Scope)
    requires "heap" in g.capabilities && sc.unsafes > 0
    ensures CheckStmt(g, sc, ExprStmt(ALLOC)) == Checked(sc.vars, [])
  {
    Spelt();
  }

  lemma {:induction false} AcceptsHides()
    ensures Accepts([HIDES], QUIET)
  {
    hide TypeOf;
    var g := GlobalsOf([HIDES], QUIET);
    ZeroTyped(g, Scope(map[], "i32", 0, 0));
    assert SigOf(HIDES) == FnSig([], "i32", false);
    assert [HIDES][..0] == [];
    assert Register([HIDES], QUIET.capabilities) == Registered(map["main" := FnSig([], "i32", false)], []);
    var sc := Scope(map[], "i32", 0, 0);
    var inner := sc.(unsafes := 1);
    AllocTyped(g, inner);
    CheckFirst(g, inner, ExprStmt(ALLOC), []);
    assert [ExprStmt(ALLOC)] + [] == [ExprStmt(ALLOC)];
    assert CheckBlock(g, inner, [ExprStmt(ALLOC)]) == Checked(map[], []);
    CheckFirst(g, sc, UnsafeBlock([ExprStmt(ALLOC)]), [RET_0]);
    CheckFirst(g, sc, RET_0, []);
    assert [RET_0] + [] == [RET_0];
    FnDiagsOf(g, HIDES);
    assert [HIDES][1..] == [];
    hide FnDiags;
    assert AllFnDiags(g, [HIDES]) == FnDiags(g, HIDES) + AllFnDiags(g, []);
  }

  lemma {:induction false} ZeroTyped(g: Globals, sc: Scope)
    requires sc.ret == "i32"
    ensures CheckStmt(g, sc, RET_0) == Checked(sc.vars, [])
  {}

  /** A package without the syscall capability whose code makes a system call all the same. */
  lemma {:induction false} SyscallWithoutCapability(ln: nat, sn: nat)
    ensures Accepts([HIDES], QUIET) && "syscall" !in QUIET.capabilities
    ensures Syscall in FnCode(FnNames([HIDES]), HIDES, ln, sn)
    ensures !Capability.OnlyExit(ProgramCode([HIDES], QUIET), QUIET)
  {
    AcceptsHides();
    HidesTop();
    Spelt();
    hide Accepts, FnCode, ProgramCode, BlockExprs, Hidden, Capability.OnlyExit;
    var top := (ALLOC, 1);
    assert top in BlockExprs(HIDES.body, UnsafeDepth(HIDES)) && WRITE in Hidden(top.0) && IsWrite(WRITE);
    assert Capability.HidesWrite(HIDES);
    Capability.SyscallsNeedCapability([HIDES], QUIET, HIDES, ln, sn);
    Capability.OnlyTheExit([HIDES], QUIET);
  }

  /** And whose code does not assemble: nothing defines what it calls. */
  lemma {:induction false} UndefinedCall()
    ensures Accepts([HIDES], QUIET) && !Assembling.Assembles(ProgramCode([HIDES], QUIET))
  {
    AcceptsHides();
    HidesTop();
    Spelt();
    hide Accepts, ProgramCode, BlockExprs, Hidden, Assembling.Assembles, Parts;
    assert Assembling.CallsUndefined(ALLOC);
    assert Assembling.FnCallsUndefined(HIDES);
    Assembling.AssemblesIff([HIDES], QUIET);
  }

  /** An accepted library for the tiny runtime does not assemble: its entry point calls a `main` that is not there. */
  lemma {:induction false} LibraryWithoutMain()
    ensures var pkg := Package(false, "tiny", {}); Accepts([], pkg) && !Assembling.Assembles(ProgramCode([], pkg))
  {
    hide Assembling.Assembles, ProgramCode;
    Assembling.AssemblesIff([], Package(false, "tiny", {}));
  }
}
