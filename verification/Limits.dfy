/** Accepted programs that the emitted code does not serve: why the side conditions are there. */
module Limits {
  import opened Ast
  import opened Words
  import opened Machine
  import opened Semantics
  import opened Emission
  import opened Checking
  import opened Resolution
  import opened Initialisation
  import opened Labels
  import opened SimBase
  import opened SimOps
  import opened SimFrame

  const PACKAGE := Package(true, "tiny", {"syscall"})

  // ----- one statement at a time -----

  lemma {:induction false} RunFirst(p: Program, cx: Ctx, a: Stmt, rest: Block, store: Store, sn: nat, d: nat, n: nat)
    ensures var first := ExecStmt(p, cx.First(), a, store, sn, d, n);
      var later := cx.Second().Past(StmtNames(a));
      ExecBlock(p, cx, [a] + rest, store, sn, d, n)
      == if first.Ok? && first.v.Onward? then After(first.out, ExecBlock(p, later, rest, first.v.store, sn + |StmtStrings(a)|, d, n)) else first
  {
    assert ([a] + rest)[1..] == rest;
  }

  lemma {:induction false} CheckFirst(g: Globals, sc: Scope, a: Stmt, rest: Block)
    ensures var first := CheckStmt(g, sc, a);
      var others := CheckBlock(g, sc.(vars := first.vars), rest);
      CheckBlock(g, sc, [a] + rest) == Checked(others.vars, first.diags + others.diags)
    ensures BlockReturns([a] + rest) <==> StmtReturns(a) || BlockReturns(rest)
  {
    assert ([a] + rest)[1..] == rest;
  }

  lemma {:induction false} SlotsFirst(a: Stmt, rest: Block, locals: map<string, nat>)
    ensures BlockSlots([a] + rest, locals) == BlockSlots(rest, StmtSlots(a, locals))
  {
    assert ([a] + rest)[1..] == rest;
  }

  lemma {:induction false} FnDiagsOf(g: Globals, f: FnDecl)
    requires f.params == [] && CheckBlock(g, Scope(map[], f.ret, 0, if f.isUnsafe then 1 else 0), f.body).diags == []
    requires BlockReturns(f.body)
    ensures FnDiags(g, f) == []
  {}

  // ----- initialisation -----

  const LET_X := Let("x", "i32", IntLit(1))
  const IF_FALSE := If(BoolLit(false), [LET_X], NoElse)
  const RET_X := Ret(Some(Ident("x")))

  /** fn main -> i32: if false -> let x i32 = 1 end; ret x */
  const READS_EARLY := FnDecl("main", [], "i32", [IF_FALSE] + [RET_X], false)

  /** A block's variables stay declared after it, so the checker accepts a read that no run precedes by a write: what
      the program returns is what was in its frame. */
  lemma {:induction false} ReadsBeforeDeclaration(stringAt: nat -> Word, v: Word, d: nat, n: nat)
    ensures Accepts([READS_EARLY], PACKAGE)
    ensures RunMain(Program([READS_EARLY], [], stringAt), Unspecified, d, n) == Stuck(Uninitialised("x"))
    ensures RunMain(Program([READS_EARLY], [], stringAt), Frame(map["x" := v], Zeros), d, n) == Ok(v, [])
    ensures !FnSure(READS_EARLY)
  {
    AcceptsReadsEarly();
    var p := Program([READS_EARLY], [], stringAt);
    assert Lookup(p.fns, "main", 0) == Option.Some(Linked(READS_EARLY, 0));
    EarlyNames();
    EarlyRuns(p, Ctx({}, Unspecified), map[], d, n);
    EarlyRuns(p, Ctx({}, Zeros), map["x" := v], d, n);
    assert EntryStore(READS_EARLY, [], Frame(map["x" := v], Zeros)) == map["x" := v];
    EarlyUnsure();
  }

  lemma {:induction false} EarlyNames()
    ensures BlockNames([LET_X]) == ["x"] && StmtNames(IF_FALSE) == ["x"]
    ensures BlockNames(READS_EARLY.body) == ["x"] && DeclaredNames(READS_EARLY) == ["x"] && Among(["x"]) == {"x"}
    ensures EntryCtx(READS_EARLY, Unspecified) == Ctx({}, Unspecified)
  {
    assert [LET_X][1..] == [];
    assert READS_EARLY.body[1..] == [RET_X];
    assert [RET_X][1..] == [];
    assert BlockNames([RET_X]) == [];
    assert StmtNames(IF_FALSE) == BlockNames([LET_X]);
    assert BlockNames(READS_EARLY.body) == StmtNames(IF_FALSE) + BlockNames([RET_X]);
    assert ParamNames(READS_EARLY.params) == [];
    assert [] + ["x"] == ["x"];
    assert Among([]) == {};
  }

  lemma {:induction false} EarlyUnsure()
    ensures !FnSure(READS_EARLY)
  {
    EarlyNames();
    assert StmtGives(IF_FALSE) == {};
    assert "x" in ExprUses(Ident("x")) * {"x"};
    assert !StmtSure({"x"}, {}, RET_X);
    SureFirst({"x"}, {}, RET_X, []);
    assert [RET_X] + [] == [RET_X];
    SureFirst({}, {}, IF_FALSE, [RET_X]);
    assert {} + {"x"} == {"x"} && {} + StmtGives(IF_FALSE) == {};
    assert Among(ParamNames(READS_EARLY.params)) == {};
  }

  lemma {:induction false} SureFirst(vars: set<string>, sure: set<string>, a: Stmt, rest: Block)
    ensures BlockSure(vars, sure, [a] + rest) <==> StmtSure(vars, sure, a) && BlockSure(vars + Among(StmtNames(a)), sure + StmtGives(a), rest)
  {
    assert ([a] + rest)[1..] == rest;
  }

  lemma {:induction false} EarlyRuns(p: Program, cx: Ctx, store: Store, d: nat, n: nat)
    requires cx.vars == {} && p.fns == [READS_EARLY]
    ensures ExecBlock(p, cx, READS_EARLY.body, store, 0, d, n)
         == if "x" in store then Ok(Returned(store["x"]), []) else Stuck(Uninitialised("x"))
  {
    EarlyNames();
    var later := cx.Second().Past(["x"]);
    RunFirst(p, cx, IF_FALSE, [RET_X], store, 0, d, n);
    assert BlockStrings([LET_X]) == [];
    assert ExecStmt(p, cx.First(), IF_FALSE, store, 0, d, n) == Ok(Onward(store), []);
    RunFirst(p, later, RET_X, [], store, 0, d, n);
    assert [RET_X] + [] == [RET_X];
    assert later.vars == {"x"};
  }

  lemma {:induction false} AcceptsReadsEarly()
    ensures Accepts([READS_EARLY], PACKAGE)
  {
    var g := GlobalsOf([READS_EARLY], PACKAGE);
    OneFunction(READS_EARLY);
    var sc := Scope(map[], "i32", 0, 0);
    var x := map["x" := VarInfo("i32", false)];
    CheckFirst(g, sc, LET_X, []);
    assert [LET_X] + [] == [LET_X];
    assert CheckBlock(g, sc, [LET_X]) == Checked(x, []);
    CheckFirst(g, sc, IF_FALSE, [RET_X]);
    CheckFirst(g, sc.(vars := x), RET_X, []);
    assert [RET_X] + [] == [RET_X];
    FnDiagsOf(g, READS_EARLY);
  }

  lemma {:induction false} OneFunction(f: FnDecl)
    requires f.name == "main" && f.params == [] && f.ret == "i32" && !f.isUnsafe
    ensures Register([f], PACKAGE.capabilities) == Registered(map["main" := FnSig([], "i32", false)], [])
    ensures AllFnDiags(GlobalsOf([f], PACKAGE), [f]) == FnDiags(GlobalsOf([f], PACKAGE), f)
  {
    hide FnDiags;
    assert SigOf(f) == FnSig([], "i32", false);
    assert [f][..0] == [];
    assert [f][1..] == [];
  }

  // ----- names -----

  const RET_7 := Ret(Some(IntLit(7)))
  const SEVEN := FnDecl("f", [], "i32", [RET_7], false)

  const LET_X_F := Let("x", "i32", Ident("f"))
  const LET_F := Let("f", "i32", IntLit(1))

  /** fn main -> i32: let x i32 = f; let f i32 = 1; ret x */
  const SHADOWS := FnDecl("main", [], "i32", [LET_X_F] + ([LET_F] + [RET_X]), false)

  /** The checker takes `f` to be the function, since no local of that name is declared yet, and so does a run: the
      program means 7. The generator takes it to be the local declared later: whatever word the machine finds in that
      local's slot is what the program exits with. */
  lemma {:induction false} LocalShadowsFunction(img: Image, v: Word) returns (s: State, t: State)
    requires img.code == ProgramCode([SEVEN, SHADOWS], PACKAGE)
    ensures Accepts([SEVEN, SHADOWS], PACKAGE) && !FnClear(FnNames([SEVEN, SHADOWS]), SHADOWS)
    ensures forall z :: RunMain(Program([SEVEN, SHADOWS], [], img.stringAt), z, 1, 0) == Ok(7, [])
    ensures Ready(s, 0, 32) && s.trace == []
    ensures Reaches(img, s, t) && t.status.Exited? && t.trace == [Exit(v % TWO32)]
  {
    AcceptsShadows();
    ShadowsClash();
    forall z
      ensures RunMain(Program([SEVEN, SHADOWS], [], img.stringAt), z, 1, 0) == Ok(7, [])
    {
      ShadowsRuns(Program([SEVEN, SHADOWS], [], img.stringAt), z);
    }
    s, t := ShadowsOnMachine(img, v);
  }

  lemma {:induction false} ShadowsSlots()
    ensures FnSlots(SHADOWS) == map["x" := 8, "f" := 16]
  {
    SlotsFirst(LET_X_F, [LET_F] + [RET_X], map[]);
    SlotsFirst(LET_F, [RET_X], map["x" := 8]);
    SlotsFirst(RET_X, [], map["x" := 8, "f" := 16]);
    assert [RET_X] + [] == [RET_X];
    assert |map["x" := 8]| == 1;
  }

  lemma {:induction false} ShadowsNames()
    ensures StmtNames(LET_X_F) == ["x"] && StmtNames(LET_F) == ["f"]
    ensures Among(["x"]) == {"x"} && Among(["f"]) == {"f"}
  {}

  lemma {:induction false} ShadowsClash()
    ensures !FnClear(FnNames([SEVEN, SHADOWS]), SHADOWS)
  {
    ShadowsSlots();
    assert SEVEN in [SEVEN, SHADOWS];
    var o := Occurrence("f", {});
    assert ExprUses(Ident("f")) == {"f"};
    assert o in Occurring(ExprUses(Ident("f")), {});
    assert SHADOWS.body[0] == LET_X_F;
    assert Among(ParamNames(SHADOWS.params)) == {};
    assert o in StmtOccurrences({}, LET_X_F);
    assert o in BlockOccurrences({}, SHADOWS.body);
    assert SEVEN.name in FnNames([SEVEN, SHADOWS]);
    assert "f" in FnSlots(SHADOWS) && o.name !in o.vars;
    assert Clashes(FnNames([SEVEN, SHADOWS]), FnSlots(SHADOWS).Keys, o);
  }

  lemma {:induction false} ShadowsRuns(p: Program, z: Residue)
    requires p.fns == [SEVEN, SHADOWS]
    ensures RunMain(p, z, 1, 0) == Ok(7, [])
  {
    assert [SEVEN, SHADOWS][1..] == [SHADOWS];
    assert Lookup(p.fns, "f", 0) == Option.Some(Linked(SEVEN, 0));
    assert BlockStrings(SEVEN.body) == [];
    assert Lookup(p.fns, "main", 0) == Option.Some(Linked(SHADOWS, 0));
    ShadowsNames();
    var cx, store := EntryCtx(SHADOWS, z), EntryStore(SHADOWS, [], z);
    SevenRuns(p, cx.First().residue);
    var x: Store := store["x" := 7];
    RunFirst(p, cx, LET_X_F, [LET_F] + [RET_X], store, 0, 1, 0);
    assert ExecStmt(p, cx.First(), LET_X_F, store, 0, 1, 0) == Ok(Onward(x), []);
    ShadowsEnds(p, cx.Second().Past(["x"]), x);
  }

  lemma {:induction false} ShadowsEnds(p: Program, cx: Ctx, x: Store)
    requires cx.vars == {"x"} && "x" in x && x["x"] == 7
    ensures ExecBlock(p, cx, [LET_F] + [RET_X], x, 0, 1, 0) == Ok(Returned(7), [])
  {
    ShadowsNames();
    RunFirst(p, cx, LET_F, [RET_X], x, 0, 1, 0);
    RunFirst(p, cx.Second().Past(["f"]), RET_X, [], x["f" := 1], 0, 1, 0);
    assert [RET_X] + [] == [RET_X];
  }

  lemma {:induction false} SevenRuns(p: Program, z: Residue)
    requires p.fns == [SEVEN, SHADOWS]
    ensures CallFn(p, z, "f", [], 0, 0) == Ok(7, [])
  {
    assert Lookup(p.fns, "f", 0) == Option.Some(Linked(SEVEN, 0));
    RunFirst(p, EntryCtx(SEVEN, z), RET_7, [], EntryStore(SEVEN, [], z), 0, 0, 0);
    assert [RET_7] + [] == [RET_7];
  }

  lemma {:induction false} AcceptsShadows()
    ensures Accepts([SEVEN, SHADOWS], PACKAGE)
  {
    var fns := [SEVEN, SHADOWS];
    var g := GlobalsOf(fns, PACKAGE);
    ShadowsRegistered();
    CheckFirst(g, Scope(map[], "i32", 0, 0), RET_7, []);
    assert [RET_7] + [] == [RET_7];
    FnDiagsOf(g, SEVEN);
    ShadowsChecks(g);
    TwoFunctions(g, SEVEN, SHADOWS);
  }

  lemma {:induction false} TwoFunctions(g: Globals, a: FnDecl, b: FnDecl)
    ensures AllFnDiags(g, [a, b]) == FnDiags(g, a) + FnDiags(g, b)
  {
    hide FnDiags;
    assert [a, b][1..] == [b] && [b][1..] == [];
    assert AllFnDiags(g, [b]) == FnDiags(g, b) + AllFnDiags(g, []);
  }

  lemma {:induction false} ShadowsRegistered()
    ensures Register([SEVEN, SHADOWS], PACKAGE.capabilities)
         == Registered(map["f" := FnSig([], "i32", false), "main" := FnSig([], "i32", false)], [])
  {
    var fns := [SEVEN, SHADOWS];
    assert SigOf(SEVEN) == FnSig([], "i32", false) == SigOf(SHADOWS);
    assert [SEVEN][..0] == [];
    assert Register([], PACKAGE.capabilities) == Registered(map[], []);
    assert Register([SEVEN], PACKAGE.capabilities) == Registered(map["f" := FnSig([], "i32", false)], []);
    assert fns[..1] == [SEVEN];
  }

  lemma {:induction false} ShadowsChecks(g: Globals)
    requires g.sigs == map["f" := FnSig([], "i32", false), "main" := FnSig([], "i32", false)]
    ensures FnDiags(g, SHADOWS) == []
  {
    var sc := Scope(map[], "i32", 0, 0);
    var x: Vars := map["x" := VarInfo("i32", false)];
    var f: Vars := x["f" := VarInfo("i32", false)];
    CheckFirst(g, sc, LET_X_F, [LET_F] + [RET_X]);
    assert CheckStmt(g, sc, LET_X_F) == Checked(x, []);
    CheckFirst(g, sc.(vars := x), LET_F, [RET_X]);
    CheckFirst(g, sc.(vars := f), RET_X, []);
    assert [RET_X] + [] == [RET_X];
    FnDiagsOf(g, SHADOWS);
  }

  // ----- the shadowed name on the machine -----

  function ShadowsCode(end: Label): seq<Instr> {
    [Lab(FnLabel("main")), Push(RBP), MovReg(RBP, RSP), SubRsp(16), Load(16), Instr.Store(8, RAX), MovImm(RAX, 1), Instr.Store(16, RAX), Load(8), Jmp(end)]
    + [Lab(end), MovReg(RSP, RBP), Pop(RBP), Return]
  }

  lemma {:induction false} CodeFirst(fns: set<string>, env: Env, a: Stmt, rest: Block, ln: nat, sn: nat)
    ensures BlockCode(fns, env, [a] + rest, ln, sn)
         == StmtCode(fns, env, a, ln, sn) + BlockCode(fns, env, rest, ln + StmtLabels(a), sn + |StmtStrings(a)|)
  {
    assert ([a] + rest)[1..] == rest;
  }

  lemma {:induction false} ShadowsEmitted(fns: set<string>, ln: nat)
    ensures FnCode(fns, SHADOWS, ln, 0) == ShadowsCode(FnEnd(ln))
  {
    ShadowsSlots();
    var env := FnEnv(SHADOWS, ln);
    CodeFirst(fns, env, LET_X_F, [LET_F] + [RET_X], ln + 1, 0);
    CodeFirst(fns, env, LET_F, [RET_X], ln + 1, 0);
    CodeFirst(fns, env, RET_X, [], ln + 1, 0);
    assert [RET_X] + [] == [RET_X];
    assert BlockCode(fns, env, SHADOWS.body, ln + 1, 0) == [Load(16), Instr.Store(8, RAX), MovImm(RAX, 1), Instr.Store(16, RAX), Load(8), Jmp(FnEnd(ln))];
    assert |map["x" := 8, "f" := 16]| == 2;
    assert FrameSize(SHADOWS) == 16;
    assert StoreParams([], FnSlots(SHADOWS), 0) == [];
  }

  lemma {:induction false} ShadowsPlaced(img: Image) returns (at: nat, ln: nat)
    requires img.code == ProgramCode([SEVEN, SHADOWS], PACKAGE)
    ensures |img.code| >= 5 && img.code[..5] == StartCode()
    ensures Fits(img.code, at, ShadowsCode(FnEnd(ln)))
    ensures Target(img.code, FnLabel("main")) == Option.Some(at) && Target(img.code, FnEnd(ln)) == Option.Some(at + 10)
  {
    hide FnCode, ShadowsCode;
    var fns := [SEVEN, SHADOWS];
    var names := FnNames(fns);
    assert fns[1..] == [SHADOWS] && [SHADOWS][1..] == [];
    var seven := FnCode(names, SEVEN, 0, 0);
    ln := 1;
    assert BlockLabels(SEVEN.body) == 0 && BlockStrings(SEVEN.body) == [];
    ShadowsEmitted(names, ln);
    var main := ShadowsCode(FnEnd(ln));
    assert FnsCode(names, [SHADOWS], ln, 0) == main + [];
    assert FnsCode(names, fns, 0, 0) == seven + main;
    assert img.code == StartCode() + (seven + main);
    at := 5 + |seven|;
    assert img.code[at..at + |main|] == main;
    TargetsPlaced(img, at, ln);
  }

  lemma {:induction false} TargetsPlaced(img: Image, at: nat, ln: nat)
    requires img.code == ProgramCode([SEVEN, SHADOWS], PACKAGE) && Fits(img.code, at, ShadowsCode(FnEnd(ln)))
    ensures Target(img.code, FnLabel("main")) == Option.Some(at) && Target(img.code, FnEnd(ln)) == Option.Some(at + 10)
  {
    hide ProgramCode;
    ProgramLabelsUnique([SEVEN, SHADOWS], PACKAGE);
    FitsAt(img.code, at, ShadowsCode(FnEnd(ln)), 0);
    FitsAt(img.code, at, ShadowsCode(FnEnd(ln)), 10);
    TargetIs(img.code, at, FnLabel("main"));
    TargetIs(img.code, at + 10, FnEnd(ln));
  }

  /** A start with 64 bytes of stack, and a word where main's second slot will be. */
  function StartWith(v: Word): State {
    State(Running, 0, 0, 0, 0, 0, 0, 0, 0, 0, 64, 0, false, false, false, map[32 := v], [])
  }

  lemma {:induction false} ShadowsOnMachine(img: Image, v: Word) returns (s: State, t: State)
    requires img.code == ProgramCode([SEVEN, SHADOWS], PACKAGE)
    ensures Ready(s, 0, 32) && s.trace == []
    ensures Reaches(img, s, t) && t.status.Exited? && t.trace == [Exit(v % TWO32)]
  {
    hide ProgramCode, Reaches, Execute, ShadowsCode, Fits, Run;
    var at, ln := ShadowsPlaced(img);
    s := StartWith(v);
    t := ShadowsStart(img, s, v, at);
    t := ShadowsEntry(img, s, t, at, ln, v);
    t := ShadowsMiddle(img, s, t, at, ln, v);
    t := ShadowsLast(img, s, t, at, ln, v);
    t := ShadowsExit(img, s, t, v);
  }

  lemma {:induction false} ShadowsStart(img: Image, s: State, v: Word, at: nat) returns (t: State)
    requires |img.code| >= 5 && img.code[..5] == StartCode() && Target(img.code, FnLabel("main")) == Option.Some(at) && s == StartWith(v)
    ensures Reaches(img, s, t) && t == s.(pc := at, rsp := 56, mem := map[32 := v, 56 := 2])
  {
    hide Reaches, Run, Target;
    assert img.code[0] == StartCode()[0] && img.code[1] == StartCode()[1];
    t := Step1(img, s, Lab(FnLabel(START)));
    t := Then(img, s, t, CallTo(FnLabel("main")));
  }

  lemma {:induction false} ShadowsAt(img: Image, at: nat, ln: nat, k: nat)
    requires Fits(img.code, at, ShadowsCode(FnEnd(ln))) && k < 14
    ensures at + k < |img.code| && img.code[at + k] == ShadowsCode(FnEnd(ln))[k]
  {
    FitsAt(img.code, at, ShadowsCode(FnEnd(ln)), k);
  }

  lemma {:induction false} ShadowsEntry(img: Image, s: State, a: State, at: nat, ln: nat, v: Word) returns (t: State)
    requires Fits(img.code, at, ShadowsCode(FnEnd(ln)))
    requires Reaches(img, s, a) && a.status.Running? && a.pc == at && a.rsp == 56 && a.mem == map[32 := v, 56 := 2]
    ensures Reaches(img, s, t) && t.status.Running? && t.pc == at + 4 && t.rbp == 48 && t.rsp == 32 && t.trace == a.trace
    ensures Peek(t.mem, 32) == v && Peek(t.mem, 56) == 2
  {
    hide Reaches, Run, Fits, Execute;
    t := ShadowsFrame(img, s, a, at, ln, v);
    ShadowsAt(img, at, ln, 2);
    ShadowsAt(img, at, ln, 3);
    t := EntryEnds(img, s, t, v);
  }

  lemma {:induction false} EntryEnds(img: Image, s: State, a: State, v: Word) returns (t: State)
    requires Reaches(img, s, a) && a.status.Running? && a.pc + 1 < |img.code| && a.rsp == 48
    requires Peek(a.mem, 32) == v && Peek(a.mem, 56) == 2
    requires img.code[a.pc] == MovReg(RBP, RSP) && img.code[a.pc + 1] == SubRsp(16)
    ensures Reaches(img, s, t) && t.status.Running? && t.pc == a.pc + 2 && t.rbp == 48 && t.rsp == 32 && t.trace == a.trace
    ensures Peek(t.mem, 32) == v && Peek(t.mem, 56) == 2
  {
    hide Reaches, Run;
    t := Then(img, s, a, MovReg(RBP, RSP));
    t := Then(img, s, t, SubRsp(16));
  }

  lemma {:induction false} ShadowsFrame(img: Image, s: State, a: State, at: nat, ln: nat, v: Word) returns (t: State)
    requires Fits(img.code, at, ShadowsCode(FnEnd(ln)))
    requires Reaches(img, s, a) && a.status.Running? && a.pc == at && a.rsp == 56 && a.mem == map[32 := v, 56 := 2]
    ensures Reaches(img, s, t) && t.status.Running? && t.pc == at + 2 && t.rsp == 48 && t.trace == a.trace
    ensures Peek(t.mem, 32) == v && Peek(t.mem, 56) == 2
  {
    hide Reaches, Run, Fits;
    ShadowsAt(img, at, ln, 0);
    ShadowsAt(img, at, ln, 1);
    t := Then(img, s, a, Lab(FnLabel("main")));
    t := Then(img, s, t, Push(RBP));
  }

  lemma {:induction false} ShadowsMiddle(img: Image, s: State, a: State, at: nat, ln: nat, v: Word) returns (t: State)
    requires Fits(img.code, at, ShadowsCode(FnEnd(ln)))
    requires Reaches(img, s, a) && a.status.Running? && a.pc == at + 4 && a.rbp == 48 && Peek(a.mem, 32) == v && Peek(a.mem, 56) == 2
    ensures Reaches(img, s, t) && t.status.Running? && t.pc == at + 8 && t.rbp == 48 && t.trace == a.trace
    ensures Peek(t.mem, 40) == v && Peek(t.mem, 56) == 2
  {
    hide Reaches, Run, Fits;
    ShadowsAt(img, at, ln, 4);
    ShadowsAt(img, at, ln, 5);
    ShadowsAt(img, at, ln, 6);
    ShadowsAt(img, at, ln, 7);
    t := Then(img, s, a, Load(16));
    t := Then(img, s, t, Instr.Store(8, RAX));
    t := Then(img, s, t, MovImm(RAX, 1));
    t := Then(img, s, t, Instr.Store(16, RAX));
  }

  lemma {:induction false} ShadowsLast(img: Image, s: State, a: State, at: nat, ln: nat, v: Word) returns (t: State)
    requires Fits(img.code, at, ShadowsCode(FnEnd(ln))) && Target(img.code, FnEnd(ln)) == Option.Some(at + 10)
    requires Reaches(img, s, a) && a.status.Running? && a.pc == at + 8 && a.rbp == 48 && Peek(a.mem, 40) == v && Peek(a.mem, 56) == 2
    ensures Reaches(img, s, t) && t.status.Running? && t.pc == 2 && t.rax == v && t.trace == a.trace
  {
    hide Reaches, Run, Fits, Target;
    ShadowsAt(img, at, ln, 8);
    ShadowsAt(img, at, ln, 9);
    ShadowsAt(img, at, ln, 10);
    t := Then(img, s, a, Load(8));
    t := Then(img, s, t, Jmp(FnEnd(ln)));
    ShadowsBack(img, at, ln);
    t := SimReturn(img, s, t, FnEnd(ln));
  }

  lemma {:induction false} ShadowsBack(img: Image, at: nat, ln: nat)
    requires Fits(img.code, at, ShadowsCode(FnEnd(ln)))
    ensures Fits(img.code, at + 10, [Lab(FnEnd(ln)), MovReg(RSP, RBP), Pop(RBP), Return])
  {
    var end := FnEnd(ln);
    FitsCat(img.code, at, [Lab(FnLabel("main")), Push(RBP), MovReg(RBP, RSP), SubRsp(16), Load(16), Instr.Store(8, RAX), MovImm(RAX, 1),
                           Instr.Store(16, RAX), Load(8), Jmp(end)], [Lab(end), MovReg(RSP, RBP), Pop(RBP), Return]);
  }

  lemma {:induction false} ShadowsExit(img: Image, s: State, a: State, v: Word) returns (t: State)
    requires |img.code| >= 5 && img.code[..5] == StartCode()
    requires Reaches(img, s, a) && a.status.Running? && a.pc == 2 && a.rax == v
    ensures Reaches(img, s, t) && t.status.Exited? && t.trace == a.trace + [Exit(v % TWO32)]
  {
    hide Reaches, Run;
    assert img.code[2] == StartCode()[2] && img.code[3] == StartCode()[3] && img.code[4] == StartCode()[4];
    t := Then(img, s, a, MovEdiEax);
    t := Then(img, s, t, MovImm(RAX, 60));
    t := Then(img, s, t, Syscall);
  }
}
