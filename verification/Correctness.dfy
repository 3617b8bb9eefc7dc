/** The main results about Stage 0: what the emitted code of an accepted program does when it runs. */
module Correctness {
  import opened Ast
  import opened Words
  import opened Machine
  import opened Semantics
  import opened Emission
  import opened Slots
  import opened Labels
  import opened SimBase
  import opened SimOps
  import opened SimCalls
  import opened Linking
  import opened Frames
  import opened Checking
  import opened Acceptance
  import opened Soundness
  import opened Simulation
  import opened Resolution
  import opened Residues
  import opened Initialisation
  import opened Constants

  /** At most six parameters and arguments everywhere, and no function's name used before a local of that name is
      declared. */
  ghost predicate Regular(fns: seq<FnDecl>) {
    forall f :: f in fns ==> |f.params| <= MAX_REG_ARGS && BlockFits6(f.body) && FnClear(FnNames(fns), f)
  }

  /** What the generator needs beyond acceptance: a regular program in which no function has the name of a built-in or
      of the entry point. */
  ghost predicate Supportable(fns: seq<FnDecl>, pkg: Package) {
    Regular(fns) && NoBuiltins(fns) && StartIsFree(fns, pkg)
  }

  /** An accepted program, loaded with the code emitted for it. */
  ghost predicate Built(fns: seq<FnDecl>, pkg: Package, img: Image) {
    && Accepts(fns, pkg) && Supportable(fns, pkg)
    && img.code == ProgramCode(fns, pkg) && |img.code| < TWO64
  }

  /** No function has the name of a built-in. */
  predicate NoBuiltins(fns: seq<FnDecl>) {
    {"io.write", "core/io.write", "mem.alloc"} !! FnNames(fns)
  }

  function Source(fns: seq<FnDecl>, img: Image): Program {
    Program(fns, ProgramStrings(fns), img.stringAt)
  }

  lemma {:induction false} BuiltIsValid(fns: seq<FnDecl>, pkg: Package, img: Image)
    requires Built(fns, pkg, img)
    ensures Valid(World(Source(fns, img), pkg, img))
  {
    hide Accepts, GlobalsOf, Codegen.FnHasSlots, FnSlots, BlockFits6, FnDiags, SigOf, ProgramCode, Distinct, FnNames, WellSpread, FrameSize, FnClear;
    Accepted(fns, pkg);
    CheckerMakesGeneratorTotal(fns, pkg);
  }

  lemma {:induction false} AcceptedIsChecked(fns: seq<FnDecl>, pkg: Package, img: Image)
    requires Accepts(fns, pkg) && NoBuiltins(fns)
    ensures WellChecked(Source(fns, img), GlobalsOf(fns, pkg))
  {
    hide Accepts, GlobalsOf, FnDiags, SigOf, FnNames;
    Accepted(fns, pkg);
  }

  /** What a stopped machine shows for a run of `main`. */
  ghost predicate Finishes(s: State, t: State, r: Res<Word>) {
    match r
    case Ok(v, out) => t.status.Exited? && t.trace == s.trace + out + [Exit(v % TWO32)]
    case Trap(out) => t.status.DivideTrap? && t.trace == s.trace + out
    case _ => false
  }

  /** What the machine does for a run of `main` under bounds: a completed run is carried out, and where the source did
      not end within a bound, the machine is still running after as many steps. No local is read that the run lacks. */
  ghost predicate MainDone(img: Image, d: nat, n: nat, s: State, t: State, r: Res<Word>) {
    match r
    case Ok(_, _) => Reaches(img, s, t) && Finishes(s, t, r)
    case Trap(_) => Reaches(img, s, t) && Finishes(s, t, r)
    case OutOfFuel(deep) => Lasts(img, s, if deep then d else n)
    case Stuck(why) => !why.Uninitialised?
  }

  function Loaded(fns: seq<FnDecl>, pkg: Package, img: Image): World {
    World(Source(fns, img), pkg, img)
  }

  /** From the entry point with an empty enough stack, the machine does what the run of `main` does, if that finds in
      its frames what memory holds: in the first one what it holds at the start, and in each later one what it holds
      at a call that the machine comes to. Every local that the run reads early is in one of these frames. */
  lemma {:induction false} MainSimulated(fns: seq<FnDecl>, pkg: Package, img: Image, s: State, d: nat, n: nat) returns (t: State, z: Residue)
    requires Built(fns, pkg, img) && pkg.runtime == "tiny"
    requires Ready(s, 0, CallRoom(fns, d + 1))
    ensures Held(Loaded(fns, pkg, img), s, z) && FramedFirst(Loaded(fns, pkg, img), "main", [], s, z)
    ensures MainDone(img, d, n, s, t, RunMain(Source(fns, img), z, d, n))
  {
    hide Built, ProgramCode, CallFn, Valid, WellChecked, Held, FramedFirst;
    BuiltIsValid(fns, pkg, img);
    var w := Loaded(fns, pkg, img);
    StartPlaced(fns, pkg, img);
    var a := Step1(img, s, Lab(FnLabel(START)));
    var b;
    b, z := SimCallSite(w, "main", [], d, n, a);
    FramedEarlier(w, s, a, z);
    HeldEarlier(w, s, a, z);
    t := MainEnds(img, d, n, s, a, b, RunMain(w.p, z, d, n));
  }

  lemma {:induction false} FramedEarlier(w: World, s: State, a: State, z: Residue)
    requires a.mem == s.mem && a.rsp == s.rsp && FramedFirst(w, "main", [], a, z)
    ensures FramedFirst(w, "main", [], s, z)
  {
    hide FnSlots;
  }

  /** After the call of `main`: the exit. */
  lemma {:induction false} MainEnds(img: Image, d: nat, n: nat, s: State, a: State, b: State, r: Res<Word>) returns (t: State)
    requires |img.code| >= 5 && img.code[2] == MovEdiEax && img.code[3] == MovImm(RAX, 60) && img.code[4] == Syscall
    requires Reaches(img, s, a) && a.trace == s.trace && ExprDone(img, d + 1, n, a, b, 2, r)
    ensures MainDone(img, d, n, s, t, r)
  {
    hide Reaches, Lasts, Keeps, Run, Step;
    t := b;
    if r.Ok? {
      ReachesTrans(img, s, a, b);
      t := SimExit(img, s, b);
    } else if r.Trap? {
      ReachesTrans(img, s, a, b);
    } else if r.OutOfFuel? {
      LastsFrom(img, s, a, if r.deep then d + 1 else n);
      LastsFewer(img, s, if r.deep then d + 1 else n, if r.deep then d else n);
    }
  }

  lemma {:induction false} StartPlaced(fns: seq<FnDecl>, pkg: Package, img: Image)
    requires Built(fns, pkg, img) && pkg.runtime == "tiny"
    ensures |img.code| >= 5 && img.code[..5] == StartCode()
    ensures img.code[0] == Lab(FnLabel(START)) && img.code[1] == CallTo(FnLabel("main"))
    ensures img.code[2] == MovEdiEax && img.code[3] == MovImm(RAX, 60) && img.code[4] == Syscall
  {
    assert img.code == StartCode() + FnsCode(FnNames(fns), fns, 0, 0);
  }

  lemma {:induction false} SimExit(m: Image, s: State, b: State) returns (t: State)
    requires |m.code| >= 5 && m.code[2] == MovEdiEax && m.code[3] == MovImm(RAX, 60) && m.code[4] == Syscall
    requires Reaches(m, s, b) && b.status.Running? && b.pc == 2
    ensures Reaches(m, s, t) && t.status.Exited? && t.trace == b.trace + [Exit(b.rax % TWO32)]
  {
    var c := Then(m, s, b, MovEdiEax);
    var e := Then(m, s, c, MovImm(RAX, 60));
    t := Step(m, e);
    ReachesStep(m, s, e);
  }

  predicate Terminates(r: Res<Word>) {
    r.Ok? || r.Trap?
  }

  /** The same with definite words in every frame, zeros where the run needs none. */
  lemma {:induction false} DefiniteSimulated(fns: seq<FnDecl>, pkg: Package, img: Image, s: State, d: nat, n: nat) returns (t: State, z: Residue)
    requires Built(fns, pkg, img) && pkg.runtime == "tiny"
    requires Ready(s, 0, CallRoom(fns, d + 1))
    ensures Definite(z)
    ensures MainDone(img, d, n, s, t, RunMain(Source(fns, img), z, d, n))
  {
    hide Built, CallFn, Held, FramedFirst, Definite;
    var y;
    t, y := MainSimulated(fns, pkg, img, s, d, n);
    z := Filled(y);
    FilledSaysMore(y);
    CallSettles(Source(fns, img), y, z, "main", [], d, n);
  }

  /** The compiler is correct: for every accepted program within the side conditions whose `main` terminates whatever
      its frames hold, the machine stops, and every way it could stop is that of a source run. */
  lemma {:induction false} CompilerCorrect(fns: seq<FnDecl>, pkg: Package, img: Image, s: State, d: nat, n: nat)
    requires Built(fns, pkg, img) && pkg.runtime == "tiny"
    requires Ready(s, 0, CallRoom(fns, d + 1))
    requires forall z :: Definite(z) ==> Terminates(RunMain(Source(fns, img), z, d, n))
    ensures exists t :: Reaches(img, s, t) && !t.status.Running?
    ensures forall t :: Reaches(img, s, t) && !t.status.Running? ==>
      exists z :: Definite(z) && Finishes(s, t, RunMain(Source(fns, img), z, d, n))
  {
    hide Built, RunMain, Reaches, Definite;
    var u, z := DefiniteSimulated(fns, pkg, img, s, d, n);
    forall t | Reaches(img, s, t) && !t.status.Running?
      ensures Finishes(s, t, RunMain(Source(fns, img), z, d, n))
    {
      StoppedIsUnique(img, s, t, u);
    }
  }

  /** Where the run of `main` depends on nothing that its frames may hold, every way the machine could stop is the one
      it prescribes. */
  lemma {:induction false} CompilerPrecise(fns: seq<FnDecl>, pkg: Package, img: Image, s: State, d: nat, n: nat)
    requires Built(fns, pkg, img) && pkg.runtime == "tiny"
    requires Ready(s, 0, CallRoom(fns, d + 1))
    requires Terminates(RunMain(Source(fns, img), Unspecified, d, n))
    ensures exists t :: Reaches(img, s, t) && !t.status.Running?
    ensures forall t :: Reaches(img, s, t) && !t.status.Running? ==> Finishes(s, t, RunMain(Source(fns, img), Unspecified, d, n))
  {
    hide Built, RunMain, Reaches, Definite;
    var u, z := DefiniteSimulated(fns, pkg, img, s, d, n);
    RunSettles(Source(fns, img), z, d, n);
    forall t | Reaches(img, s, t) && !t.status.Running?
      ensures Finishes(s, t, RunMain(Source(fns, img), Unspecified, d, n))
    {
      StoppedIsUnique(img, s, t, u);
    }
  }

  // ----- without a premise that the source terminates -----

  /** A run of `main` that shows why the machine stopped so, or that has no meaning for one of the reasons that the
      checker leaves. */
  ghost predicate Explains(s: State, t: State, r: Res<Word>) {
    Finishes(s, t, r) || (r.Stuck? && Tolerated(true, r.why))
  }

  /** Every way the machine stops is that of a source run: of one within bounds as large as the number of its steps.
      The depth bound may be smaller where no run comes to it. */
  lemma {:induction false} EveryStopIsMeant(fns: seq<FnDecl>, pkg: Package, img: Image, s: State, steps: nat, d: nat, n: nat)
    requires Built(fns, pkg, img) && pkg.runtime == "tiny" && pkg.executable
    requires Ready(s, 0, CallRoom(fns, d + 1)) && !Run(img, s, steps).status.Running?
    requires steps <= n && (steps <= d || forall z :: Definite(z) ==> RunMain(Source(fns, img), z, d, n) != OutOfFuel(true))
    ensures exists z :: Definite(z) && Explains(s, Run(img, s, steps), RunMain(Source(fns, img), z, d, n))
  {
    var u, z := DefiniteSimulated(fns, pkg, img, s, d, n);
    AcceptedRunsHaveMeaning(fns, pkg, img, z, d, n);
    hide Accepts, Supportable, ProgramCode, RunMain, Definite, Run, Tolerated;
    var r := RunMain(Source(fns, img), z, d, n);
    if r.OutOfFuel? {
      LastsFewer(img, s, if r.deep then d else n, steps);
    } else if Terminates(r) {
      assert Reaches(img, s, Run(img, s, steps));
      StoppedIsUnique(img, s, Run(img, s, steps), u);
    }
  }

  /** Where the source runs for ever at some depth, the machine never stops. */
  lemma {:induction false} NeverStops(fns: seq<FnDecl>, pkg: Package, img: Image, s: State, steps: nat, d: nat)
    requires Built(fns, pkg, img) && pkg.runtime == "tiny"
    requires Ready(s, 0, CallRoom(fns, d + 1))
    requires forall z, n :: Definite(z) ==> RunMain(Source(fns, img), z, d, n) == OutOfFuel(false)
    ensures Run(img, s, steps).status.Running?
  {
    hide Built, RunMain, Definite, Run;
    var _, z := DefiniteSimulated(fns, pkg, img, s, d, steps);
  }

  /** A run of an accepted executable has a meaning, unless it meets a literal past 64 bits or a node of a failed parse,
      or calls one of the two undefined built-ins, or reads a local before its declaration has executed where what the
      frames hold is not known. */
  lemma {:induction false} AcceptedRunsHaveMeaning(fns: seq<FnDecl>, pkg: Package, img: Image, z: Residue, d: nat, n: nat)
    requires Accepts(fns, pkg) && NoBuiltins(fns) && pkg.executable && (z.Unspecified? || Definite(z))
    ensures var r := RunMain(Source(fns, img), z, d, n); r.Stuck? ==> Tolerated(!z.Unspecified?, r.why)
  {
    hide Accepts, WellChecked, CallFn, FnDiags, SigOf, FnSlots, MainDiags, Valid;
    AcceptedIsChecked(fns, pkg, img);
    MainDeclared(fns, pkg);
    FnSound(Source(fns, img), z, GlobalsOf(fns, pkg), "main", [], d, n);
    LiteralsFound(Source(fns, img), z, "main", [], d, n);
  }

  /** A run of an accepted executable that gives every local a value before reading it, as its text shows, never
      lacks a meaning for an early read, at any bounds. */
  lemma {:induction false} InitialisedRunsHaveMeaning(fns: seq<FnDecl>, pkg: Package, img: Image, d: nat, n: nat)
    requires Accepts(fns, pkg) && NoBuiltins(fns) && pkg.executable && Initialises(fns)
    ensures var r := RunMain(Source(fns, img), Unspecified, d, n); r.Stuck? ==> Tolerated(true, r.why)
  {
    hide Accepts, CallFn, Initialises;
    AcceptedRunsHaveMeaning(fns, pkg, img, Unspecified, d, n);
    LookupFinds(fns, "mem.alloc", 0);
    CallInitialised(Source(fns, img), Unspecified, "main", [], d, n);
  }

  lemma {:induction false} MainDeclared(fns: seq<FnDecl>, pkg: Package)
    requires Accepts(fns, pkg) && pkg.executable
    ensures "main" in GlobalsOf(fns, pkg).sigs && GlobalsOf(fns, pkg).sigs["main"] == FnSig([], "i32", false)
  {
    Accepted(fns, pkg);
  }

  /** One call, seen from its caller, which finds in its frame what memory holds below the caller's stack: the result
      is in rax, both frame registers are restored, memory from the stack pointer up is untouched, and only the
      callee's writes were made; or it goes on as long as the bound that the source met. */
  lemma {:induction false} CallSimulated(fns: seq<FnDecl>, pkg: Package, img: Image, name: string, ws: seq<Word>, s: State, d: nat, n: nat)
    returns (z: Residue)
    requires Built(fns, pkg, img) && |ws| <= MAX_REG_ARGS && InRegs(s, 0, ws)
    requires s.pc < |img.code| && img.code[s.pc] == CallTo(FnLabel(name)) && Ready(s, s.pc, CallRoom(fns, d + 1))
    ensures Held(Loaded(fns, pkg, img), s, z) && FramedFirst(Loaded(fns, pkg, img), name, ws, s, z)
    ensures match CallFn(Source(fns, img), z, name, ws, d, n)
      case Ok(v, out) =>
        exists t :: && Reaches(img, s, t) && t.status.Running? && t.pc == s.pc + 1 && t.rax == v && t.trace == s.trace + out
                    && t.rsp == s.rsp && t.rbp == s.rbp && forall a: int :: a >= s.rsp ==> Peek(t.mem, a) == Peek(s.mem, a)
      case Trap(out) => exists t :: Reaches(img, s, t) && t.status.DivideTrap? && t.trace == s.trace + out
      case Stuck(why) => !why.Uninitialised?
      case OutOfFuel(deep) => Lasts(img, s, if deep then d + 1 else n)
  {
    hide Built, CallFn, Valid, Reaches, Held, FramedFirst, Lasts;
    BuiltIsValid(fns, pkg, img);
    var t;
    t, z := SimCallSite(Loaded(fns, pkg, img), name, ws, d, n, s);
    assert ExprDone(img, d + 1, n, s, t, s.pc + 1, CallFn(Source(fns, img), z, name, ws, d, n));
  }

  /** On checked operands the emitted bitwise `and` and `or` are the strict logical ones, in runs that read no local
      before its declaration has executed. */
  lemma {:induction false} LogicalOperators(fns: seq<FnDecl>, pkg: Package, img: Image, cx: Ctx, sc: Scope, all: Vars, e: Expr, store: Store,
      sn: nat, d: nat, n: nat)
    requires Accepts(fns, pkg) && NoBuiltins(fns) && cx.residue.Unspecified? && At(cx, sc) && Within(sc, all) && StoreOk(false, all, store)
    requires e.Binary? && (e.op.And? || e.op.Or?) && TypeOf(GlobalsOf(fns, pkg), sc, e).diags == []
    requires EvalExpr(Source(fns, img), cx, e, store, sn, d, n).Ok?
    ensures var p := Source(fns, img);
      var a, b := EvalExpr(p, cx.First(), e.left, store, sn, d, n), EvalExpr(p, cx.Second(), e.right, store, sn + |Strings(e.left)|, d, n);
      && a.Ok? && b.Ok? && a.v in {0, 1} && b.v in {0, 1}
      && EvalExpr(p, cx, e, store, sn, d, n).v == Bool(if e.op.And? then a.v == 1 && b.v == 1 else a.v == 1 || b.v == 1)
  {
    hide Accepts, Valid, WellChecked, TypeOf, EvalExpr, Within, StoreOk, GlobalsOf, WordAnd, WordOr;
    var p, g := Source(fns, img), GlobalsOf(fns, pkg);
    AcceptedIsChecked(fns, pkg, img);
    BinaryParts(p, cx, g, sc, e, store, sn, d, n);
    AtParts(cx, sc);
    ExprSound(p, cx.First(), g, sc, all, e.left, store, sn, d, n);
    var a := EvalExpr(p, cx.First(), e.left, store, sn, d, n);
    if a.Ok? {
      ExprSound(p, cx.Second(), g, sc, all, e.right, store, sn + |Strings(e.left)|, d, n);
      var b := EvalExpr(p, cx.Second(), e.right, store, sn + |Strings(e.left)|, d, n);
      if b.Ok? {
        BoolAndOr(a.v, b.v);
      }
    }
  }
}
