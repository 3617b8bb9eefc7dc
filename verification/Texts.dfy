/** What a compilation means for the text it starts from. */
module Texts {
  import opened Ast
  import opened Tokens
  import opened Words
  import opened Machine
  import opened Semantics
  import opened Emission
  import opened Labels
  import opened Checking
  import opened SimBase
  import opened Soundness
  import opened Correctness
  import opened QuietParsing
  import opened Driver
  import Lexing
  import Parsing
  import Assembling
  import Values

  // ----- what the lexer and the parser leave -----

  lemma {:induction false} TilesEndOnce(b: string, i: nat, ts: seq<Token>)
    requires Lexing.Tiles(b, i, ts)
    ensures EndsOnce(ts)
    decreases |ts|
  {
    if |ts| > 1 {
      TilesEndOnce(b, ts[0].span.end.byte, ts[1..]);
      forall k | 0 <= k < |ts| - 1
        ensures ts[k].kind != Eof
      {
        if k > 0 {
          assert ts[k] == ts[1..][k - 1];
        }
      }
    }
  }

  /** For the tokens of any text: while the parser reports nothing, it hangs exactly when an `unsafe` that no `fn`
      follows stands outside every body. */
  lemma {:induction false} TextHangs(b: string)
    requires Lexing.Lex(b).Lexed? && Parsing.Stream(Lexing.Lex(b).tokens)
    ensures var ts := Lexing.Lex(b).tokens;
      Silent(ts, Parsing.Skip(ts, Parsing.St(0, []))) ==> (Parsing.Parse(ts).Hangs? <==> StrayOutside(ts, 0))
  {
    hide Lexing.LexFrom, Lexing.Tiles, Silent, StrayOutside, EndsOnce, Parsing.ItemsFrom, Parsing.Skip;
    var ts := Lexing.Lex(b).tokens;
    var s := Parsing.Skip(ts, Parsing.St(0, []));
    Lexing.LexTiles(b, 0);
    TilesEndOnce(b, 0, ts);
    FromStart(ts);
    if Silent(ts, s) {
      SilentHangs(ts, s);
    }
  }

  predicate IsName(x: string) {
    forall k :: 0 <= k < |x| ==> IsIdentRest(x[k])
  }

  ghost predicate NamesLexed(ts: seq<Token>) {
    forall k :: 0 <= k < |ts| && ts[k].kind == TokenKind.Ident ==> IsName(ts[k].lexeme)
  }

  lemma {:induction false} SkipsIdent(b: string, i: nat)
    requires i <= |b|
    ensures forall k :: i <= k < Lexing.SkipIdent(b, i) ==> IsIdentRest(b[k])
    decreases |b| - i
  {
    if i < |b| && IsIdentRest(b[i]) {
      SkipsIdent(b, i + 1);
    }
  }

  lemma {:induction false} PieceNamed(b: string, i: nat)
    requires i < |b| && Lexing.PieceAt(b, i).Piece? && Lexing.PieceAt(b, i).kind == TokenKind.Ident
    ensures IsName(b[i..Lexing.PieceAt(b, i).end])
  {
    hide Lexing.SkipIdent, Lexing.ScanInt, Lexing.ScanString, Lexing.SkipByteLit, Lexing.SkipBlockComment, Lexing.SkipLine;
    SkipsIdent(b, i + 1);
  }

  lemma {:induction false} LexNames(b: string, i: nat)
    requires i <= |b| && Lexing.LexFrom(b, i).Lexed?
    ensures NamesLexed(Lexing.LexFrom(b, i).tokens)
    decreases |b| - i
  {
    hide Lexing.PieceAt, IsName;
    if i < |b| {
      match Lexing.PieceAt(b, i)
      case Blank => LexNames(b, i + 1);
      case Piece(kind, end, _) =>
        LexNames(b, end);
        if kind == TokenKind.Ident {
          PieceNamed(b, i);
        }
        assert Lexing.LexFrom(b, i).tokens[1..] == Lexing.LexFrom(b, end).tokens;
    }
  }

  ghost predicate ItemNamed(item: Option<Item>) {
    item.Some? && item.value.Fn? ==> IsName(item.value.decl.name)
  }

  lemma {:induction false} ItemStepNamed(ts: seq<Token>, s: Parsing.St)
    requires Parsing.On(ts, s) && NamesLexed(ts)
    ensures ItemNamed(Parsing.ItemStep(ts, s).item)
  {
    hide IsName, Parsing.ParseBlock, Parsing.ParseParams, Parsing.Skip, Parsing.SyncItem, Parsing.ParseTypeRef, Parsing.ParsePath, Parsing.EndBlock;
  }

  ghost predicate NamesPlain(items: seq<Item>) {
    forall it :: it in items && it.Fn? ==> IsName(it.decl.name)
  }

  lemma {:induction false} ItemsNamed(ts: seq<Token>, s: Parsing.St)
    requires Parsing.On(ts, s) && NamesLexed(ts) && Parsing.ItemsFrom(ts, s).Parsed?
    ensures NamesPlain(Parsing.ItemsFrom(ts, s).items)
    decreases |ts| - s.i
  {
    hide Parsing.ItemStep, IsName, NamesLexed;
    if Parsing.Kind(ts, s) != Eof {
      ItemStepNamed(ts, s);
      ItemsNamed(ts, Parsing.ItemStep(ts, s).s);
    }
  }

  lemma {:induction false} FunctionOf(items: seq<Item>, f: FnDecl)
    requires f in Functions(items)
    ensures Fn(f) in items
    decreases items
  {
    if !(items[0].Fn? && items[0].decl == f) {
      FunctionOf(items[1..], f);
    }
  }

  /** The functions of a text have names that no built-in has, and bodies without error nodes. */
  lemma {:induction false} TextFunctions(b: string, items: seq<Item>)
    requires ParsesTo(b, items)
    ensures NoBuiltins(Functions(items))
    ensures forall f :: f in Functions(items) ==> BlockWhole(f.body)
  {
    hide Lexing.LexFrom, Parsing.ItemsFrom, Parsing.Skip, BlockWhole, NamesLexed, IsName, Functions;
    var ts := Lexing.Lex(b).tokens;
    LexNames(b, 0);
    ItemsNamed(ts, Parsing.Skip(ts, Parsing.St(0, [])));
    ParsedWhole(ts);
    forall f | f in Functions(items)
      ensures IsName(f.name) && BlockWhole(f.body)
    {
      FunctionOf(items, f);
    }
    BuiltinsAreNoNames();
  }

  lemma {:induction false} BuiltinsAreNoNames()
    ensures !IsName("io.write") && !IsName("core/io.write") && !IsName("mem.alloc")
  {
    assert "io.write"[2] == '.' && "core/io.write"[4] == '/' && "mem.alloc"[3] == '.';
  }

  // ----- from text to run -----

  /** What the generator needs beyond acceptance of a text. */
  ghost predicate TextSupportable(items: seq<Item>, pkg: Package) {
    Regular(Functions(items)) && StartIsFree(Functions(items), pkg)
  }

  /** The text compiles to the code that is loaded. */
  ghost predicate Loads(b: string, items: seq<Item>, pkg: Package, img: Image) {
    && ParsesTo(b, items) && Compiles(b, pkg, Assembly(img.code, ProgramStrings(Functions(items))))
    && |img.code| < TWO64
  }

  lemma {:induction false} LoadedIsBuilt(b: string, items: seq<Item>, pkg: Package, img: Image)
    requires Loads(b, items, pkg, img)
    ensures Accepts(Functions(items), pkg) && img.code == ProgramCode(Functions(items), pkg)
    ensures TextSupportable(items, pkg) ==> Built(Functions(items), pkg, img)
  {
    hide Lexing.LexFrom, Parsing.Parse, Accepts, Regular, StartIsFree, ProgramCode, ProgramStrings, ProgramDiags, BlockWhole, NoBuiltins;
    TextFunctions(b, items);
  }

  /** From text to run: the code that compiling a text yields, loaded and started, does what the program means, if
      that terminates whatever the frames hold. */
  lemma {:induction false} TextRunsAsMeant(b: string, items: seq<Item>, pkg: Package, img: Image, s: State, d: nat, n: nat)
    requires Loads(b, items, pkg, img) && TextSupportable(items, pkg) && pkg.runtime == "tiny"
    requires Ready(s, 0, CallRoom(Functions(items), d + 1))
    requires forall z :: Definite(z) ==> Terminates(RunMain(Source(Functions(items), img), z, d, n))
    ensures exists t :: Reaches(img, s, t) && !t.status.Running?
    ensures forall t :: Reaches(img, s, t) && !t.status.Running? ==>
      exists z :: Definite(z) && Finishes(s, t, RunMain(Source(Functions(items), img), z, d, n))
  {
    hide Loads, Built, TextSupportable, RunMain, Reaches, Definite, Ready, Finishes, Functions, CallRoom;
    LoadedIsBuilt(b, items, pkg, img);
    CompilerCorrect(Functions(items), pkg, img, s, d, n);
  }

  /** And exactly that, where no local is read before its declaration has executed. */
  lemma {:induction false} TextRunsExactly(b: string, items: seq<Item>, pkg: Package, img: Image, s: State, d: nat, n: nat)
    requires Loads(b, items, pkg, img) && TextSupportable(items, pkg) && pkg.runtime == "tiny"
    requires Ready(s, 0, CallRoom(Functions(items), d + 1))
    requires Terminates(RunMain(Source(Functions(items), img), Unspecified, d, n))
    ensures exists t :: Reaches(img, s, t) && !t.status.Running?
    ensures forall t :: Reaches(img, s, t) && !t.status.Running? ==>
      Finishes(s, t, RunMain(Source(Functions(items), img), Unspecified, d, n))
  {
    hide Loads, Built, TextSupportable, RunMain, Reaches, Definite, Ready, Finishes, Functions, CallRoom;
    LoadedIsBuilt(b, items, pkg, img);
    CompilerPrecise(Functions(items), pkg, img, s, d, n);
  }

  /** A run of a compiled executable has a meaning unless it meets a literal past 64 bits, calls an undefined
      built-in, or reads a local before its declaration has executed where what the frames hold is not known. */
  lemma {:induction false} TextRunsHaveMeaning(b: string, items: seq<Item>, pkg: Package, img: Image, z: Residue, d: nat, n: nat)
    requires Loads(b, items, pkg, img) && pkg.executable && (z.Unspecified? || Definite(z))
    ensures var r := RunMain(Source(Functions(items), img), z, d, n);
      r.Stuck? ==> Tolerated(!z.Unspecified?, r.why) && !r.why.NotAValue?
  {
    hide Loads, Accepts, Regular, BlockWhole, CallFn, ProgramCode, Functions, Definite, Tolerated;
    LoadedIsBuilt(b, items, pkg, img);
    assert ParsesTo(b, items) by { LoadsParses(b, items, pkg, img); }
    TextFunctions(b, items);
    AcceptedRunsHaveMeaning(Functions(items), pkg, img, z, d, n);
    Values.WholeRunsMeet(false, Functions(items), pkg, Source(Functions(items), img), z, "main", [], d, n);
  }

  lemma {:induction false} LoadsParses(b: string, items: seq<Item>, pkg: Package, img: Image)
    requires Loads(b, items, pkg, img)
    ensures ParsesTo(b, items)
  {
    hide ParsesTo, Compiles;
  }

  // ----- without a premise that the program terminates -----

  /** No literal past 64 bits, no `mem.alloc` and no `core/io.write`, anywhere in the text. */
  ghost predicate Plain(items: seq<Item>) {
    forall f :: f in Functions(items) ==> Values.FnPlain(f)
  }

  lemma {:induction false} PlainRunsMean(b: string, items: seq<Item>, pkg: Package, img: Image, z: Residue, d: nat, n: nat)
    requires Loads(b, items, pkg, img) && pkg.executable && Definite(z) && Plain(items)
    ensures !RunMain(Source(Functions(items), img), z, d, n).Stuck?
  {
    hide Loads, Accepts, Built, TextSupportable, BlockWhole, CallFn, ProgramCode, Functions, Definite, Values.FnPlain, Tolerated, Values.Barred,
      ParsesTo, NoBuiltins, FnNames;
    LoadedIsBuilt(b, items, pkg, img);
    LoadsParses(b, items, pkg, img);
    TextFunctions(b, items);
    AcceptedRunsHaveMeaning(Functions(items), pkg, img, z, d, n);
    NamesNoBuiltin(Functions(items));
    DefiniteSays(z);
    Values.WholeRunsMeet(true, Functions(items), pkg, Source(Functions(items), img), z, "main", [], d, n);
    var r := RunMain(Source(Functions(items), img), z, d, n);
    if r.Stuck? {
      ToleratedIsBarred(r.why);
    }
  }

  lemma {:induction false} DefiniteSays(z: Residue)
    requires Definite(z)
    ensures !z.Unspecified?
  {}

  lemma {:induction false} NamesNoBuiltin(fns: seq<FnDecl>)
    requires NoBuiltins(fns)
    ensures "main" !in Assembling.UNDEFINED && "mem.alloc" !in FnNames(fns)
  {
    hide FnNames;
  }

  lemma {:induction false} ToleratedIsBarred(why: Reason)
    requires Tolerated(true, why)
    ensures Values.Barred(true, why)
  {}

  /** Whatever the machine does in a number of steps with the code of a plain text, it does as meant: if it stops, then
      as a run of the program does within bounds as large. Nothing is supposed of the program's ending. */
  lemma {:induction false} TextStopsAsMeant(b: string, items: seq<Item>, pkg: Package, img: Image, s: State, steps: nat)
    requires Loads(b, items, pkg, img) && TextSupportable(items, pkg) && Plain(items) && pkg.runtime == "tiny" && pkg.executable
    requires Ready(s, 0, CallRoom(Functions(items), steps + 1)) && !Run(img, s, steps).status.Running?
    ensures exists z :: Definite(z) && Finishes(s, Run(img, s, steps), RunMain(Source(Functions(items), img), z, steps, steps))
  {
    hide Loads, Built, TextSupportable, RunMain, Definite, Ready, Finishes, Functions, CallRoom, Run, Plain;
    LoadedIsBuilt(b, items, pkg, img);
    EveryStopIsMeant(Functions(items), pkg, img, s, steps, steps, steps);
    var z :| Definite(z) && Explains(s, Run(img, s, steps), RunMain(Source(Functions(items), img), z, steps, steps));
    PlainRunsMean(b, items, pkg, img, z, steps, steps);
  }

  /** And in reverse: while no run of the program has ended within bounds as large as a number of steps, the machine
      has not stopped after them. */
  lemma {:induction false} TextGoesOn(b: string, items: seq<Item>, pkg: Package, img: Image, s: State, steps: nat)
    requires Loads(b, items, pkg, img) && TextSupportable(items, pkg) && Plain(items) && pkg.runtime == "tiny" && pkg.executable
    requires Ready(s, 0, CallRoom(Functions(items), steps + 1))
    requires forall z :: Definite(z) ==> !Terminates(RunMain(Source(Functions(items), img), z, steps, steps))
    ensures Run(img, s, steps).status.Running?
  {
    hide Loads, TextSupportable, RunMain, Definite, Ready, Functions, CallRoom, Run, Plain;
    if !Run(img, s, steps).status.Running? {
      TextStopsAsMeant(b, items, pkg, img, s, steps);
    }
  }
}
