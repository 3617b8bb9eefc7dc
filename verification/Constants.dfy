/** String constants: every literal of a program is the address of its own bytes. */
module Constants {
  import opened Ast
  import opened Words
  import opened Machine
  import opened Semantics
  import opened Emission
  import opened Linking

  // ----- where the constants of a part stand among all -----

  ghost predicate Stands(strings: seq<string>, sn: nat, part: seq<string>) {
    sn + |part| <= |strings| && strings[sn..sn + |part|] == part
  }

  lemma {:induction false} StandsBoth(strings: seq<string>, sn: nat, a: seq<string>, b: seq<string>)
    requires Stands(strings, sn, a + b)
    ensures Stands(strings, sn, a) && Stands(strings, sn + |a|, b)
  {
    var all := strings[sn..sn + |a + b|];
    assert all[..|a|] == strings[sn..sn + |a|] && all[|a|..] == strings[sn + |a|..sn + |a| + |b|];
  }

  /** Each function that is called by its name finds its own constants. */
  ghost predicate Numbered(p: Program) {
    forall name :: Lookup(p.fns, name, 0).Some? ==>
      var l := Lookup(p.fns, name, 0).value; Stands(p.strings, l.strBase, BlockStrings(l.decl.body))
  }

  lemma {:induction false} LookupStands(strings: seq<string>, fns: seq<FnDecl>, name: string, sn: nat)
    requires Stands(strings, sn, ProgramStrings(fns)) && Lookup(fns, name, sn).Some?
    ensures var l := Lookup(fns, name, sn).value; Stands(strings, l.strBase, BlockStrings(l.decl.body))
    decreases fns
  {
    hide Stands;
    StandsBoth(strings, sn, BlockStrings(fns[0].body), ProgramStrings(fns[1..]));
    if fns[0].name != name {
      LookupStands(strings, fns[1..], name, sn + |BlockStrings(fns[0].body)|);
    }
  }

  lemma {:induction false} ProgramNumbered(p: Program)
    requires p.strings == ProgramStrings(p.fns)
    ensures Numbered(p)
  {
    assert p.strings[0..|p.strings|] == p.strings;
    forall name | Lookup(p.fns, name, 0).Some?
      ensures var l := Lookup(p.fns, name, 0).value; Stands(p.strings, l.strBase, BlockStrings(l.decl.body))
    {
      LookupStands(p.strings, p.fns, name, 0);
    }
  }

  // ----- runs -----

  /** No literal was found to stand for other bytes than its own. */
  predicate Finds<T>(r: Res<T>) {
    r.Stuck? ==> !r.why.Misplaced?
  }

  lemma {:induction false} ExprFinds(p: Program, cx: Ctx, e: Expr, store: Store, sn: nat, d: nat, n: nat)
    requires Numbered(p) && Stands(p.strings, sn, Strings(e))
    ensures Finds(EvalExpr(p, cx, e, store, sn, d, n))
    decreases d, 0, n, e, 1
  {
    hide Numbered, Stands, EvalArgs, CallFn, Lookup, EvalBinary;
    match e
    case StrLit(bytes) => LiteralFinds(p, cx, bytes, store, sn, d, n);
    case Ident(name) =>
      if d > 0 {
        CallFinds(p, cx.residue, name, [], d - 1, n);
      }
    case Unary(_, x) => ExprFinds(p, cx, x, store, sn, d, n);
    case Binary(_, l, r) =>
      StandsBoth(p.strings, sn, Strings(l), Strings(r));
      ExprFinds(p, cx.First(), l, store, sn, d, n);
      ExprFinds(p, cx.Second(), r, store, sn + |Strings(l)|, d, n);
    case Call(_, args) =>
      ArgsFind(p, cx.First(), args, store, sn, d, n);
      var r := EvalArgs(p, cx.First(), args, store, sn, d, n);
      if r.Ok? && d > 0 {
        CallFinds(p, cx.Second().residue, e.callee.Display(), r.v, d - 1, n);
      }
    case _ =>
  }

  lemma {:induction false} LiteralFinds(p: Program, cx: Ctx, bytes: string, store: Store, sn: nat, d: nat, n: nat)
    requires Stands(p.strings, sn, Strings(StrLit(bytes)))
    ensures Finds(EvalExpr(p, cx, StrLit(bytes), store, sn, d, n))
  {
    assert p.strings[sn] == p.strings[sn..sn + 1][0];
  }

  lemma {:induction false} ArgsFind(p: Program, cx: Ctx, args: seq<Expr>, store: Store, sn: nat, d: nat, n: nat)
    requires Numbered(p) && Stands(p.strings, sn, ArgStrings(args))
    ensures Finds(EvalArgs(p, cx, args, store, sn, d, n))
    decreases d, 0, n, args
  {
    hide Numbered, Stands, EvalExpr;
    if args != [] {
      StandsBoth(p.strings, sn, Strings(args[0]), ArgStrings(args[1..]));
      ExprFinds(p, cx.First(), args[0], store, sn, d, n);
      ArgsFind(p, cx.Second(), args[1..], store, sn + |Strings(args[0])|, d, n);
    }
  }

  lemma {:induction false} CallFinds(p: Program, z: Residue, name: string, ws: seq<Word>, d: nat, n: nat)
    requires Numbered(p)
    ensures Finds(CallFn(p, z, name, ws, d, n))
    decreases d, 1
  {
    hide Stands, ExecBlock, EntryStore, Lookup;
    match Lookup(p.fns, name, 0)
    case None =>
    case Some(f) =>
      if |f.decl.params| == |ws| {
        BlockFinds(p, EntryCtx(f.decl, z), f.decl.body, EntryStore(f.decl, ws, z), f.strBase, d, n);
      }
  }

  lemma {:induction false} BlockFinds(p: Program, cx: Ctx, b: Block, store: Store, sn: nat, d: nat, n: nat)
    requires Numbered(p) && Stands(p.strings, sn, BlockStrings(b))
    ensures Finds(ExecBlock(p, cx, b, store, sn, d, n))
    decreases d, 0, n, b
  {
    hide Numbered, Stands, ExecStmt, StmtStrings;
    if b != [] {
      StandsBoth(p.strings, sn, StmtStrings(b[0]), BlockStrings(b[1..]));
      StmtFinds(p, cx.First(), b[0], store, sn, d, n);
      var first := ExecStmt(p, cx.First(), b[0], store, sn, d, n);
      if first.Ok? && first.v.Onward? {
        BlockFinds(p, cx.Second().Past(StmtNames(b[0])), b[1..], first.v.store, sn + |StmtStrings(b[0])|, d, n);
      }
    }
  }

  lemma {:induction false} StmtFinds(p: Program, cx: Ctx, s: Stmt, store: Store, sn: nat, d: nat, n: nat)
    requires Numbered(p) && Stands(p.strings, sn, StmtStrings(s))
    ensures Finds(ExecStmt(p, cx, s, store, sn, d, n))
    decreases d, 0, n, s, 1
  {
    hide Numbered, Stands, ExecBlock, EvalExpr, Strings, BlockStrings;
    match s
    case Let(_, _, e) => ExprFinds(p, cx, e, store, sn, d, n);
    case Mut(_, _, e) => ExprFinds(p, cx, e, store, sn, d, n);
    case Assign(_, e) => ExprFinds(p, cx, e, store, sn, d, n);
    case Ret(Some(e)) => ExprFinds(p, cx, e, store, sn, d, n);
    case ExprStmt(e) => ExprFinds(p, cx, e, store, sn, d, n);
    case UnsafeBlock(b) => BlockFinds(p, cx, b, store, sn, d, n);
    case If(_, _, _) => IfFinds(p, cx, s, store, sn, d, n);
    case Loop(_) => LoopFinds(p, cx, s, store, sn, d, n);
    case While(_, _) => WhileFinds(p, cx, s, store, sn, d, n);
    case _ =>
  }

  lemma {:induction false} IfFinds(p: Program, cx: Ctx, s: Stmt, store: Store, sn: nat, d: nat, n: nat)
    requires s.If? && Numbered(p) && Stands(p.strings, sn, StmtStrings(s))
    ensures Finds(ExecStmt(p, cx, s, store, sn, d, n))
    decreases d, 0, n, s, 0
  {
    hide Numbered, Stands, ExecBlock, EvalExpr, Strings, BlockStrings, BlockNames;
    var sn' := sn + |Strings(s.cond)|;
    StandsBoth(p.strings, sn, Strings(s.cond) + BlockStrings(s.thenBlock), ArmStrings(s.elseArm));
    StandsBoth(p.strings, sn, Strings(s.cond), BlockStrings(s.thenBlock));
    ExprFinds(p, cx.First(), s.cond, store, sn, d, n);
    BlockFinds(p, cx.Second(), s.thenBlock, store, sn', d, n);
    if s.elseArm.Else? {
      BlockFinds(p, cx.Second().Past(BlockNames(s.thenBlock)), s.elseArm.block, store, sn' + |BlockStrings(s.thenBlock)|, d, n);
    }
  }

  lemma {:induction false} LoopFinds(p: Program, cx: Ctx, s: Stmt, store: Store, sn: nat, d: nat, n: nat)
    requires s.Loop? && Numbered(p) && Stands(p.strings, sn, StmtStrings(s))
    ensures Finds(ExecStmt(p, cx, s, store, sn, d, n))
    decreases d, 0, n, s, 0
  {
    hide Numbered, Stands, ExecBlock, BlockStrings;
    BlockFinds(p, cx.First(), s.body, store, sn, d, n);
    var r := ExecBlock(p, cx.First(), s.body, store, sn, d, n);
    if n > 0 && r.Ok? && (r.v.Onward? || r.v.Continued?) {
      StmtFinds(p, cx.Second(), s, r.v.store, sn, d, n - 1);
    }
  }

  lemma {:induction false} WhileFinds(p: Program, cx: Ctx, s: Stmt, store: Store, sn: nat, d: nat, n: nat)
    requires s.While? && Numbered(p) && Stands(p.strings, sn, StmtStrings(s))
    ensures Finds(ExecStmt(p, cx, s, store, sn, d, n))
    decreases d, 0, n, s, 0
  {
    hide Numbered, Stands, ExecBlock, EvalExpr, Strings, BlockStrings;
    StandsBoth(p.strings, sn, Strings(s.cond), BlockStrings(s.body));
    var sn' := sn + |Strings(s.cond)|;
    ExprFinds(p, cx.First(), s.cond, store, sn, d, n);
    BlockFinds(p, cx.Second().First(), s.body, store, sn', d, n);
    var r := ExecBlock(p, cx.Second().First(), s.body, store, sn', d, n);
    if n > 0 && r.Ok? && (r.v.Onward? || r.v.Continued?) {
      StmtFinds(p, cx.Second().Second(), s, r.v.store, sn, d, n - 1);
    }
  }

  /** No run of a program meets a literal whose constant is not its own bytes. */
  lemma {:induction false} LiteralsFound(p: Program, z: Residue, name: string, ws: seq<Word>, d: nat, n: nat)
    requires p.strings == ProgramStrings(p.fns)
    ensures Finds(CallFn(p, z, name, ws, d, n))
  {
    hide CallFn, Numbered;
    ProgramNumbered(p);
    CallFinds(p, z, name, ws, d, n);
  }

  // ----- what is written -----

  /** Memory with the constants in it, each at its address. */
  ghost predicate Laid(strings: seq<string>, stringAt: nat -> Word, data: int -> char) {
    forall k, j :: 0 <= k < |strings| && 0 <= j < |strings[k]| ==> data(stringAt(k) + j) == strings[k][j]
  }

  /** The bytes that a write puts out. */
  function Shown(data: int -> char, e: Event): string
    requires e.Write?
  {
    seq(e.len, j requires 0 <= j < e.len => data(e.buf + j))
  }

  /** Writing a literal with a length up to its own puts out that many of its bytes. */
  lemma {:induction false} WriteShows(p: Program, data: int -> char, cx: Ctx, callee: Path, fd: Expr, bytes: string, len: nat, store: Store, sn: nat, d: nat, n: nat)
    requires Laid(p.strings, p.stringAt, data) && callee.Display() == "io.write" && len <= |bytes|
    requires EvalExpr(p, cx, Call(callee, [fd, StrLit(bytes), IntLit(len)]), store, sn, d, n).Ok?
    ensures var out := EvalExpr(p, cx, Call(callee, [fd, StrLit(bytes), IntLit(len)]), store, sn, d, n).out;
      out != [] && out[|out| - 1].Write? && Shown(data, out[|out| - 1]) == bytes[..len]
  {
    hide CallFn, Lookup, EvalArgs;
    var args := [fd, StrLit(bytes), IntLit(len)];
    WriteWords(p, cx.First(), fd, bytes, len, store, sn, d, n);
  }

  /** The address and the length of what is written. */
  lemma {:induction false} WriteWords(p: Program, cx: Ctx, fd: Expr, bytes: string, len: nat, store: Store, sn: nat, d: nat, n: nat)
    requires EvalArgs(p, cx, [fd, StrLit(bytes), IntLit(len)], store, sn, d, n).Ok?
    ensures var r, k := EvalArgs(p, cx, [fd, StrLit(bytes), IntLit(len)], store, sn, d, n), sn + |Strings(fd)|;
      |r.v| == 3 && k < |p.strings| && p.strings[k] == bytes && r.v[1] == p.stringAt(k) && r.v[2] == len
  {
    hide CallFn, Lookup;
    var args := [fd, StrLit(bytes), IntLit(len)];
    assert args[1..] == [StrLit(bytes), IntLit(len)] && args[1..][1..] == [IntLit(len)] && args[1..][1..][1..] == [];
    ArgsWords(p, cx, args, store, sn, d, n);
    ArgsWords(p, cx.Second(), args[1..], store, sn + |Strings(fd)|, d, n);
  }

  lemma {:induction false} ArgsWords(p: Program, cx: Ctx, args: seq<Expr>, store: Store, sn: nat, d: nat, n: nat)
    requires args != [] && EvalArgs(p, cx, args, store, sn, d, n).Ok?
    ensures var r := EvalArgs(p, cx, args, store, sn, d, n);
      var first, rest := EvalExpr(p, cx.First(), args[0], store, sn, d, n), EvalArgs(p, cx.Second(), args[1..], store, sn + |Strings(args[0])|, d, n);
      first.Ok? && rest.Ok? && r.v == [first.v] + rest.v
  {
    hide EvalExpr;
  }

  // ----- the literals of a text, in order -----

  function LiteralCount(e: Expr): nat {
    match e
    case StrLit(_) => 1
    case Unary(_, x) => LiteralCount(x)
    case Binary(_, l, r) => LiteralCount(l) + LiteralCount(r)
    case Call(_, args) => ArgLiterals(args)
    case _ => 0
  }

  function ArgLiterals(args: seq<Expr>): nat {
    if args == [] then 0 else LiteralCount(args[0]) + ArgLiterals(args[1..])
  }

  /** Where the first literal of an expression is the n-th of the text, its k-th is that one. */
  predicate LiteralAt(e: Expr, n: nat, k: nat, bytes: string) {
    match e
    case StrLit(s) => k == n && s == bytes
    case Unary(_, x) => LiteralAt(x, n, k, bytes)
    case Binary(_, l, r) => LiteralAt(l, n, k, bytes) || LiteralAt(r, n + LiteralCount(l), k, bytes)
    case Call(_, args) => ArgLiteralAt(args, n, k, bytes)
    case _ => false
  }

  predicate ArgLiteralAt(args: seq<Expr>, n: nat, k: nat, bytes: string) {
    args != [] && (LiteralAt(args[0], n, k, bytes) || ArgLiteralAt(args[1..], n + LiteralCount(args[0]), k, bytes))
  }

  function StmtLiterals(s: Stmt): nat {
    match s
    case Let(_, _, e) => LiteralCount(e)
    case Mut(_, _, e) => LiteralCount(e)
    case Assign(_, e) => LiteralCount(e)
    case Ret(Some(e)) => LiteralCount(e)
    case If(c, t, NoElse) => LiteralCount(c) + BlockLiterals(t)
    case If(c, t, Else(b)) => LiteralCount(c) + BlockLiterals(t) + BlockLiterals(b)
    case Loop(b) => BlockLiterals(b)
    case While(c, b) => LiteralCount(c) + BlockLiterals(b)
    case UnsafeBlock(b) => BlockLiterals(b)
    case ExprStmt(e) => LiteralCount(e)
    case _ => 0
  }

  function BlockLiterals(b: Block): nat {
    if b == [] then 0 else StmtLiterals(b[0]) + BlockLiterals(b[1..])
  }

  predicate StmtLiteralAt(s: Stmt, n: nat, k: nat, bytes: string) {
    match s
    case Let(_, _, e) => LiteralAt(e, n, k, bytes)
    case Mut(_, _, e) => LiteralAt(e, n, k, bytes)
    case Assign(_, e) => LiteralAt(e, n, k, bytes)
    case Ret(Some(e)) => LiteralAt(e, n, k, bytes)
    case If(c, t, NoElse) => LiteralAt(c, n, k, bytes) || BlockLiteralAt(t, n + LiteralCount(c), k, bytes)
    case If(c, t, Else(b)) =>
      || LiteralAt(c, n, k, bytes) || BlockLiteralAt(t, n + LiteralCount(c), k, bytes)
      || BlockLiteralAt(b, n + LiteralCount(c) + BlockLiterals(t), k, bytes)
    case Loop(b) => BlockLiteralAt(b, n, k, bytes)
    case While(c, b) => LiteralAt(c, n, k, bytes) || BlockLiteralAt(b, n + LiteralCount(c), k, bytes)
    case UnsafeBlock(b) => BlockLiteralAt(b, n, k, bytes)
    case ExprStmt(e) => LiteralAt(e, n, k, bytes)
    case _ => false
  }

  predicate BlockLiteralAt(b: Block, n: nat, k: nat, bytes: string) {
    b != [] && (StmtLiteralAt(b[0], n, k, bytes) || BlockLiteralAt(b[1..], n + StmtLiterals(b[0]), k, bytes))
  }

  predicate FnsLiteralAt(fns: seq<FnDecl>, n: nat, k: nat, bytes: string) {
    fns != [] && (BlockLiteralAt(fns[0].body, n, k, bytes) || FnsLiteralAt(fns[1..], n + BlockLiterals(fns[0].body), k, bytes))
  }

  // ----- constants and literals -----

  /** In a list whose first entry is numbered n, the k-th is that one. */
  predicate Entry(strings: seq<string>, n: nat, k: nat, bytes: string) {
    n <= k < n + |strings| && strings[k - n] == bytes
  }

  lemma {:induction false} EntryBoth(a: seq<string>, b: seq<string>, n: nat, k: nat, bytes: string)
    ensures Entry(a + b, n, k, bytes) <==> Entry(a, n, k, bytes) || Entry(b, n + |a|, k, bytes)
  {}

  lemma {:induction false} ExprEntries(e: Expr, n: nat, k: nat, bytes: string)
    ensures |Strings(e)| == LiteralCount(e) && (LiteralAt(e, n, k, bytes) <==> Entry(Strings(e), n, k, bytes))
    decreases e
  {
    match e
    case Unary(_, x) => ExprEntries(x, n, k, bytes);
    case Binary(_, l, r) =>
      ExprEntries(l, n, k, bytes);
      ExprEntries(r, n + LiteralCount(l), k, bytes);
      EntryBoth(Strings(l), Strings(r), n, k, bytes);
    case Call(_, args) => ArgEntries(args, n, k, bytes);
    case _ =>
  }

  lemma {:induction false} ArgEntries(args: seq<Expr>, n: nat, k: nat, bytes: string)
    ensures |ArgStrings(args)| == ArgLiterals(args) && (ArgLiteralAt(args, n, k, bytes) <==> Entry(ArgStrings(args), n, k, bytes))
    decreases args
  {
    if args != [] {
      ExprEntries(args[0], n, k, bytes);
      ArgEntries(args[1..], n + LiteralCount(args[0]), k, bytes);
      EntryBoth(Strings(args[0]), ArgStrings(args[1..]), n, k, bytes);
    }
  }

  lemma {:induction false} StmtEntries(s: Stmt, n: nat, k: nat, bytes: string)
    ensures |StmtStrings(s)| == StmtLiterals(s) && (StmtLiteralAt(s, n, k, bytes) <==> Entry(StmtStrings(s), n, k, bytes))
    decreases s
  {
    hide Entry, Strings, LiteralCount, LiteralAt, BlockStrings, BlockLiterals, BlockLiteralAt;
    NoEntry(n, k, bytes);
    match s
    case Let(_, _, e) => ExprEntries(e, n, k, bytes);
    case Mut(_, _, e) => ExprEntries(e, n, k, bytes);
    case Assign(_, e) => ExprEntries(e, n, k, bytes);
    case Ret(Some(e)) => ExprEntries(e, n, k, bytes);
    case ExprStmt(e) => ExprEntries(e, n, k, bytes);
    case If(c, t, arm) => IfEntries(s, n, k, bytes);
    case Loop(b) => BlockEntries(b, n, k, bytes);
    case While(c, b) =>
      ExprEntries(c, n, k, bytes);
      BlockEntries(b, n + LiteralCount(c), k, bytes);
      EntryBoth(Strings(c), BlockStrings(b), n, k, bytes);
    case UnsafeBlock(b) => BlockEntries(b, n, k, bytes);
    case _ =>
  }

  lemma {:induction false} NoEntry(n: nat, k: nat, bytes: string)
    ensures !Entry([], n, k, bytes)
  {}

  lemma {:induction false} IfEntries(s: Stmt, n: nat, k: nat, bytes: string)
    requires s.If?
    ensures |StmtStrings(s)| == StmtLiterals(s) && (StmtLiteralAt(s, n, k, bytes) <==> Entry(StmtStrings(s), n, k, bytes))
    decreases s, 0
  {
    hide Entry, Strings, LiteralCount, LiteralAt, BlockStrings, BlockLiterals, BlockLiteralAt;
    var c, t := Strings(s.cond), BlockStrings(s.thenBlock);
    NoEntry(n + |c + t|, k, bytes);
    ExprEntries(s.cond, n, k, bytes);
    BlockEntries(s.thenBlock, n + |c|, k, bytes);
    EntryBoth(c, t, n, k, bytes);
    EntryBoth(c + t, ArmStrings(s.elseArm), n, k, bytes);
    if s.elseArm.Else? {
      BlockEntries(s.elseArm.block, n + |c| + |t|, k, bytes);
    }
  }

  lemma {:induction false} BlockEntries(b: Block, n: nat, k: nat, bytes: string)
    ensures |BlockStrings(b)| == BlockLiterals(b) && (BlockLiteralAt(b, n, k, bytes) <==> Entry(BlockStrings(b), n, k, bytes))
    decreases b
  {
    if b != [] {
      hide Entry, StmtStrings, StmtLiterals, StmtLiteralAt;
      StmtEntries(b[0], n, k, bytes);
      BlockEntries(b[1..], n + StmtLiterals(b[0]), k, bytes);
      EntryBoth(StmtStrings(b[0]), BlockStrings(b[1..]), n, k, bytes);
    }
  }

  /** The constants of a program are its literals, each once, in the order of the text. */
  lemma {:induction false} FnsEntries(fns: seq<FnDecl>, n: nat, k: nat, bytes: string)
    ensures FnsLiteralAt(fns, n, k, bytes) <==> Entry(ProgramStrings(fns), n, k, bytes)
    decreases fns
  {
    if fns != [] {
      hide Entry, BlockStrings, BlockLiterals, BlockLiteralAt;
      BlockEntries(fns[0].body, n, k, bytes);
      FnsEntries(fns[1..], n + BlockLiterals(fns[0].body), k, bytes);
      EntryBoth(BlockStrings(fns[0].body), ProgramStrings(fns[1..]), n, k, bytes);
    }
  }

  // ----- the constants that the code loads -----

  /** The code loads exactly so many constants, from the n-th on. */
  ghost predicate Loads(code: seq<Instr>, n: nat, count: nat) {
    forall k: nat :: LeaString(k) in code <==> n <= k < n + count
  }

  lemma {:induction false} LoadsBoth(a: seq<Instr>, b: seq<Instr>, n: nat, i: nat, j: nat)
    requires Loads(a, n, i) && Loads(b, n + i, j)
    ensures Loads(a + b, n, i + j)
  {}

  ghost predicate LoadsNone(code: seq<Instr>) {
    forall k: nat :: LeaString(k) !in code
  }

  lemma {:induction false} NoLoads(code: seq<Instr>, n: nat)
    ensures LoadsNone(code) <==> Loads(code, n, 0)
  {}

  lemma {:induction false} NothingLoads(n: nat)
    ensures Loads([], n, 0)
  {}

  /** Code that loads none changes nothing. */
  lemma {:induction false} LoadsAround(a: seq<Instr>, b: seq<Instr>, c: seq<Instr>, n: nat, i: nat)
    requires LoadsNone(a) && Loads(b, n, i) && LoadsNone(c)
    ensures Loads(a + b, n, i) && Loads(b + c, n, i) && Loads(a + (b + c), n, i)
  {
    NoLoads(a, n);
    NoLoads(c, n + i);
    LoadsBoth(a, b, n, 0, i);
    LoadsBoth(b, c, n, i, 0);
    LoadsBoth(a, b + c, n, 0, i);
  }

  lemma {:induction false} NoneBoth(a: seq<Instr>, b: seq<Instr>)
    requires LoadsNone(a) && LoadsNone(b)
    ensures LoadsNone(a + b)
  {}

  lemma {:induction false} ExprLoads(fns: set<string>, locals: map<string, nat>, e: Expr, sn: nat)
    ensures Loads(ExprCode(fns, locals, e, sn), sn, |Strings(e)|)
    decreases e
  {
    match e
    case Unary(op, x) =>
      hide Loads, Strings, ExprCode, UnaryCode;
      ExprLoads(fns, locals, x, sn);
      OperatorsLoadNone(op, Add);
      LoadsAround([], ExprCode(fns, locals, x, sn), UnaryCode(op), sn, |Strings(x)|);
      UnaryIs(fns, locals, e, sn);
    case Binary(op, l, r) =>
      hide Loads, Strings, ExprCode, BinaryCode;
      ExprLoads(fns, locals, l, sn);
      ExprLoads(fns, locals, r, sn + |Strings(l)|);
      BinaryLoads(fns, locals, e, sn);
    case Call(callee, args) =>
      hide Loads, ArgStrings, ArgsCode, WriteCode, PopArgs;
      ArgsLoad(fns, locals, args, sn);
      PopsLoadNone(|args|, callee.Display());
      LoadsAround([], ArgsCode(fns, locals, args, sn), WriteCode(), sn, |ArgStrings(args)|);
      LoadsAround([], ArgsCode(fns, locals, args, sn), PopArgs(|args|) + [CallTo(FnLabel(callee.Display()))], sn, |ArgStrings(args)|);
    case _ =>
  }

  lemma {:induction false} UnaryIs(fns: set<string>, locals: map<string, nat>, e: Expr, sn: nat)
    requires e.Unary?
    ensures ExprCode(fns, locals, e, sn) == ExprCode(fns, locals, e.operand, sn) + UnaryCode(e.uop) && Strings(e) == Strings(e.operand)
  {}

  lemma {:induction false} OperatorsLoadNone(uop: UnaryOp, op: BinaryOp)
    ensures LoadsNone(UnaryCode(uop)) && LoadsNone(BinaryCode(op))
  {}

  lemma {:induction false} BinaryLoads(fns: set<string>, locals: map<string, nat>, e: Expr, sn: nat)
    requires e.Binary?
    requires Loads(ExprCode(fns, locals, e.left, sn), sn, |Strings(e.left)|)
    requires var sn' := sn + |Strings(e.left)|; Loads(ExprCode(fns, locals, e.right, sn'), sn', |Strings(e.right)|)
    ensures Loads(ExprCode(fns, locals, e, sn), sn, |Strings(e)|)
  {
    hide Loads, BinaryCode, ArgsCode, WriteCode, PopArgs;
    var i := |Strings(e.left)|;
    AroundOperator(ExprCode(fns, locals, e.left, sn), ExprCode(fns, locals, e.right, sn + i), e.op, sn, i, |Strings(e.right)|);
  }

  lemma {:induction false} AroundOperator(l: seq<Instr>, r: seq<Instr>, op: BinaryOp, sn: nat, i: nat, j: nat)
    requires Loads(l, sn, i) && Loads(r, sn + i, j)
    ensures Loads(l + [Push(RAX)] + (r + [MovReg(RBX, RAX), Pop(RAX)] + BinaryCode(op)), sn, i + j)
  {
    OperatorsLoadNone(Neg, op);
    hide Loads, BinaryCode;
    LoadsAround([], l, [Push(RAX)], sn, i);
    LoadsAround([], r, [MovReg(RBX, RAX), Pop(RAX)], sn + i, j);
    LoadsAround([], r + [MovReg(RBX, RAX), Pop(RAX)], BinaryCode(op), sn + i, j);
    LoadsBoth(l + [Push(RAX)], r + [MovReg(RBX, RAX), Pop(RAX)] + BinaryCode(op), sn, i, j);
  }

  lemma {:induction false} PopsLoadNone(n: nat, name: string)
    ensures LoadsNone(PopArgs(n)) && LoadsNone(PopArgs(n) + [CallTo(FnLabel(name))]) && LoadsNone(WriteCode())
  {
    if n > 0 {
      PopsLoadNone(n - 1, name);
    }
  }

  lemma {:induction false} ArgsLoad(fns: set<string>, locals: map<string, nat>, args: seq<Expr>, sn: nat)
    ensures Loads(ArgsCode(fns, locals, args, sn), sn, |ArgStrings(args)|)
    decreases args
  {
    if args != [] {
      hide Loads, Strings, ExprCode;
      ExprLoads(fns, locals, args[0], sn);
      var sn' := sn + |Strings(args[0])|;
      ArgsLoad(fns, locals, args[1..], sn');
      LoadsAround([Push(RAX)], ArgsCode(fns, locals, args[1..], sn'), [], sn', |ArgStrings(args[1..])|);
      LoadsBoth(ExprCode(fns, locals, args[0], sn), [Push(RAX)] + ArgsCode(fns, locals, args[1..], sn'), sn, |Strings(args[0])|, |ArgStrings(args[1..])|);
    } else {
      NothingLoads(sn);
    }
  }

  lemma {:induction false} GuardLoads(fns: set<string>, locals: map<string, nat>, c: Expr, l: Label, sn: nat)
    ensures Loads(GuardCode(fns, locals, c, l, sn), sn, |Strings(c)|)
  {
    ExprLoads(fns, locals, c, sn);
    hide Loads, ExprCode, Strings;
    LoadsAround([], ExprCode(fns, locals, c, sn), [CmpRaxImm0, Je(l)], sn, |Strings(c)|);
  }

  lemma {:induction false} StoreLoadsNone(locals: map<string, nat>, name: string)
    ensures LoadsNone(StoreTo(locals, name))
  {}

  lemma {:induction false} StmtLoads(fns: set<string>, env: Env, s: Stmt, ln: nat, sn: nat)
    ensures Loads(StmtCode(fns, env, s, ln, sn), sn, |StmtStrings(s)|)
    decreases s, 1
  {
    hide Loads, Strings, ExprCode, GuardCode, BlockCode, ElseCode, BlockStrings, StoreTo;
    match s
    case Let(name, _, e) => ToSlotLoads(fns, env, e, name, sn);
    case Mut(name, _, e) => ToSlotLoads(fns, env, e, name, sn);
    case Assign(name, e) => ToSlotLoads(fns, env, e, name, sn);
    case Ret(Some(e)) =>
      ExprLoads(fns, env.locals, e, sn);
      LoadsAround([], ExprCode(fns, env.locals, e, sn), [Jmp(env.end)], sn, |Strings(e)|);
    case If(_, _, _) => IfLoads(fns, env, s, ln, sn);
    case Loop(b) =>
      var start, end := Local("loop_start", ln), Local("loop_end", ln + 1);
      var inner := Inside(env, start, end);
      BlockLoads(fns, inner, b, ln + 2, sn);
      LoadsAround([Lab(start)], BlockCode(fns, inner, b, ln + 2, sn), [Jmp(start), Lab(end)], sn, |BlockStrings(b)|);
    case While(c, b) =>
      var start, end := Local("while_start", ln), Local("while_end", ln + 1);
      var inner, sn' := Inside(env, start, end), sn + |Strings(c)|;
      GuardLoads(fns, env.locals, c, end, sn);
      BlockLoads(fns, inner, b, ln + 2, sn');
      LoadsAround([], BlockCode(fns, inner, b, ln + 2, sn'), [Jmp(start), Lab(end)], sn', |BlockStrings(b)|);
      LoadsBoth(GuardCode(fns, env.locals, c, end, sn), BlockCode(fns, inner, b, ln + 2, sn') + [Jmp(start), Lab(end)], sn, |Strings(c)|, |BlockStrings(b)|);
      LoadsAround([Lab(start)], GuardCode(fns, env.locals, c, end, sn) + (BlockCode(fns, inner, b, ln + 2, sn') + [Jmp(start), Lab(end)]), [],
                  sn, |Strings(c)| + |BlockStrings(b)|);
    case UnsafeBlock(b) => BlockLoads(fns, env, b, ln, sn);
    case ExprStmt(e) => ExprLoads(fns, env.locals, e, sn);
    case _ =>
      JumpsLoadNone(fns, env, s, ln, sn);
      NoLoads(StmtCode(fns, env, s, ln, sn), sn);
  }

  lemma {:induction false} JumpsLoadNone(fns: set<string>, env: Env, s: Stmt, ln: nat, sn: nat)
    requires s == Ret(None) || s.Break? || s.Continue? || s.ErrorStmt?
    ensures LoadsNone(StmtCode(fns, env, s, ln, sn)) && StmtStrings(s) == []
  {}

  lemma {:induction false} ToSlotLoads(fns: set<string>, env: Env, e: Expr, name: string, sn: nat)
    ensures Loads(ExprCode(fns, env.locals, e, sn) + StoreTo(env.locals, name), sn, |Strings(e)|)
  {
    ExprLoads(fns, env.locals, e, sn);
    StoreLoadsNone(env.locals, name);
    LoadsAround([], ExprCode(fns, env.locals, e, sn), StoreTo(env.locals, name), sn, |Strings(e)|);
  }

  lemma {:induction false} IfLoads(fns: set<string>, env: Env, s: Stmt, ln: nat, sn: nat)
    requires s.If?
    ensures Loads(StmtCode(fns, env, s, ln, sn), sn, |StmtStrings(s)|)
    decreases s, 0
  {
    hide Loads, Strings, ExprCode, GuardCode, BlockCode, ElseCode, BlockStrings, BlockLabels, ArmStrings;
    var sn1 := sn + |Strings(s.cond)|;
    var ln2, sn2 := ln + 2 + BlockLabels(s.thenBlock), sn1 + |BlockStrings(s.thenBlock)|;
    var g := GuardCode(fns, env.locals, s.cond, FalseTarget(s.elseArm, ln), sn);
    var t, e := BlockCode(fns, env, s.thenBlock, ln + 2, sn1), ElseCode(fns, env, s.elseArm, IfElse(ln), ln2, sn2);
    GuardLoads(fns, env.locals, s.cond, FalseTarget(s.elseArm, ln), sn);
    BlockLoads(fns, env, s.thenBlock, ln + 2, sn1);
    ElseLoads(fns, env, s.elseArm, IfElse(ln), ln2, sn2);
    LoadsAround([], t, [Jmp(IfEnd(ln))], sn1, |BlockStrings(s.thenBlock)|);
    LoadsAround([], e, [Lab(IfEnd(ln))], sn2, |ArmStrings(s.elseArm)|);
    LoadsBoth(t + [Jmp(IfEnd(ln))], e + [Lab(IfEnd(ln))], sn1, |BlockStrings(s.thenBlock)|, |ArmStrings(s.elseArm)|);
    LoadsBoth(g, t + [Jmp(IfEnd(ln))] + (e + [Lab(IfEnd(ln))]), sn, |Strings(s.cond)|, |BlockStrings(s.thenBlock)| + |ArmStrings(s.elseArm)|);
  }

  lemma {:induction false} ElseLoads(fns: set<string>, env: Env, arm: ElseArm, start: Label, ln: nat, sn: nat)
    ensures Loads(ElseCode(fns, env, arm, start, ln, sn), sn, |ArmStrings(arm)|)
    decreases arm, 0
  {
    hide Loads, BlockCode, BlockStrings;
    match arm
    case NoElse => NothingLoads(sn);
    case Else(b) =>
      BlockLoads(fns, env, b, ln, sn);
      LoadsAround([Lab(start)], BlockCode(fns, env, b, ln, sn), [], sn, |BlockStrings(b)|);
  }

  lemma {:induction false} BlockLoads(fns: set<string>, env: Env, b: Block, ln: nat, sn: nat)
    ensures Loads(BlockCode(fns, env, b, ln, sn), sn, |BlockStrings(b)|)
    decreases b, 0
  {
    hide Loads, StmtCode, StmtStrings, StmtLabels;
    if b == [] {
      NothingLoads(sn);
    } else {
      StmtLoads(fns, env, b[0], ln, sn);
      BlockLoads(fns, env, b[1..], ln + StmtLabels(b[0]), sn + |StmtStrings(b[0])|);
      LoadsBoth(StmtCode(fns, env, b[0], ln, sn), BlockCode(fns, env, b[1..], ln + StmtLabels(b[0]), sn + |StmtStrings(b[0])|),
                sn, |StmtStrings(b[0])|, |BlockStrings(b[1..])|);
    }
  }

  lemma {:induction false} FrameLoadsNone(f: FnDecl, end: Label)
    ensures LoadsNone(Prologue(f)) && LoadsNone(Epilogue(f.ret, end))
  {
    StoresLoadNone(f.params, FnSlots(f), 0);
    hide FnSlots, StoreParams, Align16;
    NoneBoth(GrowCode(f), StoreParams(f.params, FnSlots(f), 0));
  }

  lemma {:induction false} StoresLoadNone(params: seq<Param>, locals: map<string, nat>, i: nat)
    requires i <= |params|
    ensures LoadsNone(StoreParams(params, locals, i))
    decreases |params| - i
  {
    if i < |params| {
      StoresLoadNone(params, locals, i + 1);
    }
  }

  lemma {:induction false} FnsLoad(names: set<string>, fns: seq<FnDecl>, ln: nat, sn: nat)
    ensures Loads(FnsCode(names, fns, ln, sn), sn, |ProgramStrings(fns)|)
    decreases fns
  {
    hide Loads, BlockCode, BlockStrings, BlockLabels, Prologue, Epilogue, LoadsNone, FnSlots;
    if fns == [] {
      NothingLoads(sn);
    } else {
      var f := fns[0];
      FrameLoadsNone(f, FnEnd(ln));
      BlockLoads(names, FnEnv(f, ln), f.body, ln + 1, sn);
      LoadsAround(Prologue(f), BlockCode(names, FnEnv(f, ln), f.body, ln + 1, sn), Epilogue(f.ret, FnEnd(ln)), sn, |BlockStrings(f.body)|);
      var ln', sn' := ln + 1 + BlockLabels(f.body), sn + |BlockStrings(f.body)|;
      FnsLoad(names, fns[1..], ln', sn');
      LoadsBoth(FnCode(names, f, ln, sn), FnsCode(names, fns[1..], ln', sn'), sn, |BlockStrings(f.body)|, |ProgramStrings(fns[1..])|);
    }
  }

  lemma {:induction false} ProgramLoads(fns: seq<FnDecl>, pkg: Package)
    ensures Loads(ProgramCode(fns, pkg), 0, |ProgramStrings(fns)|)
  {
    FnsLoad(FnNames(fns), fns, 0, 0);
    hide FnsCode, ProgramStrings, FnNames;
    LoadsAround(if pkg.runtime == "tiny" then StartCode() else [], FnsCode(FnNames(fns), fns, 0, 0), [], 0, |ProgramStrings(fns)|);
  }

  /** A constant is in the list and loaded by the code exactly when it is a literal of the text, and it holds that
      literal's bytes: the k-th constant is the k-th literal. */
  lemma {:induction false} ConstantsAreLiterals(fns: seq<FnDecl>, pkg: Package, k: nat)
    ensures LeaString(k) in ProgramCode(fns, pkg) <==> exists bytes :: FnsLiteralAt(fns, 0, k, bytes)
    ensures k < |ProgramStrings(fns)| <==> exists bytes :: FnsLiteralAt(fns, 0, k, bytes)
    ensures forall bytes :: FnsLiteralAt(fns, 0, k, bytes) ==> ProgramStrings(fns)[k] == bytes
  {
    ProgramLoads(fns, pkg);
    hide ProgramCode, FnsLiteralAt, ProgramStrings;
    assert LeaString(k) in ProgramCode(fns, pkg) <==> k < |ProgramStrings(fns)|;
    forall bytes
      ensures FnsLiteralAt(fns, 0, k, bytes) <==> k < |ProgramStrings(fns)| && ProgramStrings(fns)[k] == bytes
    {
      FnsEntries(fns, 0, k, bytes);
    }
    if k < |ProgramStrings(fns)| {
      assert FnsLiteralAt(fns, 0, k, ProgramStrings(fns)[k]);
    }
  }
}
