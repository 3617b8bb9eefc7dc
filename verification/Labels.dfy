/** Label discipline: no label is defined twice, and every jump stays inside its function. */
module Labels {
  import opened Ast
  import opened Machine
  import opened Semantics
  import opened Emission

  /** No label is defined twice. */
  ghost predicate Unique(code: seq<Instr>) {
    forall i, j :: 0 <= i < j < |code| && code[i].Lab? && code[j].Lab? ==> code[i] != code[j]
  }

  ghost predicate Defines(code: seq<Instr>, l: Label) {
    exists i :: 0 <= i < |code| && code[i] == Lab(l)
  }

  /** Every label defined is a generated one, numbered from lo up to hi. */
  ghost predicate NumberedWithin(code: seq<Instr>, lo: nat, hi: nat) {
    forall i :: 0 <= i < |code| && code[i].Lab? ==> code[i].l.Local? && lo <= code[i].l.id < hi
  }

  ghost predicate Plain(code: seq<Instr>) {
    forall i :: 0 <= i < |code| ==> !code[i].Lab? && !code[i].Jmp? && !code[i].Je?
  }

  ghost predicate Apart(a: seq<Instr>, b: seq<Instr>) {
    forall i, j :: 0 <= i < |a| && 0 <= j < |b| && a[i].Lab? && b[j].Lab? ==> a[i] != b[j]
  }

  lemma {:induction false} UniqueCat(a: seq<Instr>, b: seq<Instr>)
    requires Unique(a) && Unique(b) && Apart(a, b)
    ensures Unique(a + b)
  {
    var c := a + b;
    forall i, j | 0 <= i < j < |c| && c[i].Lab? && c[j].Lab?
      ensures c[i] != c[j]
    {
      if j < |a| {
        assert c[i] == a[i] && c[j] == a[j];
      } else if i < |a| {
        assert c[i] == a[i] && c[j] == b[j - |a|];
      } else {
        assert c[i] == b[i - |a|] && c[j] == b[j - |a|];
      }
    }
  }

  lemma {:induction false} PlainCat(a: seq<Instr>, b: seq<Instr>)
    requires Plain(a) && Plain(b)
    ensures Plain(a + b)
  {}

  lemma {:induction false} ExprPlain(fns: set<string>, locals: map<string, nat>, e: Expr, sn: nat)
    ensures Plain(ExprCode(fns, locals, e, sn))
    decreases e
  {
    hide BinaryCode, ArgsCode, PopArgs, Strings;
    match e
    case Unary(op, x) =>
      ExprPlain(fns, locals, x, sn);
      PlainCat(ExprCode(fns, locals, x, sn), UnaryCode(op));
    case Binary(op, l, r) =>
      ExprPlain(fns, locals, l, sn);
      ExprPlain(fns, locals, r, sn + |Strings(l)|);
      BinaryPlain(op);
    case Call(callee, args) =>
      ArgsPlain(fns, locals, args, sn);
      PopArgsPlain(|args|);
    case _ =>
  }

  lemma {:induction false} BinaryPlain(op: BinaryOp)
    ensures Plain(BinaryCode(op))
  {}

  lemma {:induction false} ArgsPlain(fns: set<string>, locals: map<string, nat>, args: seq<Expr>, sn: nat)
    ensures Plain(ArgsCode(fns, locals, args, sn))
    decreases args
  {
    if args != [] {
      ExprPlain(fns, locals, args[0], sn);
      ArgsPlain(fns, locals, args[1..], sn + |Strings(args[0])|);
    }
  }

  lemma {:induction false} PopArgsPlain(n: nat)
    ensures Plain(PopArgs(n))
  {
    if n > 0 {
      PopArgsPlain(n - 1);
    }
  }

  /** The generated labels of a piece of code are its own, each defined once. */
  ghost predicate Numbered(code: seq<Instr>, lo: nat, hi: nat) {
    Unique(code) && NumberedWithin(code, lo, hi)
  }

  lemma {:induction false} NumberedCat(a: seq<Instr>, b: seq<Instr>, lo: nat, mid: nat, hi: nat)
    requires Numbered(a, lo, mid) && Numbered(b, mid, hi) && lo <= mid <= hi
    ensures Numbered(a + b, lo, hi)
  {
    UniqueCat(a, b);
  }

  /** Defining two labels numbered just below, at the front and the back or both at the back. */
  lemma {:induction false} NumberedSurround(front: seq<Instr>, middle: seq<Instr>, back: seq<Instr>, lo: nat, hi: nat)
    requires lo + 2 <= hi && Numbered(middle, lo + 2, hi)
    requires Numbered(front, lo, lo + 1) && Numbered(back, lo + 1, lo + 2)
    ensures Numbered(front + (middle + back), lo, hi)
  {
    UniqueCat(middle, back);
    UniqueCat(front, middle + back);
  }

  lemma {:induction false} StmtNumbered(fns: set<string>, env: Env, s: Stmt, ln: nat, sn: nat)
    ensures Numbered(StmtCode(fns, env, s, ln, sn), ln, ln + StmtLabels(s))
    decreases s, 1
  {
    hide ExprCode, BlockCode, GuardCode, ElseCode;
    match s
    case Let(_, _, e) => ExprPlain(fns, env.locals, e, sn);
    case Mut(_, _, e) => ExprPlain(fns, env.locals, e, sn);
    case Assign(_, e) => ExprPlain(fns, env.locals, e, sn);
    case Ret(Some(e)) => ExprPlain(fns, env.locals, e, sn);
    case ExprStmt(e) => ExprPlain(fns, env.locals, e, sn);
    case UnsafeBlock(b) => BlockNumbered(fns, env, b, ln, sn);
    case If(_, _, _) => IfNumbered(fns, env, s, ln, sn);
    case Loop(b) => LoopNumbered(fns, env, b, ln, sn);
    case While(cond, b) => WhileNumbered(fns, env, cond, b, ln, sn);
    case _ =>
  }

  lemma {:induction false} LoopNumbered(fns: set<string>, env: Env, b: Block, ln: nat, sn: nat)
    ensures Numbered(StmtCode(fns, env, Loop(b), ln, sn), ln, ln + StmtLabels(Loop(b)))
    decreases b, 1
  {
    var start, end := Local("loop_start", ln), Local("loop_end", ln + 1);
    BlockNumbered(fns, Inside(env, start, end), b, ln + 2, sn);
    NumberedSurround([Lab(start)], BlockCode(fns, Inside(env, start, end), b, ln + 2, sn), [Jmp(start), Lab(end)],
                     ln, ln + 2 + BlockLabels(b));
  }

  lemma {:induction false} GuardNumbered(fns: set<string>, locals: map<string, nat>, cond: Expr, target: Label, sn: nat, n: nat)
    ensures Numbered(GuardCode(fns, locals, cond, target, sn), n, n)
  {
    hide ExprCode;
    ExprPlain(fns, locals, cond, sn);
  }

  lemma {:induction false} WhileNumbered(fns: set<string>, env: Env, cond: Expr, b: Block, ln: nat, sn: nat)
    ensures Numbered(StmtCode(fns, env, While(cond, b), ln, sn), ln, ln + StmtLabels(While(cond, b)))
    decreases b, 1
  {
    hide GuardCode, BlockCode, Numbered, Strings;
    var start, end := Local("while_start", ln), Local("while_end", ln + 1);
    var g := GuardCode(fns, env.locals, cond, end, sn);
    var body := BlockCode(fns, Inside(env, start, end), b, ln + 2, sn + |Strings(cond)|);
    BlockNumbered(fns, Inside(env, start, end), b, ln + 2, sn + |Strings(cond)|);
    GuardNumbered(fns, env.locals, cond, end, sn, ln + 2);
    NumberedCat(g, body, ln + 2, ln + 2, ln + 2 + BlockLabels(b));
    assert g + (body + [Jmp(start), Lab(end)]) == g + body + [Jmp(start), Lab(end)];
    NumberedSurround([Lab(start)], g + body, [Jmp(start), Lab(end)], ln, ln + 2 + BlockLabels(b));
  }

  lemma {:induction false} IfNumbered(fns: set<string>, env: Env, s: Stmt, ln: nat, sn: nat)
    requires s.If?
    ensures Numbered(StmtCode(fns, env, s, ln, sn), ln, ln + StmtLabels(s))
    decreases s, 0
  {
    var sn' := sn + |Strings(s.cond)|;
    var mid := ln + 2 + BlockLabels(s.thenBlock);
    var hi := ln + StmtLabels(s);
    var g := GuardCode(fns, env.locals, s.cond, FalseTarget(s.elseArm, ln), sn);
    var t := BlockCode(fns, env, s.thenBlock, ln + 2, sn') + [Jmp(IfEnd(ln))];
    var e := ElseCode(fns, env, s.elseArm, IfElse(ln), mid, sn' + |BlockStrings(s.thenBlock)|);
    ExprPlain(fns, env.locals, s.cond, sn);
    BlockNumbered(fns, env, s.thenBlock, ln + 2, sn');
    ElseNumbered(fns, env, s.elseArm, ln, mid, sn' + |BlockStrings(s.thenBlock)|);
    NumberedIf(g, t, e, [Lab(IfEnd(ln))], ln, mid, hi);
  }

  ghost predicate NumberedElse(e: seq<Instr>, ln: nat, mid: nat, hi: nat) {
    && Unique(e)
    && forall i :: 0 <= i < |e| && e[i].Lab? ==> e[i].l.Local? && (e[i].l.id == ln || mid <= e[i].l.id < hi)
  }

  lemma {:induction false} NumberedIf(g: seq<Instr>, t: seq<Instr>, e: seq<Instr>, end: seq<Instr>, ln: nat, mid: nat, hi: nat)
    requires ln + 2 <= mid <= hi
    requires Numbered(g, ln, ln)
    requires Numbered(t, ln + 2, mid) && NumberedElse(e, ln, mid, hi) && Numbered(end, ln + 1, ln + 2)
    ensures Numbered(g + (t + (e + end)), ln, hi)
  {
    UniqueCat(e, end);
    UniqueCat(t, e + end);
    UniqueCat(g, t + (e + end));
  }

  lemma {:induction false} ElseNumbered(fns: set<string>, env: Env, arm: ElseArm, ln: nat, mid: nat, sn: nat)
    requires ln + 2 <= mid
    ensures NumberedElse(ElseCode(fns, env, arm, IfElse(ln), mid, sn), ln, mid, mid + ArmLabels(arm))
    decreases arm
  {
    if arm.Else? {
      BlockNumbered(fns, env, arm.block, mid, sn);
      UniqueCat([Lab(IfElse(ln))], BlockCode(fns, env, arm.block, mid, sn));
    }
  }

  lemma {:induction false} BlockNumbered(fns: set<string>, env: Env, b: Block, ln: nat, sn: nat)
    ensures Numbered(BlockCode(fns, env, b, ln, sn), ln, ln + BlockLabels(b))
    decreases b, 0
  {
    if b != [] {
      StmtNumbered(fns, env, b[0], ln, sn);
      BlockNumbered(fns, env, b[1..], ln + StmtLabels(b[0]), sn + |StmtStrings(b[0])|);
      NumberedCat(StmtCode(fns, env, b[0], ln, sn),
                  BlockCode(fns, env, b[1..], ln + StmtLabels(b[0]), sn + |StmtStrings(b[0])|),
                  ln, ln + StmtLabels(b[0]), ln + BlockLabels(b));
    }
  }

  // ----- whole functions and programs -----

  ghost predicate DistinctNames(fns: seq<FnDecl>) {
    forall i, j :: 0 <= i < j < |fns| ==> fns[i].name != fns[j].name
  }

  /** A function's code starts at its own name; every other label in it is generated. */
  lemma {:induction false} FnNumbered(names: set<string>, f: FnDecl, ln: nat, sn: nat)
    ensures var c := FnCode(names, f, ln, sn);
      |c| > 0 && c[0] == Lab(FnLabel(f.name)) && Numbered(c[1..], ln, ln + 1 + BlockLabels(f.body))
  {
    hide BlockCode, Unique, FnEnv, Prologue, Epilogue, BlockLabels;
    var body := BlockCode(names, FnEnv(f, ln), f.body, ln + 1, sn);
    var end := Epilogue(f.ret, FnEnd(ln));
    PrologueLabels(f);
    var front := Prologue(f)[1..];
    BlockNumbered(names, FnEnv(f, ln), f.body, ln + 1, sn);
    EpilogueNumbered(f.ret, ln);
    UniqueCat(body, end);
    UniqueCat(front, body + end);
    assert FnCode(names, f, ln, sn)[1..] == front + (body + end);
  }

  lemma {:induction false} PrologueLabels(f: FnDecl)
    ensures |Prologue(f)| > 0 && Prologue(f)[0] == Lab(FnLabel(f.name)) && Plain(Prologue(f)[1..])
  {
    StoreParamsPlain(f.params, FnSlots(f), 0);
  }

  lemma {:induction false} EpilogueNumbered(ret: string, ln: nat)
    ensures Numbered(Epilogue(ret, FnEnd(ln)), ln, ln + 1) && Resolved(Epilogue(ret, FnEnd(ln)), {})
    ensures Defines(Epilogue(ret, FnEnd(ln)), FnEnd(ln))
  {
    assert Epilogue(ret, FnEnd(ln))[if ret == "void" then 1 else 0] == Lab(FnEnd(ln));
  }

  lemma {:induction false} StoreParamsPlain(params: seq<Param>, locals: map<string, nat>, i: nat)
    requires i <= |params|
    ensures Plain(StoreParams(params, locals, i))
    decreases |params| - i
  {
    if i < |params| {
      StoreParamsPlain(params, locals, i + 1);
    }
  }

  /** Labels of emitted functions: their names, and generated ones numbered from ln. */
  ghost predicate FnLabels(code: seq<Instr>, fns: seq<FnDecl>, ln: nat) {
    forall i :: 0 <= i < |code| && code[i].Lab? ==>
      (code[i].l.Local? && ln <= code[i].l.id)
      || (code[i].l.FnLabel? && exists k :: 0 <= k < |fns| && fns[k].name == code[i].l.name)
  }

  lemma {:induction false} FnsUnique(names: set<string>, fns: seq<FnDecl>, ln: nat, sn: nat)
    requires DistinctNames(fns)
    ensures Unique(FnsCode(names, fns, ln, sn)) && FnLabels(FnsCode(names, fns, ln, sn), fns, ln)
    decreases fns
  {
    hide Unique, FnLabels, FnCode, Apart, Numbered, NumberedWithin, BlockLabels, BlockStrings;
    if fns == [] {
      EmptyLabels(fns, ln);
    } else {
      var f, rest := fns[0], fns[1..];
      var ln' := ln + 1 + BlockLabels(f.body);
      var a := FnCode(names, f, ln, sn);
      var b := FnsCode(names, rest, ln', sn + |BlockStrings(f.body)|);
      FnNumbered(names, f, ln, sn);
      FnsUnique(names, rest, ln', sn + |BlockStrings(f.body)|);
      FirstThenUnique(a, FnLabel(f.name), ln, ln');
      FnApart(a, b, fns, ln, ln');
      UniqueCat(a, b);
      FnLabelsCat(a, b, fns, ln, ln');
    }
  }

  lemma {:induction false} EmptyLabels(fns: seq<FnDecl>, ln: nat)
    ensures Unique([]) && FnLabels([], fns, ln)
  {}

  lemma {:induction false} FirstThenUnique(a: seq<Instr>, l: Label, lo: nat, hi: nat)
    requires |a| > 0 && a[0] == Lab(l) && !l.Local? && Numbered(a[1..], lo, hi)
    ensures Unique(a) && NumberedWithin(a[1..], lo, hi)
  {
    UniqueCat([a[0]], a[1..]);
    assert a == [a[0]] + a[1..];
  }

  lemma {:induction false} FnApart(a: seq<Instr>, b: seq<Instr>, fns: seq<FnDecl>, ln: nat, ln': nat)
    requires DistinctNames(fns) && fns != []
    requires |a| > 0 && a[0] == Lab(FnLabel(fns[0].name)) && NumberedWithin(a[1..], ln, ln')
    requires FnLabels(b, fns[1..], ln')
    ensures Apart(a, b)
  {
    forall i, j | 0 <= i < |a| && 0 <= j < |b| && a[i].Lab? && b[j].Lab?
      ensures a[i] != b[j]
    {
      if i > 0 {
        assert a[i] == a[1..][i - 1];
      }
      if b[j].l.FnLabel? {
        var k :| 0 <= k < |fns[1..]| && fns[1..][k].name == b[j].l.name;
        assert fns[k + 1].name == b[j].l.name;
      }
    }
  }

  lemma {:induction false} FnLabelsCat(a: seq<Instr>, b: seq<Instr>, fns: seq<FnDecl>, ln: nat, ln': nat)
    requires fns != [] && ln <= ln'
    requires |a| > 0 && a[0] == Lab(FnLabel(fns[0].name)) && NumberedWithin(a[1..], ln, ln')
    requires FnLabels(b, fns[1..], ln')
    ensures FnLabels(a + b, fns, ln)
  {
    var c := a + b;
    forall i | 0 <= i < |c| && c[i].Lab?
      ensures (c[i].l.Local? && ln <= c[i].l.id) || (c[i].l.FnLabel? && exists k :: 0 <= k < |fns| && fns[k].name == c[i].l.name)
    {
      if 0 < i < |a| {
        assert c[i] == a[1..][i - 1];
      } else if i >= |a| {
        assert c[i] == b[i - |a|];
        if c[i].l.FnLabel? {
          var k :| 0 <= k < |fns[1..]| && fns[1..][k].name == c[i].l.name;
          assert fns[k + 1].name == c[i].l.name;
        }
      }
    }
  }

  /** The entry point is a label too: with it emitted, no function may have its name. */
  ghost predicate StartIsFree(fns: seq<FnDecl>, pkg: Package) {
    pkg.runtime == "tiny" ==> START !in FnNames(fns)
  }

  /** In the whole program no label is defined twice, exactly when function names are distinct
      and none is that of the entry point. */
  lemma {:induction false} ProgramLabelsUnique(fns: seq<FnDecl>, pkg: Package)
    ensures Unique(ProgramCode(fns, pkg)) <==> DistinctNames(fns) && StartIsFree(fns, pkg)
  {
    var start := if pkg.runtime == "tiny" then StartCode() else [];
    var code := FnsCode(FnNames(fns), fns, 0, 0);
    if DistinctNames(fns) && StartIsFree(fns, pkg) {
      FnsUnique(FnNames(fns), fns, 0, 0);
      UniqueCat(start, code);
    }
    if Unique(ProgramCode(fns, pkg)) {
      ProgramUniqueOnly(fns, pkg);
    }
  }

  lemma {:induction false} ProgramUniqueOnly(fns: seq<FnDecl>, pkg: Package)
    requires Unique(ProgramCode(fns, pkg))
    ensures DistinctNames(fns) && StartIsFree(fns, pkg)
  {
    var start := if pkg.runtime == "tiny" then StartCode() else [];
    var code := FnsCode(FnNames(fns), fns, 0, 0);
    assert ProgramCode(fns, pkg)[|start|..] == code;
    UniqueSuffix(start, code);
    FnsUniqueOnly(FnNames(fns), fns, 0, 0);
    forall f | f in fns && pkg.runtime == "tiny"
      ensures f.name != START
    {
      var i := FnLabelIn(FnNames(fns), fns, 0, 0, f);
      assert (start + code)[0] == Lab(FnLabel(START)) && (start + code)[|start| + i] == Lab(FnLabel(f.name));
    }
  }

  lemma {:induction false} UniqueSuffix(a: seq<Instr>, b: seq<Instr>)
    requires Unique(a + b)
    ensures Unique(b)
  {
    forall i, j | 0 <= i < j < |b| && b[i].Lab? && b[j].Lab?
      ensures b[i] != b[j]
    {
      assert (a + b)[|a| + i] == b[i] && (a + b)[|a| + j] == b[j];
    }
  }

  lemma {:induction false} FnLabelIn(names: set<string>, fns: seq<FnDecl>, ln: nat, sn: nat, f: FnDecl) returns (i: nat)
    requires f in fns
    ensures i < |FnsCode(names, fns, ln, sn)| && FnsCode(names, fns, ln, sn)[i] == Lab(FnLabel(f.name))
    decreases fns
  {
    hide FnCode, BlockLabels, BlockStrings, Numbered;
    FnNumbered(names, fns[0], ln, sn);
    if f == fns[0] {
      i := 0;
    } else {
      assert f in fns[1..];
      i := FnLabelIn(names, fns[1..], ln + 1 + BlockLabels(fns[0].body), sn + |BlockStrings(fns[0].body)|, f);
      i := i + |FnCode(names, fns[0], ln, sn)|;
    }
  }

  lemma {:induction false} FnsUniqueOnly(names: set<string>, fns: seq<FnDecl>, ln: nat, sn: nat)
    requires Unique(FnsCode(names, fns, ln, sn))
    ensures DistinctNames(fns)
    decreases fns
  {
    if fns != [] {
      var ln', sn' := ln + 1 + BlockLabels(fns[0].body), sn + |BlockStrings(fns[0].body)|;
      var a, b := FnCode(names, fns[0], ln, sn), FnsCode(names, fns[1..], ln', sn');
      FnNumbered(names, fns[0], ln, sn);
      UniqueSuffix(a, b);
      FnsUniqueOnly(names, fns[1..], ln', sn');
      forall i, j | 0 <= i < j < |fns|
        ensures fns[i].name != fns[j].name
      {
        if i == 0 {
          assert fns[j] == fns[1..][j - 1];
          var k := FnLabelIn(names, fns[1..], ln', sn', fns[j]);
          assert (a + b)[0] == Lab(FnLabel(fns[0].name)) && (a + b)[|a| + k] == Lab(FnLabel(fns[j].name));
        } else {
          assert fns[1..][i - 1].name != fns[1..][j - 1].name;
        }
      }
    }
  }

  /** With unique labels, a jump goes to the one place that defines its target. */
  lemma {:induction false} TargetIs(code: seq<Instr>, at: nat, l: Label)
    requires Unique(code) && at < |code| && code[at] == Lab(l)
    ensures Target(code, l) == Some(at)
    decreases code
  {
    if at > 0 {
      assert code[0] != code[at];
      assert Unique(code[1..]) by {
        forall i, j | 0 <= i < j < |code[1..]| && code[1..][i].Lab? && code[1..][j].Lab?
          ensures code[1..][i] != code[1..][j]
        {
          assert code[i + 1] != code[j + 1];
        }
      }
      TargetIs(code[1..], at - 1, l);
    }
  }

  // ----- where jumps go -----

  /** Every jump goes to a label defined in the code itself or to one of `outer`. */
  ghost predicate Resolved(code: seq<Instr>, outer: set<Label>) {
    forall i :: 0 <= i < |code| && (code[i].Jmp? || code[i].Je?) ==> code[i].target in outer || Defines(code, code[i].target)
  }

  ghost function Outer(env: Env): set<Label> {
    {env.end} + (set l | l in env.breaks) + (set l | l in env.continues)
  }

  lemma {:induction false} DefinesCat(a: seq<Instr>, b: seq<Instr>, l: Label)
    requires Defines(a, l) || Defines(b, l)
    ensures Defines(a + b, l)
  {
    var c := a + b;
    if Defines(a, l) {
      var i :| 0 <= i < |a| && a[i] == Lab(l);
      assert c[i] == Lab(l);
    } else {
      var i :| 0 <= i < |b| && b[i] == Lab(l);
      assert c[|a| + i] == Lab(l);
    }
  }

  lemma {:induction false} ResolvedCat(a: seq<Instr>, b: seq<Instr>, outer: set<Label>)
    requires Resolved(a, outer) && Resolved(b, outer)
    ensures Resolved(a + b, outer)
  {
    var c := a + b;
    forall i | 0 <= i < |c| && (c[i].Jmp? || c[i].Je?)
      ensures c[i].target in outer || Defines(c, c[i].target)
    {
      if c[i].target !in outer {
        assert if i < |a| then c[i] == a[i] else c[i] == b[i - |a|];
        DefinesCat(a, b, c[i].target);
      }
    }
  }

  /** A target that the code defines need not be counted as an outer one. */
  lemma {:induction false} Absorb(code: seq<Instr>, outer: set<Label>, own: set<Label>)
    requires Resolved(code, outer + own) && forall l :: l in own ==> Defines(code, l)
    ensures Resolved(code, outer)
  {}

  lemma {:induction false} ResolvedMore(code: seq<Instr>, outer: set<Label>, more: set<Label>)
    requires Resolved(code, outer) && outer <= more
    ensures Resolved(code, more)
  {}

  lemma {:induction false} StmtResolved(fns: set<string>, env: Env, s: Stmt, ln: nat, sn: nat)
    ensures Resolved(StmtCode(fns, env, s, ln, sn), Outer(env))
    decreases s, 1
  {
    match s
    case Let(_, _, e) => ExprPlain(fns, env.locals, e, sn);
    case Mut(_, _, e) => ExprPlain(fns, env.locals, e, sn);
    case Assign(_, e) => ExprPlain(fns, env.locals, e, sn);
    case Ret(Some(e)) => ExprPlain(fns, env.locals, e, sn);
    case ExprStmt(e) => ExprPlain(fns, env.locals, e, sn);
    case UnsafeBlock(b) => BlockResolved(fns, env, b, ln, sn);
    case If(_, _, _) => IfResolved(fns, env, s, ln, sn);
    case Loop(b) =>
      var start, end := Local("loop_start", ln), Local("loop_end", ln + 1);
      assert [Lab(start)][0] == Lab(start);
      LoopBodyResolved(fns, env, [Lab(start)], b, start, end, ln + 2, sn);
    case While(cond, b) => WhileResolved(fns, env, cond, b, ln, sn);
    case _ =>
  }

  lemma {:induction false} WhileResolved(fns: set<string>, env: Env, cond: Expr, b: Block, ln: nat, sn: nat)
    ensures Resolved(StmtCode(fns, env, While(cond, b), ln, sn), Outer(env))
    decreases b, 2
  {
    var start, end := Local("while_start", ln), Local("while_end", ln + 1);
    var g := GuardCode(fns, env.locals, cond, end, sn);
    var front := [Lab(start)] + g;
    var rest := BlockCode(fns, Inside(env, start, end), b, ln + 2, sn + |Strings(cond)|) + [Jmp(start), Lab(end)];
    ExprPlain(fns, env.locals, cond, sn);
    assert front[0] == Lab(start);
    LoopBodyResolved(fns, env, front, b, start, end, ln + 2, sn + |Strings(cond)|);
    assert [Lab(start)] + (g + rest) == front + rest;
  }

  lemma {:induction false} LoopBodyResolved(fns: set<string>, env: Env, front: seq<Instr>, b: Block, start: Label, end: Label, ln: nat, sn: nat)
    requires Resolved(front, {end}) && Defines(front, start)
    ensures Resolved(front + (BlockCode(fns, Inside(env, start, end), b, ln, sn) + [Jmp(start), Lab(end)]), Outer(env))
    decreases b, 1
  {
    var body := BlockCode(fns, Inside(env, start, end), b, ln, sn);
    var back := [Jmp(start), Lab(end)];
    var own := {start, end};
    BlockResolved(fns, Inside(env, start, end), b, ln, sn);
    assert Outer(Inside(env, start, end)) == Outer(env) + own;
    ResolvedCat(body, back, Outer(env) + own);
    ResolvedCat(front, body + back, Outer(env) + own);
    assert back[1] == Lab(end);
    DefinesCat(body, back, end);
    DefinesCat(front, body + back, end);
    DefinesCat(front, body + back, start);
    Absorb(front + (body + back), Outer(env), own);
  }

  lemma {:induction false} IfResolved(fns: set<string>, env: Env, s: Stmt, ln: nat, sn: nat)
    requires s.If?
    ensures Resolved(StmtCode(fns, env, s, ln, sn), Outer(env))
    decreases s, 0
  {
    var sn' := sn + |Strings(s.cond)|;
    var g := GuardCode(fns, env.locals, s.cond, FalseTarget(s.elseArm, ln), sn);
    var t := BlockCode(fns, env, s.thenBlock, ln + 2, sn');
    var e := ElseCode(fns, env, s.elseArm, IfElse(ln), ln + 2 + BlockLabels(s.thenBlock), sn' + |BlockStrings(s.thenBlock)|);
    ExprPlain(fns, env.locals, s.cond, sn);
    BlockResolved(fns, env, s.thenBlock, ln + 2, sn');
    if s.elseArm.Else? {
      BlockResolved(fns, env, s.elseArm.block, ln + 2 + BlockLabels(s.thenBlock), sn' + |BlockStrings(s.thenBlock)|);
      ElseArmResolved(e[1..], IfElse(ln), Outer(env));
    }
    IfPiecesResolved(g, t, e, FalseTarget(s.elseArm, ln), IfEnd(ln), Outer(env));
  }

  lemma {:induction false} ElseArmResolved(block: seq<Instr>, start: Label, outer: set<Label>)
    requires Resolved(block, outer)
    ensures Resolved([Lab(start)] + block, outer) && Defines([Lab(start)] + block, start)
  {
    ResolvedCat([Lab(start)], block, outer);
    assert ([Lab(start)] + block)[0] == Lab(start);
  }

  lemma {:induction false} IfPiecesResolved(g: seq<Instr>, t: seq<Instr>, e: seq<Instr>, other: Label, end: Label, outer: set<Label>)
    requires Resolved(g, {other}) && Resolved(t, outer) && Resolved(e, outer)
    requires other == end || Defines(e, other)
    ensures Resolved(g + (t + [Jmp(end)] + (e + [Lab(end)])), outer)
  {
    var all := outer + {other, end};
    var t', e' := t + [Jmp(end)], e + [Lab(end)];
    ResolvedCat(t, [Jmp(end)], all);
    ResolvedCat(e, [Lab(end)], all);
    ResolvedCat(t', e', all);
    ResolvedCat(g, t' + e', all);
    assert [Lab(end)][0] == Lab(end);
    forall l | l in {other, end}
      ensures Defines(g + (t' + e'), l)
    {
      DefinesCat(e, [Lab(end)], l);
      DefinesCat(t', e', l);
      DefinesCat(g, t' + e', l);
    }
    Absorb(g + (t' + e'), outer, {other, end});
  }

  lemma {:induction false} BlockResolved(fns: set<string>, env: Env, b: Block, ln: nat, sn: nat)
    ensures Resolved(BlockCode(fns, env, b, ln, sn), Outer(env))
    decreases b, 0
  {
    if b != [] {
      StmtResolved(fns, env, b[0], ln, sn);
      BlockResolved(fns, env, b[1..], ln + StmtLabels(b[0]), sn + |StmtStrings(b[0])|);
      ResolvedCat(StmtCode(fns, env, b[0], ln, sn),
                  BlockCode(fns, env, b[1..], ln + StmtLabels(b[0]), sn + |StmtStrings(b[0])|), Outer(env));
    }
  }

  /** No jump leaves the code of its function. */
  lemma {:induction false} FnResolved(names: set<string>, f: FnDecl, ln: nat, sn: nat)
    ensures Resolved(FnCode(names, f, ln, sn), {})
  {
    var body := BlockCode(names, FnEnv(f, ln), f.body, ln + 1, sn);
    var end := Epilogue(f.ret, FnEnd(ln));
    PrologueLabels(f);
    BlockResolved(names, FnEnv(f, ln), f.body, ln + 1, sn);
    assert Outer(FnEnv(f, ln)) == {FnEnd(ln)};
    EpilogueNumbered(f.ret, ln);
    ResolvedMore(end, {}, {FnEnd(ln)});
    ResolvedCat(body, end, {FnEnd(ln)});
    ResolvedCat(Prologue(f), body + end, {FnEnd(ln)});
    DefinesCat(body, end, FnEnd(ln));
    DefinesCat(Prologue(f), body + end, FnEnd(ln));
    assert {} + {FnEnd(ln)} == {FnEnd(ln)};
    Absorb(FnCode(names, f, ln, sn), {}, {FnEnd(ln)});
  }
}
