# SnapSurf: a verified model of the Stage 0 compiler and of four parts of the assembly compiler

SnapSurf's Stage 0 compiler reads a source text, lexes and parses it, checks it, and emits x86-64 assembly for
a stack discipline: every expression leaves its value in `rax`, temporaries live on the stack, locals live in
`rbp`-relative slots, control flow is labels and jumps. The assembly compiler that succeeds it carries a scoped
symbol table, a hash-consed type table, a constant folder and a UTF-8 validator.

This project models both in Dafny and proves what they are for.

* The code that Stage 0 emits does what the program means: the same writes in the same order, the same exit
  code, or the same divide error, through recursion, nested loops, `break`, `continue` and `ret`
  (`Correctness.CompilerCorrect`), starting from any source text that compiles (`Texts.TextRunsAsMeant`), also where
  a run reads what an earlier activation left in its frame. In reverse, with no premise that the program ends,
  whatever stop the machine comes to is that of a run of the program (`Texts.TextStopsAsMeant`), and where the program
  runs for ever the machine does too (`Correctness.NeverStops`).
* The checker makes that possible: an accepted program has distinct slots, resolved labels, returning bodies,
  booleans that are 0 or 1 in runs without an early read, no dropped jump, matching calls, and no system call without
  the capability. Where the checker lets something through, the exact condition is proved: when the code assembles
  (`Assembling.AssemblesIff`), when the generator resolves names as the checker does (`Scoping.ResolvedAlike`), when a
  system call escapes the capability (`Capability.SyscallsNeedCapability`).
* The lexer, the parser and the checker do what independent descriptions of the language say, each in both directions:
  the shapes of tokens on the characters (`TokenShapes.LexIff`), a grammar on the tokens for what parses without a
  diagnostic (`Derivations.ParsesIff`; `Recovery.MistakesReported` says what is reported for items that are none), and
  typing rules on the tree (`Verdicts.Verdict`).
* The lexer and the parser invert a printer on whole programs, with all parentheses or with only those that the
  binding powers need (`Rendering.SourceRoundTrip`), and their two failures are characterised: when the parser never
  ends (`Parsing.HangsIff` by its turns; `QuietParsing.SilentHangs` by the tokens alone, as long as nothing is
  reported) and when the lexer reads past the end of its text (`LexerCrash.CrashesIff`).
* Each of the four parts of the assembly compiler refines an independent definition of what it computes.

## How it is arranged

Code that works step by step is a class or a method with loops, and is proved equal to a specification function;
the results are proved about the functions.

| part | specification | imperative model | results |
|---|---|---|---|
| machine and source language | `Ast`, `Words`, `Machine`, `Semantics` | | `Fuel` |
| code generator | `Emission` | `Codegen` | `Slots`, `Labels`, `Constants`, `Resolution`, `SimBase`, `SimOps`, `SimCalls`, `SimFrame`, `Linking`, `Residues`, `Frames`, `Simulation`, `Initialisation`, `Correctness` |
| checker | `Checking` | `Checker` | `TypeRules`, `Verdicts`, `Acceptance`, `Soundness`, `Returns`, `Inspection`, `Values` |
| checker and generator together | | | `Capability`, `Scoping`, `Assembling`, `LoopExits`, `Limits`, `Witnesses` |
| lexer | `Tokens`, `Lexing` | `Lexer` | `TokenShapes`, `LexerCrash`, `StringLiterals`, `IntLiterals` |
| parser | `Parsing` | `Parser` | `Grammar`, `ReadBack`, `SourceGrammar`, `Derivations`, `Comments`, `Recovery`, `QuietParsing`, `Precedence`, `Printer`, `Parentheses`, `RoundTrip`, `Rendering` |
| compilation | | `Driver` | `Texts` |
| symbol table, type table, folding, UTF-8 | in each file | in each file | `SymbolTable`, `TypeTable`, `ConstFold`, `Utf8` |

`Semantics` is a big-step semantics of the source language that shares nothing with the generator but the syntax tree
and the numbering of string constants, and a string literal has a meaning only where the constant of its number holds
its own bytes, which `Constants.LiteralsFound` proves of every run. Values are 64-bit words, arithmetic wraps,
comparisons and division are signed, names are resolved as the checker does, and a run is bounded by a call depth and
a number of loop turns.
`Fuel.RunsAgree` shows that the bounds never change a result. A run is given what its frames hold before anything is
stored in them: nothing known, so that an early read has no meaning, or definite words for every activation.
`Machine` executes labelled instructions on registers, a stack in 8-byte cells, a trace of system calls and the divide
error.

Where the code and the repository's description of the language part ways, the model follows the code:

* A call with more than six arguments leaves the first ones on the stack (`SimCalls.PopsBeyondSix`).
* A local that shares a function's name shadows it in the whole function for the generator, but only from its
  declaration on for the checker. The two agree exactly when no such name is used before the declaration
  (`Scoping.ResolvedAlike`); `Limits.LocalShadowsFunction` is a program where they do not, which exits with whatever
  its frame held.
* Names declared in a block stay declared after it, so an accepted program can read a local that was never written
  (`Limits.ReadsBeforeDeclaration`). The compiler is correct for such runs too: what they read is what memory held
  below the stack when a call was made (`Correctness.MainSimulated`), and `Initialisation.Initialises` is a condition
  on the text under which there are none (`Correctness.InitialisedRunsHaveMeaning`).
* The arguments of `mem.alloc` are not checked, so an `io.write` among them escapes the capability check; the
  capability results say exactly when (`Capability.SyscallsNeedCapability`).
* The checker accepts `core/io.write` and `mem.alloc`, which the generator takes for calls to functions that nothing
  defines, and a library for the tiny runtime without a `main`, which the entry code calls all the same: such code
  does not assemble (`Assembling.AssemblesIff`, `Witnesses.UndefinedCall`, `Witnesses.LibraryWithoutMain`).
* An integer literal past 128 bits is silently 0 (`IntLiterals.AcceptedLiteralValue`).
* A comment directly after a `ret` is taken for the start of a value and reported (`Comments.RetTakesNoComment`).
* A name in parentheses is called like a bare one: `(f) 1` is `f 1`.
* A name followed by `-` is a call with a negated argument, so a subtraction from a bare name has no spelling;
  the printer leaves it out.

## Model

| member | source | states |
|---|---|---|
| Correctness.CompilerCorrect | prototypes/rust_stage0/src/codegen.rs:35-314 | for every accepted program within the side conditions whose `main` terminates whatever its frames hold, the machine stops, and every way it can stop shows the writes of a source run in order and then the exit with its result, or the divide error |
| Correctness.CompilerPrecise | prototypes/rust_stage0/src/codegen.rs:35-314 | the same for a run that reads no local before its declaration ran: the machine does exactly what that one run prescribes |
| Correctness.EveryStopIsMeant | prototypes/rust_stage0/src/codegen.rs:35-314 | with no premise that the source ends: whenever the machine has stopped after a number of steps, some source run within bounds as large explains it, having the same writes and end, or being stuck on a literal past 64 bits, a node of a failed parse or an undefined built-in; the call depth may be smaller if no run comes to it |
| Correctness.NeverStops | prototypes/rust_stage0/src/codegen.rs:157-183 | if at some call depth every run of the source outlasts every number of loop turns, the machine never stops |
| Correctness.MainSimulated | prototypes/rust_stage0/src/codegen.rs:44-51 | there is a run of `main` whose first frame holds what memory holds below the stack at the start and whose later frames hold what memory holds there at calls that the machine comes to, which reads no other local early, and which the machine carries out: its writes and its exit or divide error if it completes within the bounds, and otherwise as many steps as the bound it met |
| Correctness.CallSimulated | prototypes/rust_stage0/src/codegen.rs:67-106 | there is a run of the called function, its frames being memory in the same way and its first frame that of the call, such that the callee's word comes back in `rax` at the next instruction, with `rsp`, `rbp` and all memory from the stack pointer up as before and only the callee's writes made, or the divide error comes, or the machine goes on as long as the bound it met |
| Correctness.AcceptedRunsHaveMeaning | prototypes/rust_stage0/src/sema.rs:40-104 | a run of an accepted executable is stuck only on a literal past 64 bits, a node of a failed parse, an undefined built-in, or, where what the frames hold is not known, a local read before its declaration ran |
| Correctness.InitialisedRunsHaveMeaning | prototypes/rust_stage0/src/sema.rs:106-221 | an accepted executable in which, by a condition on its text, every way to a read of a local gives it a value first never reads one without, at any bounds |
| Residues.RunSettles | prototypes/rust_stage0/src/codegen.rs:67-106 | a run that reads no local early is the same whatever the frames hold |
| Residues.CallSettles | prototypes/rust_stage0/src/codegen.rs:67-106 | a call is the same whatever is found in the frames from which it reads no local early |
| Initialisation.CallInitialised | prototypes/rust_stage0/src/sema.rs:106-221 | no call in a program whose text gives every local a value first reads one early |
| Correctness.LogicalOperators | prototypes/rust_stage0/src/codegen.rs:261-262 | on checked operands, in runs without an early read, the emitted bitwise `and` and `or` are the strict logical ones, both operands being 0 or 1 |
| Driver.Compile | prototypes/rust_stage0/src/driver.rs:119-142 | the outcome on any text: the diagnostics of the first stage that has any, or assembly |
| Driver.CompileItems | prototypes/rust_stage0/src/driver.rs:52-55 | assembly comes out exactly when the checker reports nothing, and then generating cannot fail |
| Driver.LexedIsStream | prototypes/rust_stage0/src/driver.rs:123-127 | what the lexer returns always meets what the parser relies on |
| Driver.PrintedCompiles | prototypes/rust_stage0/src/driver.rs:119-142 | the printed text of an accepted program compiles to that program's code |
| Texts.TextRunsAsMeant | prototypes/rust_stage0/src/driver.rs:119-142 | the code compiled from any text, loaded and started, does what the parsed program means, if that terminates whatever the frames hold |
| Texts.TextRunsExactly | prototypes/rust_stage0/src/driver.rs:119-142 | exactly what it means, if no local is read before its declaration ran |
| Texts.TextStopsAsMeant | prototypes/rust_stage0/src/driver.rs:119-142 | for a text without literals past 64 bits and without undefined built-ins, every stop of the machine is that of a run of the program within bounds as large as the number of steps, whether or not the program was known to end |
| Texts.TextGoesOn | prototypes/rust_stage0/src/driver.rs:119-142 | while no run of the program has ended within bounds as large as a number of steps, the machine has not stopped after them |
| Texts.TextRunsHaveMeaning | prototypes/rust_stage0/src/driver.rs:119-142 | a run of a compiled executable is stuck only on a literal past 64 bits, an undefined built-in, or an early read from an unknown frame: error nodes and path expressions never get there |
| Texts.TextFunctions | prototypes/rust_stage0/src/driver.rs:119-142 | no function of a text has the name of a built-in, and none has an error node if nothing was reported |
| Texts.TextHangs | prototypes/rust_stage0/src/parser.rs:26-83 | for any text, while the parser reports nothing, it never ends if and only if an `unsafe` that no `fn` follows stands outside every body |
| Values.WholeRunsMeet | prototypes/rust_stage0/src/sema.rs:244-247 | no run of an accepted program without error nodes evaluates something that has no value, nor, if the text has none, a literal past 64 bits or an undefined built-in |
| Fuel.RunsAgree | prototypes/rust_stage0/src/ast.rs:45-203 | two completed source runs of one program agree whatever their bounds: the meaning of a program is one |
| Simulation.SimExpr | prototypes/rust_stage0/src/codegen.rs:202-268 | from any state, the code of any expression, nested calls included, leaves its value in `rax`, keeps `rsp`, `rbp` and every local, writes only below `rsp`, and traps exactly when the source divides by zero or overflows; where the source meets a bound, the machine lasts as many steps; and the frames of the calls in it are memory |
| Simulation.SimFnCall | prototypes/rust_stage0/src/codegen.rs:270-296 | the same for a call to a function: arguments left to right, popped into their registers, callee run, frame restored |
| Simulation.SimStmt | prototypes/rust_stage0/src/codegen.rs:114-200 | the code of any statement updates the frame as the source updates its store and leaves by falling through, by the innermost loop's labels, or by the function's end label, as the source does |
| Simulation.SimBlock | prototypes/rust_stage0/src/codegen.rs:108-112 | the same for a block |
| Simulation.SimLoop | prototypes/rust_stage0/src/codegen.rs:157-168 | the same for a `loop`, for any number of turns |
| Simulation.SimWhile | prototypes/rust_stage0/src/codegen.rs:169-183 | the same for a `while`, for any number of turns |
| SimFrame.SimPrologue | prototypes/rust_stage0/src/codegen.rs:83-96 | on entry the frame lies below the return address and holds exactly the parameters |
| SimFrame.SimReturn | prototypes/rust_stage0/src/codegen.rs:101-104 | from the end label, frame and frame pointer are restored and control is at the return address |
| SimOps.SimBinary | prototypes/rust_stage0/src/codegen.rs:240-263 | each operator's code computes the operator on `rax` and `rbx` in 64 bits, or traps where the source does |
| SimOps.SimDivide | prototypes/rust_stage0/src/codegen.rs:246-254 | `cqo` and `idiv` give the truncated quotient and remainder, and fault exactly on 0 and on the most negative number by -1 |
| SimCalls.SimWrite | prototypes/rust_stage0/src/codegen.rs:272-284 | the code of `io.write` makes one write with its three arguments and leaves 0 |
| SimCalls.PopsBeyondSix | prototypes/rust_stage0/src/codegen.rs:286-294 | with more than six arguments only the last six reach registers and the rest stay on the stack |
| Slots.FnSlotsSpread | prototypes/rust_stage0/src/codegen.rs:67-75 | with distinct parameters all locals have distinct slots, multiples of 8 inside the 16-aligned frame |
| Slots.ParamSlotsSpread | prototypes/rust_stage0/src/codegen.rs:69-73 | the same for the parameters, one slot for each |
| Labels.ProgramLabelsUnique | prototypes/rust_stage0/src/codegen.rs:310-314 | every label of the emitted program is defined at most once if and only if function names are distinct and none is that of the entry point |
| Labels.StmtNumbered | prototypes/rust_stage0/src/codegen.rs:126-193 | a statement's code defines only labels of its own range of numbers, each at most once |
| Labels.FnNumbered | prototypes/rust_stage0/src/codegen.rs:67-106 | a function's code begins with its name and otherwise defines only generated labels of its own range |
| Labels.StmtResolved | prototypes/rust_stage0/src/codegen.rs:114-193 | every jump of a statement's code goes to a label it defines or to one of the enclosing loop or function end |
| Labels.FnResolved | prototypes/rust_stage0/src/codegen.rs:67-106 | no jump leaves the code of its function |
| Linking.FnInProgram | prototypes/rust_stage0/src/codegen.rs:53-57 | a function found by name is in the emitted code where a call to that name goes, with its own string constants |
| Constants.ConstantsAreLiterals | prototypes/rust_stage0/src/codegen.rs:304-308 | a string constant is in the emitted list and loaded by the code if and only if it is a literal of the text: the k-th constant is the k-th string literal in the order of the text, counted apart from the generator, and holds that literal's bytes |
| Constants.LiteralsFound | prototypes/rust_stage0/src/codegen.rs:206-209 | no run of a program takes the address of a string literal and finds other bytes than the literal's there |
| Constants.WriteShows | prototypes/rust_stage0/src/codegen.rs:58-64 | with the constants laid in memory, writing a string literal with a length up to its own puts out exactly that many of its bytes |
| Codegen.Generator.Emit | prototypes/rust_stage0/src/codegen.rs:35-65 | the whole emitted code and the string constants of a program with their bytes, from empty buffers |
| Codegen.Generator.Register | prototypes/rust_stage0/src/codegen.rs:36-40 | all function names are known before any code is emitted |
| Codegen.Generator.EmitStart | prototypes/rust_stage0/src/codegen.rs:44-51 | the entry code appears exactly for the tiny runtime |
| Codegen.Generator.EmitFns | prototypes/rust_stage0/src/codegen.rs:53-57 | the functions' code in order, labels and strings numbered through |
| Codegen.Generator.EmitFn | prototypes/rust_stage0/src/codegen.rs:67-106 | a function's code, its strings and how many labels it takes |
| Codegen.Generator.EmitPrologue | prototypes/rust_stage0/src/codegen.rs:83-96 | the frame set up and the parameters stored, at most six |
| Codegen.Generator.EmitEpilogue | prototypes/rust_stage0/src/codegen.rs:98-105 | a void function that falls off its end returns 0 |
| Codegen.Generator.EmitBlock | prototypes/rust_stage0/src/codegen.rs:108-112 | a block's code, loop labels as before |
| Codegen.Generator.EmitStmt | prototypes/rust_stage0/src/codegen.rs:114-200 | a statement's code, the label stacks restored whatever it contains |
| Codegen.Generator.EmitIf | prototypes/rust_stage0/src/codegen.rs:134-156 | both branches' code with labels of their own |
| Codegen.Generator.EmitLoop | prototypes/rust_stage0/src/codegen.rs:157-168 | the body's code between its own start and end, which `continue` and `break` go to |
| Codegen.Generator.EmitWhile | prototypes/rust_stage0/src/codegen.rs:169-183 | the same with the condition before every turn |
| Codegen.Generator.EmitExpr | prototypes/rust_stage0/src/codegen.rs:202-268 | an expression's code, and its string constants with their bytes |
| Codegen.Generator.EmitBinary | prototypes/rust_stage0/src/codegen.rs:231-264 | left operand, right operand, then the operator, with the left one saved on the stack between |
| Codegen.Generator.EmitUnary | prototypes/rust_stage0/src/codegen.rs:220-230 | operand, then the operator |
| Codegen.Generator.EmitCall | prototypes/rust_stage0/src/codegen.rs:270-296 | a call's code: arguments pushed in order, popped in reverse, `io.write` inline |
| Codegen.Generator.EmitArgs | prototypes/rust_stage0/src/codegen.rs:272-289 | every argument is evaluated and pushed, left to right |
| Codegen.Generator.EmitPops | prototypes/rust_stage0/src/codegen.rs:290-294 | arguments come off in reverse into their registers, those past the sixth not at all |
| Codegen.Generator.EmitCmp | prototypes/rust_stage0/src/codegen.rs:298-302 | a comparison leaves a truth value in `rax` |
| Codegen.Generator.StringLabel | prototypes/rust_stage0/src/codegen.rs:304-308 | a new constant gets the next number |
| Codegen.Generator.FreshLabel | prototypes/rust_stage0/src/codegen.rs:310-314 | no number is given out twice |
| Codegen.CollectLocals | prototypes/rust_stage0/src/codegen.rs:322-347 | every declaration of a block gets a slot, earlier names keep theirs |
| Codegen.CollectParams | prototypes/rust_stage0/src/codegen.rs:69-73 | every parameter gets a slot, in order |
| Acceptance.CheckerMakesGeneratorTotal | prototypes/rust_stage0/src/sema.rs:80-221 | in an accepted program declared names of a function are distinct, every declaration and assignment has a slot, slots are distinct inside the frame, and function names are distinct |
| Verdicts.Verdict | prototypes/rust_stage0/src/sema.rs:40-395 | a code is among the diagnostics of a program if and only if the program breaks that code's rule, each rule being stated on the text by itself: what is declared before a place, what types its parts have there, and where it stands |
| Verdicts.AcceptsIff | prototypes/rust_stage0/src/sema.rs:40-395 | a program is accepted if and only if it breaks no rule |
| Verdicts.AssignedIsMut | prototypes/rust_stage0/src/sema.rs:114-130 | in an accepted program what is assigned was declared before in the text of its function by a `mut`, never by a `let` or as a parameter, and is given a value of its type; that any other assignment to it passes is `Verdict` |
| Verdicts.TypesAgree | prototypes/rust_stage0/src/sema.rs:223-369 | the type the checker gives an expression is the type it has by the rules |
| Verdicts.ReturnsIff | prototypes/rust_stage0/src/sema.rs:471-488 | the analysis says that a block returns if and only if every way through its branches comes to a `ret` |
| Verdicts.LiteralsFit | prototypes/rust_stage0/src/sema.rs:371-463 | an integer type of n bits takes exactly the literals up to 2^n - 1, or up to 2^(n-1) - 1 where it is signed |
| Verdicts.BlocksInOrder | prototypes/rust_stage0/src/sema.rs:106-110 | the diagnostics of a block are those of its first part and then those of the rest, which sees the declarations of the first |
| Verdicts.FnsInOrder | prototypes/rust_stage0/src/sema.rs:73-77 | those of functions come in the order of the functions |
| Verdicts.PartsInOrder | prototypes/rust_stage0/src/sema.rs:143-171 | those of operands, conditions, bodies and branches come from left to right |
| Assembling.AssemblesIff | prototypes/rust_stage0/src/codegen.rs:35-65 | the code of an accepted program has every jump and call go to a label of its own and no label twice, if and only if no function has the entry point's name, none calls `mem.alloc` or `core/io.write`, even in arguments the checker skips, and the tiny runtime has a `main` |
| Assembling.EveryCallDefined | prototypes/rust_stage0/src/codegen.rs:44-51 | every call of an accepted program goes to a label of its code if and only if none calls an undefined built-in and the entry point has a `main` |
| Assembling.CallsDefined | prototypes/rust_stage0/src/codegen.rs:270-296 | every call in the emitted functions goes to one of them if and only if none calls an undefined built-in |
| Assembling.CallsMatch | prototypes/rust_stage0/src/sema.rs:350-368 | every checked call or bare function name goes to a declared function with as many parameters as there are arguments |
| Assembling.LabelsDefined | prototypes/rust_stage0/src/codegen.rs:44-57 | the function labels of a program's code are its functions' names and the entry point |
| LoopExits.StraysIffDropped | prototypes/rust_stage0/src/codegen.rs:184-193 | for any function, the checker reports a `break` or `continue` outside a loop if and only if the generator would drop one |
| LoopExits.JumpsKept | prototypes/rust_stage0/src/sema.rs:172-181 | no `break` or `continue` of an accepted program is dropped |
| Inspection.FnEmits | prototypes/rust_stage0/src/codegen.rs:202-296 | a system call or a call of a given label is in a function's code if and only if a part of one of its expressions issues it |
| Scoping.ResolvedAlike | prototypes/rust_stage0/src/codegen.rs:211-218 | in an accepted function the generator takes every name for what the checker takes it for if and only if no function's name is used before a local of that name is declared |
| Scoping.OccurrencesDeclared | prototypes/rust_stage0/src/sema.rs:228-243 | every name in an accepted function is that of a local declared before it, which has a slot, or of a function |
| Acceptance.BlockAccepted | prototypes/rust_stage0/src/sema.rs:106-221 | an accepted block declares new names only, the generator gives slots to exactly those, and assignments go to names that have one |
| Acceptance.FnAccepted | prototypes/rust_stage0/src/sema.rs:80-104 | the checker's variables at the end of a function are exactly the generator's slots |
| Acceptance.Accepted | prototypes/rust_stage0/src/sema.rs:40-78 | in an accepted program every function is registered once with its own signature, passes, and `main` is as required |
| Soundness.ExprSound | prototypes/rust_stage0/src/sema.rs:223-369 | whatever the frames hold, evaluating a checked expression is never stuck on a call, an arity or a name; and in runs without an early read one of type bool is 0 or 1 |
| Soundness.OperatorSound | prototypes/rust_stage0/src/sema.rs:265-304 | every operator accepted on its operands' types yields a value of the checked type, 0 or 1 for comparisons and, on operands that are 0 or 1, for `and` and `or` |
| Words.AndOrBits | prototypes/rust_stage0/src/codegen.rs:261-262 | the bitwise `and` and `or` of the machine, bit by bit |
| Soundness.StmtSound | prototypes/rust_stage0/src/sema.rs:112-197 | a checked statement leaves no loop but its own and declares what the checker says; in runs without an early read it keeps every bool local 0 or 1 and returns what the function's type says |
| Soundness.FnSound | prototypes/rust_stage0/src/sema.rs:80-104 | a call of a checked function is never stuck on a name or an arity; in runs without an early read it returns a value of its return type when given arguments of its parameters' types |
| Returns.BlockReturnsSound | prototypes/rust_stage0/src/sema.rs:475-488 | no run of a block that the analysis says returns goes off its end |
| Returns.NothingEscapes | prototypes/rust_stage0/src/sema.rs:158-181 | no run of a block checked outside every loop ends in a `break` or `continue` |
| Returns.CheckedBodyReturns | prototypes/rust_stage0/src/sema.rs:100-103 | every terminating run of a checked body ends in a `ret`, or off the end of a void function |
| Capability.SyscallsNeedCapability | prototypes/rust_stage0/src/sema.rs:317-349 | without the syscall capability, an accepted function's code has a system call if and only if it hides an `io.write` among the unchecked arguments of `mem.alloc` |
| Capability.HidingNeedsHeap | prototypes/rust_stage0/src/sema.rs:338-349 | without the heap capability nothing is hidden |
| Capability.OnlyTheExit | prototypes/rust_stage0/src/codegen.rs:44-51 | without the syscall capability the emitted program's one system call is the exit, exactly when no function hides a write |
| Capability.UnsafeIsEnclosed | prototypes/rust_stage0/src/sema.rs:182-238 | every use of an unsafe function and every `mem.alloc` of an accepted program, those among the arguments of a `mem.alloc` too, is inside an unsafe function or block, and the package has the unsafe or the heap capability for it |
| Inspection.VisitedPass | prototypes/rust_stage0/src/sema.rs:223-369 | every part that the checker looks at passes on its own |
| Limits.ReadsBeforeDeclaration | prototypes/rust_stage0/src/sema.rs:199-221 | an accepted program that reads a local no run has written, at any bounds: it returns whatever word its frame held |
| Limits.LocalShadowsFunction | prototypes/rust_stage0/src/codegen.rs:211-214 | an accepted program that means 7 and that the machine, started on a suitable stack, makes exit with any 32-bit code asked for |
| Witnesses.BadEscapeCrashes | prototypes/rust_stage0/src/lexer.rs:161-191 | a text of five bytes at which the lexer reads past its end |
| Witnesses.UnsafeHangs | prototypes/rust_stage0/src/parser.rs:37-41 | the text `unsafe`, which lexes cleanly and which the parser never gets past |
| Witnesses.SyscallWithoutCapability | prototypes/rust_stage0/src/sema.rs:338-349 | an accepted package without the syscall capability whose code makes a system call that is not the exit |
| Witnesses.UndefinedCall | prototypes/rust_stage0/src/codegen.rs:286-296 | an accepted package whose code calls what nothing defines |
| Witnesses.LibraryWithoutMain | prototypes/rust_stage0/src/codegen.rs:44-51 | an accepted library whose entry code calls a missing `main` |
| Checker.Checker.CheckProgram | prototypes/rust_stage0/src/sema.rs:40-78 | all signatures and all diagnostics of a program, in order, which `Verdicts.Verdict` says are those of the broken rules |
| Checker.Checker.RegisterAll | prototypes/rust_stage0/src/sema.rs:41-59 | the first function of each name is registered, later ones are reported |
| Checker.Checker.CheckMain | prototypes/rust_stage0/src/sema.rs:61-71 | an executable needs a safe `main` without parameters that returns i32 |
| Checker.Checker.CheckFn | prototypes/rust_stage0/src/sema.rs:80-104 | a function's diagnostics, from a scope of its parameters |
| Checker.Checker.CheckParams | prototypes/rust_stage0/src/sema.rs:87-99 | distinct parameters become immutable variables |
| Checker.Checker.CheckBlock | prototypes/rust_stage0/src/sema.rs:106-110 | a block's diagnostics, and its variables stay |
| Checker.Checker.CheckStmt | prototypes/rust_stage0/src/sema.rs:112-197 | a statement's diagnostics; a `mut` declares a mutable variable and a `let` none; depths of loops and unsafe blocks are as before |
| Checker.Checker.CheckUnsafe | prototypes/rust_stage0/src/sema.rs:182-189 | a block is unsafe inside, not after |
| Checker.Checker.CheckIf | prototypes/rust_stage0/src/sema.rs:143-157 | a bool condition, then both branches in order |
| Checker.Checker.CheckRet | prototypes/rust_stage0/src/sema.rs:131-142 | a result exactly where the function returns one, and of its type |
| Checker.Checker.CheckAssign | prototypes/rust_stage0/src/sema.rs:120-130 | only a declared mutable variable is assigned, with its type |
| Checker.Checker.DeclareVar | prototypes/rust_stage0/src/sema.rs:199-221 | a name is declared once in a function |
| Checker.Checker.ExprType | prototypes/rust_stage0/src/sema.rs:223-308 | an expression's type and diagnostics |
| Checker.Checker.IdentType | prototypes/rust_stage0/src/sema.rs:228-243 | a variable first, then a function without parameters, unsafe where it must be |
| Checker.Checker.BinaryType | prototypes/rust_stage0/src/sema.rs:265-304 | both operands, then what the operator asks of their types |
| Checker.Checker.CallType | prototypes/rust_stage0/src/sema.rs:310-369 | a call's type and diagnostics: built-ins, arity, argument types, unsafe |
| Checker.Checker.WriteType | prototypes/rust_stage0/src/sema.rs:317-337 | `io.write` needs the capability and three arguments of its types |
| Checker.Checker.FnCallType | prototypes/rust_stage0/src/sema.rs:350-368 | a known function, its number of arguments, and unsafe where it must be |
| Checker.Checker.ArgTypes | prototypes/rust_stage0/src/sema.rs:359-362 | each argument against its parameter, in order |
| Checker.Checker.RequireType | prototypes/rust_stage0/src/sema.rs:371-387 | a literal must fit the expected type, anything else must be of it |
| Lexer.Scanner.Lex | prototypes/rust_stage0/src/lexer.rs:28-69 | the tokens and diagnostics of any text, which `TokenShapes.LexIff` says are what the text shows, or that it reads past the end |
| Lexer.Scanner.LexOne | prototypes/rust_stage0/src/lexer.rs:28-69 | one token, with the lines and columns of its ends and its diagnostics |
| Lexer.Scanner.LexNewline | prototypes/rust_stage0/src/lexer.rs:71-85 | LF, CR LF and a lone CR are one line end each |
| Lexer.Scanner.LexIdent | prototypes/rust_stage0/src/lexer.rs:87-97 | the longest word of letters, digits and underscores, or the keyword it is |
| Lexer.Scanner.LexInt | prototypes/rust_stage0/src/lexer.rs:99-146 | an integer to its end, and every mistake in it |
| Lexer.Scanner.LexString | prototypes/rust_stage0/src/lexer.rs:148-221 | a literal to its closing quote, or where it breaks off, with every bad escape |
| Lexer.Scanner.LexEscape | prototypes/rust_stage0/src/lexer.rs:161-204 | where an escape leads, or that it runs past the end of the text |
| Lexer.Scanner.LexByteLit | prototypes/rust_stage0/src/lexer.rs:223-247 | a byte literal, or that its line ends first |
| Lexer.Scanner.LexLineComment | prototypes/rust_stage0/src/lexer.rs:249-260 | to the end of the line |
| Lexer.Scanner.LexBlockComment | prototypes/rust_stage0/src/lexer.rs:262-288 | to the first closing mark, or that there is none |
| Lexer.Scanner.LexPunctuation | prototypes/rust_stage0/src/lexer.rs:290-305 | one or two characters by what follows |
| Lexer.Scanner.InvalidChar | prototypes/rust_stage0/src/lexer.rs:307-321 | any other byte is an error token of its own |
| Lexer.Scanner.Advance | prototypes/rust_stage0/src/lexer.rs:333-349 | line and column follow the place by the independent count of line ends, CR LF being one step |
| Lexing.LexTiles | prototypes/rust_stage0/src/lexer.rs:28-385 | tokens are in order, in bounds and disjoint, only spaces and tabs lie between, each is its own slice with the counted lines and columns, and the last is the end of file at the end |
| TokenShapes.LexIff | prototypes/rust_stage0/src/lexer.rs:28-69 | a text lexes to some tokens and diagnostics if and only if, by shapes written out on the characters, it is those tokens with blanks between, each with its place, and has exactly those mistakes |
| TokenShapes.PieceIff | prototypes/rust_stage0/src/lexer.rs:28-321 | at any place the lexer takes exactly what the shapes say: a word of letters, digits and underscores to its end, a number with its digits and mistakes, a string with its escapes, a byte, a comment, the longer of two marks, or a read past the end |
| TokenShapes.LineCounts | prototypes/rust_stage0/src/lexer.rs:333-349 | the line of a place is one more than the number of line ends before it |
| TokenShapes.ColumnCounts | prototypes/rust_stage0/src/lexer.rs:333-349 | its column counts from the last of them |
| TokenShapes.WorthIs | prototypes/rust_stage0/src/lexer.rs:99-146 | a digit is worth its place in `0123456789abcdef` or `0123456789ABCDEF`, and nothing else is a digit |
| TokenShapes.PrefixIff | prototypes/rust_stage0/src/lexer.rs:99-115 | `0x`, `0b`, `0o` and their capitals, and nothing else, change the base |
| LexerCrash.CrashesIff | prototypes/rust_stage0/src/lexer.rs:161-191 | the lexer reads past the end of a text if and only if the text ends in an escape `\x` before CR LF and a quote in its place would have ended the text in a string literal |
| LexerCrash.CrashNeedsBadEscape | prototypes/rust_stage0/src/lexer.rs:339-342 | no other ending of a text can crash the lexer |
| IntLiterals.AcceptedLiteralValue | prototypes/rust_stage0/src/parser.rs:645-656 | an integer lexed without diagnostics parses to its positional value in its base, and to none exactly past 128 bits |
| StringLiterals.StringRoundTrip | prototypes/rust_stage0/src/lexer.rs:148-221 | every byte string, printed with escapes, lexes to exactly one string literal without diagnostics and decodes to itself |
| StringLiterals.AcceptedDecodes | prototypes/rust_stage0/src/parser.rs:658-691 | a literal accepted without diagnostics decodes to one byte for each character or escape: none is dropped |
| StringLiterals.UnitBytes | prototypes/rust_stage0/src/parser.rs:658-691 | a plain character stands for itself, each escape for a byte given by number, and two hexadecimal digits of either case for sixteen times the first and the second |
| StringLiterals.PrintedAt | prototypes/rust_stage0/src/lexer.rs:148-221 | a printed literal is one token wherever it stands |
| StringLiterals.DecodeString | prototypes/rust_stage0/src/parser.rs:658-691 | the bytes of any literal text that decoding cuts between characters |
| StringLiterals.AcceptedCutsWell | prototypes/rust_stage0/src/parser.rs:680-686 | decoding a literal accepted without diagnostics cuts its text only between characters, in any text that goes on with no one-byte character |
| Rendering.SourceRoundTrip | prototypes/rust_stage0/src/parser.rs:26-488 | the source text of any printable program, with full or minimal parentheses, lexes and parses to that program, and neither step reports anything |
| Rendering.RenderLexes | prototypes/rust_stage0/src/lexer.rs:28-69 | a text of spaced tokens lexes to those tokens without diagnostics |
| RoundTrip.ProgramReads | prototypes/rust_stage0/src/parser.rs:26-146 | the tokens of a printed program parse to it without diagnostics |
| Derivations.ParsesIff | prototypes/rust_stage0/src/parser.rs:26-505 | a row of tokens parses to some items without a diagnostic if and only if the grammar of source files, an independent relation on the tokens with its line ends and comments, derives exactly those items from it |
| Comments.SpacesMeanNothing | prototypes/rust_stage0/src/parser.rs:589-597 | a comment or a line end more, at the start or beside another, leaves what parses without a diagnostic as it is; only directly after a `ret` a comment does not go |
| Comments.RetTakesNoComment | prototypes/rust_stage0/src/parser.rs:239-249 | there a comment is always reported |
| Recovery.MistakesReported | prototypes/rust_stage0/src/parser.rs:26-146 | a file of items, stray tokens, `use` without a path, functions whose signature breaks off in any way and functions without `end`: the parser yields the items and the unended functions, and exactly these codes in order, the first 100 and one more if there were others |
| RoundTrip.StmtReads | prototypes/rust_stage0/src/parser.rs:170-323 | the tokens of a printed statement parse to it and no further |
| RoundTrip.ItemReads | prototypes/rust_stage0/src/parser.rs:67-146 | the same for an item |
| ReadBack.ReadsWhole | prototypes/rust_stage0/src/parser.rs:325-454 | every tree of the concrete grammar, spelled out, parses to the expression it stands for |
| ReadBack.ArgReads | prototypes/rust_stage0/src/parser.rs:371-399 | the same for a tree in argument position |
| Precedence.PrecedenceTable | prototypes/rust_stage0/src/parser.rs:507-525 | two operators without parentheses group by an explicit table of six levels, to the left on one level |
| Precedence.OperatorsSpelled | prototypes/rust_stage0/src/parser.rs:507-525 | the text of each operator lexes to one token, and the parser takes that token for that operator |
| Precedence.PrefixesSpelled | prototypes/rust_stage0/src/parser.rs:345-369 | the same for the prefix operators |
| Precedence.LeftParenNeeded | prototypes/rust_stage0/src/parser.rs:325-343 | the minimal printing parenthesises a left operand of two operators if and only if the text without those parentheses parses to another tree |
| Precedence.RightParenNeeded | prototypes/rust_stage0/src/parser.rs:325-343 | the same for a right operand |
| Parentheses.OperandParenNeeded | prototypes/rust_stage0/src/parser.rs:345-369 | the minimal printing parenthesises the operand of a prefix operator, any printable expression, if and only if the text without those parentheses parses to something else |
| Parentheses.ArgumentParenNeeded | prototypes/rust_stage0/src/parser.rs:371-399 | the same for the argument of a call |
| Parentheses.OperandNeeds | prototypes/rust_stage0/src/parser.rs:345-369 | before the text of any tree of the grammar a prefix operator applies to the whole of it if and only if it is no binary operation |
| Parentheses.ArgumentNeeds | prototypes/rust_stage0/src/parser.rs:371-399 | after a name the text of any tree is its one argument if and only if the tree is neither a binary operation nor a call |
| Printer.ShowFits | prototypes/rust_stage0/src/parser.rs:325-369 | both printing styles yield trees of the grammar that stand for the printed expression |
| Printer.DecimalParses | prototypes/rust_stage0/src/parser.rs:645-656 | a number printed in base ten is read back below 2^128, and is none from there |
| Parsing.StatementsProgress | prototypes/rust_stage0/src/parser.rs:148-168 | a statement always takes a token, so a block never reports a parser without progress |
| Parsing.ItemsProgress | prototypes/rust_stage0/src/parser.rs:34-62 | a turn of the loop over items moves on if and only if it is not at an `unsafe` that no `fn` follows |
| Parsing.StuckForEver | prototypes/rust_stage0/src/parser.rs:37-41 | once there, no number of turns moves it |
| Parsing.ParsingEnds | prototypes/rust_stage0/src/parser.rs:26-65 | where every `unsafe` is followed by `fn` parsing ends, with at most 101 diagnostics |
| Parsing.HangsIff | prototypes/rust_stage0/src/parser.rs:26-83 | the parser never ends if and only if some turn of the loop over items starts at an `unsafe` that no `fn` follows |
| QuietParsing.SilentHangs | prototypes/rust_stage0/src/parser.rs:26-83 | as long as nothing is reported, the parser never ends if and only if an `unsafe` that no `fn` follows stands outside every body, counted on the tokens |
| QuietParsing.EnclosedEnds | prototypes/rust_stage0/src/parser.rs:26-83 | where every `unsafe` that no `fn` follows stands inside a body, the parser ends or has reported something before it hangs |
| QuietParsing.StrayIsNoticed | prototypes/rust_stage0/src/parser.rs:26-83 | where one stands outside, the parser hangs or reports something |
| QuietParsing.ParsedWhole | prototypes/rust_stage0/src/parser.rs:26-454 | what is parsed without a diagnostic has no error node |
| QuietParsing.ItemStepQuiet | prototypes/rust_stage0/src/parser.rs:34-62 | an item parsed without a diagnostic closes every body it opens and has its unsafe blocks inside |
| Parser.Reader.Parse | prototypes/rust_stage0/src/parser.rs:26-65 | the items and diagnostics of any stream, which `Derivations.ParsesIff` says are those the grammar derives where nothing is reported, or that the loop never ends |
| Parser.Reader.ParseUse | prototypes/rust_stage0/src/parser.rs:67-73 | a `use` item, and where the parser is after it |
| Parser.Reader.ParseFnItem | prototypes/rust_stage0/src/parser.rs:75-95 | a function, unsafe or not, and the recovery when it is none |
| Parser.Reader.ParseNamedFn | prototypes/rust_stage0/src/parser.rs:84-121 | name, parameters and arrow, or the recovery from what is missing |
| Parser.Reader.ParseParams | prototypes/rust_stage0/src/parser.rs:92-116 | parameters up to the arrow or the end of the line |
| Parser.Reader.ParseFnRest | prototypes/rust_stage0/src/parser.rs:122-145 | return type, body and `end` |
| Parser.Reader.ParseBlock | prototypes/rust_stage0/src/parser.rs:148-168 | the statements up to an `end`, an `else` or the end of file |
| Parser.Reader.ParseStatement | prototypes/rust_stage0/src/parser.rs:170-199 | the statement by its first tokens |
| Parser.Reader.ParseVar | prototypes/rust_stage0/src/parser.rs:201-224 | a declaration, or the recovery from what is missing |
| Parser.Reader.ParseAssign | prototypes/rust_stage0/src/parser.rs:226-237 | an assignment |
| Parser.Reader.ParseRet | prototypes/rust_stage0/src/parser.rs:239-249 | a return, with a result unless the statement ends there |
| Parser.Reader.ParseIf | prototypes/rust_stage0/src/parser.rs:251-276 | both branches |
| Parser.Reader.ParseLoop | prototypes/rust_stage0/src/parser.rs:278-289 | a loop and its body |
| Parser.Reader.ParseWhile | prototypes/rust_stage0/src/parser.rs:291-303 | a loop with its condition |
| Parser.Reader.ParseUnsafeBlock | prototypes/rust_stage0/src/parser.rs:305-316 | an unsafe block |
| Parser.Reader.ParseExprStmt | prototypes/rust_stage0/src/parser.rs:318-323 | an expression as a statement |
| Parser.Reader.ParseExpr | prototypes/rust_stage0/src/parser.rs:325-343 | an expression whose operators bind at least as tightly as asked |
| Parser.Reader.ParsePrefix | prototypes/rust_stage0/src/parser.rs:345-369 | prefix operators, then a primary and its arguments |
| Parser.Reader.FinishCall | prototypes/rust_stage0/src/parser.rs:371-399 | a name takes every argument that follows |
| Parser.Reader.ParsePrimary | prototypes/rust_stage0/src/parser.rs:401-454 | a literal, a name, or an expression in parentheses |
| Parser.Reader.ParsePath | prototypes/rust_stage0/src/parser.rs:456-488 | segments and their separator |
| Parser.Reader.ParseTypeRef | prototypes/rust_stage0/src/parser.rs:490-505 | a type name, or a pointer to one |
| Parser.Reader.Bump | prototypes/rust_stage0/src/parser.rs:553-559 | one token on, but never past the end of file |
| Parser.Reader.Expect | prototypes/rust_stage0/src/parser.rs:572-580 | the token if it is of that kind, else nothing taken and a diagnostic |
| Parser.Reader.ConsumeStatementEnd | prototypes/rust_stage0/src/parser.rs:589-593 | past line ends and comments, any number of each, to something else |
| Parser.Reader.SynchronizeStatement | prototypes/rust_stage0/src/parser.rs:599-616 | on to the next line end or block end |
| Parser.Reader.SynchronizeItem | prototypes/rust_stage0/src/parser.rs:618-622 | on to the next item |
| Parser.Reader.Report | prototypes/rust_stage0/src/parser.rs:624-642 | at most 100 diagnostics, then one that says so |
| SymbolTable.LiveSlotsDisjoint | compiler/fasm/semantic_symbols.asm:8-78 | after any run of enter, declare and leave, live symbols own disjoint slots between 1 and the high-water mark |
| SymbolTable.HighCoversRun | compiler/fasm/semantic_symbols.asm:56-66 | every slot ever given out in a run is at most the final high-water mark |
| SymbolTable.InnermostWins | compiler/fasm/semantic_symbols.asm:133-170 | a name means the symbol of the innermost scope that declares it |
| SymbolTable.Undeclared | compiler/fasm/semantic_symbols.asm:133-170 | a name declared in no live scope means nothing |
| SymbolTable.FlatLookup | compiler/fasm/semantic_symbols.asm:133-170 | the backward search of the flat array finds what the stack of scopes says |
| SymbolTable.ScopeRestores | compiler/fasm/semantic_scope.asm:4-37 | leaving a scope restores every earlier lookup and the next free slot, whatever happened inside |
| SymbolTable.StepSound | compiler/fasm/semantic_symbols.asm:8-78 | every operation keeps the invariant: no duplicates in a scope, slots contiguous, mark never lowered |
| SymbolTable.RunSound | compiler/fasm/semantic_symbols.asm:8-78 | so does every run |
| SymbolTable.DeclareMeans | compiler/fasm/semantic_symbols.asm:8-78 | a declaration is taken if and only if fewer than 64 symbols are live and the innermost scope has none of that name; then the name means a symbol with the declared flag and type in the slots after the last ones taken, every other name means what it meant, and the mark is the larger of the old one and that slot |
| SymbolTable.ScopeMeans | compiler/fasm/semantic_scope.asm:4-37 | at most 32 scopes are entered inside the outermost one, which is never left |
| SymbolTable.HighWasGiven | compiler/fasm/semantic_symbols.asm:56-66 | the high-water mark is 0 or a slot that was given out |
| SymbolTable.Symbols.constructor | compiler/fasm/semantic_symbols.asm:8-78 | an empty table stands for one empty scope |
| SymbolTable.Symbols.Add | compiler/fasm/semantic_symbols.asm:8-78 | a symbol is added exactly when there is room and its scope has none of that name, and the arrays then stand for the stack with it |
| SymbolTable.Symbols.FindCurrentScope | compiler/fasm/semantic_symbols.asm:80-131 | the current scope's symbol of that name, or 0 when there is none |
| SymbolTable.Symbols.Find | compiler/fasm/semantic_symbols.asm:133-170 | the symbol that the name means by the scopes, or 0 |
| SymbolTable.Symbols.SlotForToken | compiler/fasm/semantic_symbols.asm:172-182 | the slot of what the name means, or 0 |
| SymbolTable.Symbols.PushScope | compiler/fasm/semantic_scope.asm:4-22 | a new innermost scope exactly when there is room |
| SymbolTable.Symbols.PopScope | compiler/fasm/semantic_scope.asm:24-37 | the innermost scope is gone; the outermost never goes |
| TypeTable.MeaningsDiffer | compiler/asm/semantic_types.asm:73-197 | two type numbers mean the same structural type if and only if they are equal |
| TypeTable.MeaningKept | compiler/asm/semantic_types.asm:73-197 | growing the table changes no number's meaning |
| TypeTable.InternMeans | compiler/asm/semantic_types.asm:73-197 | interning yields the number of the asked structural type: the old one if and only if there is one, a new one when there is room, 0 exactly when there is none |
| TypeTable.InternNames | compiler/asm/semantic_types.asm:73-197 | interning a pointer to a type or an array of it yields the number of that very pointer or array type, its mutability one byte and its length 64 bits |
| TypeTable.SoundIff | compiler/asm/semantic_types.asm:73-197 | a table whose inner types all come earlier stays so if and only if the inner type asked for is there, or nothing is added |
| TypeTable.InternFormed | compiler/asm/semantic_types.asm:73-197 | whatever is interned, the primitives stay, every other type is a pointer or an array, and none is there twice |
| TypeTable.RunKeepsMeanings | compiler/asm/semantic_types.asm:73-197 | over any run of interning the table stays sound and no number changes its meaning |
| TypeTable.Types.constructor | compiler/asm/semantic_types.asm:4-19 | the primitive types, each under its own number |
| TypeTable.Types.InternPtr | compiler/asm/semantic_types.asm:73-120 | the table and the number that interning a pointer to any number prescribes |
| TypeTable.Types.InternArray | compiler/asm/semantic_types.asm:148-197 | the same for an array type |
| TypeTable.Types.GetInner | compiler/asm/semantic_types.asm:122-146 | the target's number exactly for a pointer type |
| TypeTable.Types.GetElementOfArray | compiler/asm/semantic_types.asm:202-225 | the element's number exactly for an array type |
| TypeTable.Types.ArrayCount | compiler/asm/semantic_types.asm:227-240 | the length of the meant array type, 0 for others |
| TypeTable.Types.SlotCount | compiler/asm/semantic_types.asm:242-272 | the product of the meant type's dimensions modulo 2^64, where an array of length 0 counts as 1 with all its elements |
| ConstFold.TryFold | compiler/fasm/emitter_expr.asm:1564-1777 | two literals fold exactly when the mathematical result exists and is in the 64-bit range of their sign, and then to it, or for exclusive or, shifts and rotations to the word with exactly those bits; anything else does not fold |
| ConstFold.FoldAdd | compiler/fasm/emitter_expr.asm:1625-1636 | by overflow and carry, exactly the sums in range |
| ConstFold.FoldSub | compiler/fasm/emitter_expr.asm:1638-1649 | exactly the differences in range |
| ConstFold.FoldMul | compiler/fasm/emitter_expr.asm:1651-1662 | exactly the products in range |
| ConstFold.FoldDivide | compiler/fasm/emitter_expr.asm:1664-1694 | quotient and remainder exactly when the divisor is not 0, and the hardware fault on the most negative number by -1 |
| ConstFold.FoldPower | compiler/fasm/emitter_expr.asm:1725-1755 | exactly the powers in range, an exponent below 1 giving 1, though the loop gives up at the first partial product outside |
| ConstFold.PowerEscapes | compiler/fasm/emitter_expr.asm:1743-1751 | once a power leaves the range every higher one is outside too |
| ConstFold.FoldBits | compiler/fasm/emitter_expr.asm:1696-1723 | bit i of the exclusive or is 1 where the operands' bits differ, of a shift left by k bit i - k or 0, of a shift right bit i + k or 0, of the rotations bit i - k or i + k modulo 64, where k is the count modulo 64 |
| ConstFold.RotationFoldsBack | compiler/fasm/emitter_expr.asm:1713-1723 | folding a rotation left and then right by the same count, any count, gives the operand back |
| ConstFold.XorFoldsBack | compiler/fasm/emitter_expr.asm:1696-1699 | folding exclusive or twice with one operand gives the other back |
| ConstFold.LiteralsNeverFault | compiler/fasm/semantic_expr.asm:742-745 | signed literals, at most 2^63 - 1, never fold into the hardware fault |
| Utf8.ValidateUtf8Buffer | compiler/fasm/utf8.asm:35-177 | a buffer is accepted if and only if it is the encoding of some sequence of Unicode scalar values (sections 3 and 4 of RFC 3629) |
| Utf8.CharacterSize | compiler/fasm/utf8.asm:38-185 | one turn takes exactly the first character's bytes, or rejects, and reads within the length |
| Utf8.ValidateSourceBytes | compiler/fasm/utf8.asm:3-33 | a source is sound if and only if it is such an encoding that does not begin with a byte order mark |
| Utf8.EncodeInvertsDecode | compiler/fasm/utf8.asm:35-177 | decoding an accepted buffer and encoding again gives the same bytes |
| Utf8.DecodeInvertsEncode | compiler/fasm/utf8.asm:35-177 | an encoding decodes to its characters |
| Utf8.DecodesIffWellFormed | compiler/fasm/utf8.asm:35-177 | decoding succeeds if and only if the bytes are the encoding of some text, and the text is unique |

## Left out

- Assembly text: instructions are a datatype with one label namespace; NASM syntax, its local labels, reserved mnemonics as function names and the layout of string data are not modelled.
- Machine: flags are kept by `cmp` only, code and stack are separate, slot offsets do not wrap at 32 bits, and a write's result is not kept because the emitted code overwrites `rax` with 0.
- Correctness.CompilerCorrect: within the side conditions the code forces: at most six parameters and arguments, no function's name used before a local of that name is declared, no function with the name of a built-in or of the entry point. Machines have room for the call depth of the run; what an exhausted stack does to a run is not said.
- Correctness.MainSimulated: for a frame after the first one, which of the calls that the machine comes to it belongs to is not said, only that it comes after those before it.
- Correctness.AcceptedRunsHaveMeaning: literals from 2^64 on have no source meaning; the code would load what the assembler makes of them.
- Correctness.LogicalOperators: a bool local read before its declaration ran may hold any word of its frame, so nothing bounds the operands of such runs.
- QuietParsing.SilentHangs: after a diagnostic the recovery may skip or keep any token, and when the parser then hangs is said by its own turns only, in `Parsing.HangsIff`.
- Rendering.SourceRoundTrip: spans and the raw text of literals are not part of the tree. A call without arguments, a subtraction from a bare name and error nodes have no spelling that parses back, so they are not printable.
- Lexer.Scanner.Lex: a lexeme is the slice of bytes; the replacement of malformed UTF-8 inside lexemes is not modelled.
- Parser.Reader.Parse: diagnostics are their codes, without messages and spans; the endless loop is an outcome, `Hangs`.
- Recovery.MistakesReported: mistakes inside the body of a function; that something is reported there is `Derivations.ParsesIff`, but what, and where the parser goes on, is said by the parser's own functions only.
- Comments.SpacesMeanNothing: files that parse without a diagnostic; in others a comment is a token where the parser looks for something else, and can change what is reported.
- Checker.Checker.CheckProgram: diagnostics are their codes, without messages and spans.
- Verdicts.Verdict: which codes are reported, not how often; the order is that of the text as far as `Verdicts.BlocksInOrder`, `FnsInOrder` and `PartsInOrder` say.
- Constants.WriteShows: a length past the literal's own puts out what follows it in memory, which is not modelled.
- SymbolTable.Symbols.Add: the parallel arrays of a symbol's parts are one array of records, the two searches share one loop, and slot numbers do not wrap at 64 bits.
- TypeTable.Types.SlotCount: for tables whose inner types all come earlier; on others the source may not end. Structures, slices and the other kinds of types are not modelled.
- StringLiterals.DecodeString: on a literal that already has diagnostics, the source stops when it cuts its text inside a character; the model goes on.
- `mem.alloc`: it has no definition to call; only its place in the checker is modelled.
- Driver.Compile: reading packages and files, writing and running the assembler, and rendering diagnostics.
- The FASM emitters other than folding, and its expression and call checkers.
- The command line, the dump and colouring tools, the shell scripts and the benchmark.
