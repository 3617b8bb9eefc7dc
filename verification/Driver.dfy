/** A compilation from the source text to assembly: lexing, parsing, checking, generating. */
module Driver {
  import opened Ast
  import opened Tokens
  import opened Machine
  import opened Semantics
  import opened Emission
  import opened Checking
  import opened Acceptance
  import Lexing
  import Lexer
  import Parsing
  import Parser
  import Checker
  import Codegen
  import Printer
  import Rendering

  /** Assembly, the codes of the diagnostics of the first stage that has any, or one of two failures of the front end. */
  datatype Outcome =
    | Assembly(code: seq<Instr>, strings: seq<string>)
    | Rejected(codes: seq<string>)
    | LexerCrashes
    | ParserHangs

  function Codes(ds: seq<Diagnostic>): (r: seq<string>)
    ensures |r| == |ds|
  {
    seq(|ds|, k requires 0 <= k < |ds| => ds[k].code)
  }

  /** Code comes out exactly when the checker reports nothing, and then generating cannot fail. */
  method CompileItems(items: seq<Item>, pkg: Package) returns (r: Outcome)
    ensures r == if Accepts(Functions(items), pkg) then Assembly(ProgramCode(Functions(items), pkg), ProgramStrings(Functions(items)))
                 else Rejected(ProgramDiags(Functions(items), pkg))
  {
    var checker := new Checker.Checker(pkg);
    checker.CheckProgram(items);
    if checker.diagnostics != [] {
      return Rejected(checker.diagnostics);
    }
    CheckerMakesGeneratorTotal(Functions(items), pkg);
    var generator := new Codegen.Generator();
    generator.Emit(items, pkg);
    return Assembly(generator.asm, generator.strings);
  }

  /** Every stage as its specification, on the text. */
  ghost predicate Compiles(b: string, pkg: Package, r: Outcome) {
    match Lexing.Lex(b)
    case Crashed => r == LexerCrashes
    case Lexed(ts, ds) =>
      if ds != [] then r == Rejected(Codes(ds))
      else
        && Parsing.Stream(ts)
        && match Parsing.Parse(ts)
           case Hangs => r == ParserHangs
           case Parsed(items, errs) =>
             if errs != [] then r == Rejected(errs)
             else if Accepts(Functions(items), pkg) then r == Assembly(ProgramCode(Functions(items), pkg), ProgramStrings(Functions(items)))
             else r == Rejected(ProgramDiags(Functions(items), pkg))
  }

  /** The items a text parses to, with nothing reported on the way. */
  ghost predicate ParsesTo(b: string, items: seq<Item>) {
    && Lexing.Lex(b).Lexed? && Lexing.Lex(b).diagnostics == []
    && Parsing.Stream(Lexing.Lex(b).tokens)
    && Parsing.Parse(Lexing.Lex(b).tokens) == Parsing.Parsed(items, [])
  }

  method Compile(bytes: string, pkg: Package) returns (r: Outcome)
    ensures Compiles(bytes, pkg, r)
  {
    hide Lexing.LexFrom, Parsing.Parse, Accepts, ProgramCode, ProgramStrings, ProgramDiags;
    var scanner := new Lexer.Scanner(bytes);
    var crashed := scanner.Lex();
    if crashed {
      return LexerCrashes;
    }
    if scanner.diagnostics != [] {
      return Rejected(Codes(scanner.diagnostics));
    }
    LexedIsStream(bytes);
    var reader := new Parser.Reader(scanner.tokens);
    var parsed := reader.Parse();
    match parsed {
      case Hangs => return ParserHangs;
      case Parsed(items, errs) =>
        if errs != [] {
          return Rejected(errs);
        }
        r := CompileItems(items, pkg);
    }
  }

  lemma {:induction false} TilesEnd(b: string, i: nat, ts: seq<Token>)
    requires Lexing.Tiles(b, i, ts)
    ensures Parsing.Stream(ts)
    decreases |ts|
  {
    if |ts| > 1 {
      TilesEnd(b, ts[0].span.end.byte, ts[1..]);
    }
  }

  /** The tokens of any text are a stream for the parser. */
  lemma {:induction false} LexedIsStream(b: string)
    requires Lexing.Lex(b).Lexed?
    ensures Parsing.Stream(Lexing.Lex(b).tokens)
  {
    hide Lexing.LexFrom, Lexing.Tiles;
    Lexing.LexTiles(b, 0);
    TilesEnd(b, 0, Lexing.Lex(b).tokens);
  }

  /** The text of an accepted program, printed in either style, compiles to that program's code. */
  lemma {:induction false} PrintedCompiles(full: bool, items: seq<Item>, pkg: Package, r: Outcome)
    requires Printer.PrintableItems(items) && Accepts(Functions(items), pkg)
    requires Compiles(Rendering.SourceText(full, items), pkg, r)
    ensures r == Assembly(ProgramCode(Functions(items), pkg), ProgramStrings(Functions(items)))
  {
    hide Lexing.LexFrom, Parsing.Parse, Accepts, ProgramCode, ProgramStrings, ProgramDiags, Printer.PrintableItems, Rendering.SourceText;
    Rendering.SourceRoundTrip(full, items);
  }
}
