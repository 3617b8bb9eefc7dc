/** Tokens of the Stage 0 source language. */
module Tokens {
  import opened Ast

  datatype TokenKind =
    | KwFn | KwLet | KwMut | KwConst | KwStatic | KwRet | KwIf | KwElse | KwLoop | KwWhile
    | KwBreak | KwContinue | KwUse | KwModule | KwPackage | KwVersion | KwType | KwTarget
    | KwRuntime | KwEntry | KwRequires | KwDep | KwEnd | KwUnsafe | KwExtern | KwAsm
    | KwTrue | KwFalse | KwAnd | KwOr | KwNot
    | Ident | IntLit | StrLit | ByteLit
    | Plus | Minus | Star | Slash | Percent
    | Eq | EqEq | BangEq | Lt | LtEq | Gt | GtEq | Arrow
    | LParen | RParen | LBracket | RBracket | Comma | Dot | Colon
    | Newline | Eof | Error | Comment

  /** A place in the source: byte offset, and line and column counted from 1. */
  datatype Pos = Pos(byte: nat, line: nat, column: nat)

  datatype Span = Span(start: Pos, end: Pos)

  datatype Token = Token(kind: TokenKind, lexeme: string, span: Span)

  datatype Diagnostic = Diagnostic(code: string, span: Span)

  function KeywordKind(text: string): Option<TokenKind> {
    if DeclarationWord(text).Some? then DeclarationWord(text)
    else if PackageWord(text).Some? then PackageWord(text)
    else if FlowWord(text).Some? then FlowWord(text)
    else ValueWord(text)
  }

  function DeclarationWord(text: string): Option<TokenKind> {
    if text == "fn" then Some(KwFn)
    else if text == "let" then Some(KwLet)
    else if text == "mut" then Some(KwMut)
    else if text == "const" then Some(KwConst)
    else if text == "static" then Some(KwStatic)
    else if text == "use" then Some(KwUse)
    else if text == "module" then Some(KwModule)
    else if text == "package" then Some(KwPackage)
    else if text == "version" then Some(KwVersion)
    else if text == "type" then Some(KwType)
    else None
  }

  function PackageWord(text: string): Option<TokenKind> {
    if text == "target" then Some(KwTarget)
    else if text == "runtime" then Some(KwRuntime)
    else if text == "entry" then Some(KwEntry)
    else if text == "requires" then Some(KwRequires)
    else if text == "dep" then Some(KwDep)
    else if text == "extern" then Some(KwExtern)
    else if text == "asm" then Some(KwAsm)
    else None
  }

  function FlowWord(text: string): Option<TokenKind> {
    if text == "ret" then Some(KwRet)
    else if text == "if" then Some(KwIf)
    else if text == "else" then Some(KwElse)
    else if text == "loop" then Some(KwLoop)
    else if text == "while" then Some(KwWhile)
    else if text == "break" then Some(KwBreak)
    else if text == "continue" then Some(KwContinue)
    else if text == "end" then Some(KwEnd)
    else if text == "unsafe" then Some(KwUnsafe)
    else None
  }

  function ValueWord(text: string): Option<TokenKind> {
    if text == "true" then Some(KwTrue)
    else if text == "false" then Some(KwFalse)
    else if text == "and" then Some(KwAnd)
    else if text == "or" then Some(KwOr)
    else if text == "not" then Some(KwNot)
    else None
  }

  // ----- characters -----

  predicate IsDigit(c: char) { '0' <= c <= '9' }

  predicate IsIdentStart(c: char) { 'A' <= c <= 'Z' || 'a' <= c <= 'z' || c == '_' }

  predicate IsAlphanumeric(c: char) { 'A' <= c <= 'Z' || 'a' <= c <= 'z' || IsDigit(c) }

  predicate IsIdentRest(c: char) { IsAlphanumeric(c) || c == '_' }

  function DigitValue(c: char): Option<nat> {
    if '0' <= c <= '9' then Some(c as int - '0' as int)
    else if 'a' <= c <= 'f' then Some(c as int - 'a' as int + 10)
    else if 'A' <= c <= 'F' then Some(c as int - 'A' as int + 10)
    else None
  }

  predicate IsHex(c: char) { DigitValue(c).Some? }

  predicate IsDigitOf(c: char, base: nat) {
    DigitValue(c).Some? && DigitValue(c).value < base
  }
}
