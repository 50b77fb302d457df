/**
 * The FlowLang parser: recursive descent over the lexer's tokens, building
 * the syntax tree of a program.
 *
 * The grammar is written as pure functions of (tokens, position, fuel), one
 * per routine of the source, each returning the parsed value together with
 * the position after it. The `Parser` class keeps the token list and the
 * current position as the source does, and each of its methods is proved to
 * compute exactly the function of the same routine.
 *
 * `fuel` bounds the nesting depth: expressions inside brackets, arguments
 * and lambdas, and statements inside blocks. Running out of it is
 * `Overflow`, which stands for the stack overflow of the source; on some
 * inputs (an unclosed `(` at the end of the tokens) the source's recursion
 * never ends, and then every amount of fuel runs out.
 *
 * The `(` arm of `primary` is modelled as its authors evidently meant it
 * (with the `(` as the current token) and the `BigInteger` arm that the
 * source lacks is supplied; `PrimaryAsWrittenAt` is the routine as written.
 */
module Parsing {
  import opened Wrappers
  import Errors
  import opened Ast
  import L = Lexing

  /** The result of a parsing routine: a value and the position after it, a parse error, or an exhausted stack. */
  datatype Outcome<T> = Parsed(value: T, pos: nat) | Failed(error: Errors.FlowError) | Overflow

  /** A token list as the lexer hands it over: it ends with `Eof`. */
  predicate WellFormed(ts: seq<L.Token>)
  {
    |ts| > 0 && ts[|ts| - 1].Eof?
  }

  /**
   * A position the parser may stand on: inside the tokens, and such that
   * `previous()` exists after an `advance()` (at position 0 that needs a
   * first token other than `Eof`, or `advance` would not move).
   */
  predicate Ready(ts: seq<L.Token>, pos: nat)
  {
    WellFormed(ts) && pos < |ts| && (pos > 0 || !ts[0].Eof?)
  }

  /** A token without a payload: for these, `check`'s comparison of variants is plain equality. */
  predicate Plain(t: L.Token)
  {
    !(t.String? || t.Integer? || t.BigInteger? || t.Float? || t.Boolean? || t.Identifier?)
  }

  /** On success the position stays on the tokens and never moves back. */
  predicate Forward<T>(ts: seq<L.Token>, pos: nat, r: Outcome<T>)
  {
    r.Parsed? ==> Ready(ts, r.pos) && pos <= r.pos
  }

  /** `Forward`, and a success that did not start at `Eof` consumed at least one token. */
  predicate Progress<T>(ts: seq<L.Token>, pos: nat, r: Outcome<T>)
    requires pos < |ts|
  {
    Forward(ts, pos, r) && (r.Parsed? && !ts[pos].Eof? ==> pos < r.pos)
  }

  /** Where a statement may end: at `Eof`, or just after a newline. */
  predicate EndsLine(ts: seq<L.Token>, p: nat)
  {
    p < |ts| && (ts[p].Eof? || (p > 0 && ts[p - 1].Newline?))
  }

  /** `FlowError::parser_error(message)`. */
  function Error<T>(message: string): Outcome<T>
  {
    Failed(Errors.ParserErrorNoLine(message))
  }

  /** The `?` operator: a failure of one routine is the failure of its caller. */
  function Pass<A, B>(r: Outcome<A>): Outcome<B>
    requires !r.Parsed?
  {
    if r.Failed? then Failed(r.error) else Overflow
  }

  // The messages of the parse errors.
  const ExpectedNewline := "Expected newline"
  const ExpectedNewlineOrEndOfFile := "Expected newline or end of file"
  const ExpectedLet := "Expected 'let'"
  const ExpectedVariableName := "Expected variable name"
  const ExpectedBeAfterVariableName := "Expected 'be' after variable name"
  const ExpectedParameterName := "Expected parameter name"
  const ExpectedDef := "Expected 'def'"
  const ExpectedFunctionName := "Expected function name"
  const ExpectedDoAfterFunctionParameters := "Expected 'do' after function parameters"
  const ExpectedEndToCloseFunction := "Expected 'end' to close function"
  const ExpectedIf := "Expected 'if'"
  const ExpectedThenAfterIfCondition := "Expected 'then' after if condition"
  const ExpectedEndToCloseIfStatement := "Expected 'end' to close if statement"
  const ExpectedWhile := "Expected 'while'"
  const ExpectedDoAfterWhileCondition := "Expected 'do' after while condition"
  const ExpectedEndToCloseWhileLoop := "Expected 'end' to close while loop"
  const ExpectedFor := "Expected 'for'"
  const ExpectedVariableNameInForLoop := "Expected variable name in for loop"
  const ExpectedFromInForLoop := "Expected 'from' in for loop"
  const ExpectedToInForLoop := "Expected 'to' in for loop"
  const ExpectedDoAfterForRange := "Expected 'do' after for range"
  const ExpectedEndToCloseForLoop := "Expected 'end' to close for loop"
  const ExpectedShow := "Expected 'show'"
  const ExpectedReturn := "Expected 'return'"
  const ExpectedImport := "Expected 'import'"
  const ExpectedModuleName := "Expected module name"
  const ExpectedExport := "Expected 'export'"
  const ExpectedTry := "Expected 'try'"
  const ExpectedCatch := "Expected 'catch'"
  const ExpectedErrorVariableName := "Expected error variable name"
  const ExpectedEnd := "Expected 'end'"
  const InvalidFunctionCall := "Invalid function call"
  const ExpectedPropertyName := "Expected property name after '.'"
  const ExpectedBracketAfterIndex := "Expected ']' after index"
  const ExpectedParenAfterArguments := "Expected ')' after arguments"
  const ExpectedExpression := "Expected expression"
  const ExpectedParenAfterExpression := "Expected ')' after expression"
  const ExpectedParenForLambda := "Expected '(' for lambda parameters"
  const ExpectedParenAfterParameters := "Expected ')' after lambda parameters"
  const ExpectedArrowAfterParameters := "Expected '=>' after lambda parameters"
  const ExpectedBracketAfterElements := "Expected ']' after array elements"
  const ExpectedBraceAfterProperties := "Expected '}' after object properties"
  const ExpectedObjectKey := "Expected string or identifier as object key"
  const ExpectedColonAfterKey := "Expected ':' after object key"

  // ---------------------------------------------------------------------
  // Token helpers
  // ---------------------------------------------------------------------

  /** `advance`: one token forward, except at `Eof`, which is never passed. */
  function AdvanceFrom(ts: seq<L.Token>, pos: nat): (p: nat)
    requires Ready(ts, pos)
    ensures Ready(ts, p) && 0 < p
    ensures ts[pos].Eof? ==> p == pos
    ensures !ts[pos].Eof? ==> p == pos + 1
  {
    if ts[pos].Eof? then pos else pos + 1
  }

  /** The `while self.check(&Token::Newline) { self.advance(); }` loops. */
  function SkipNewlines(ts: seq<L.Token>, pos: nat): (p: nat)
    requires Ready(ts, pos)
    ensures Ready(ts, p) && pos <= p && !ts[p].Newline?
    ensures forall i | pos <= i < p :: ts[i].Newline?
    decreases |ts| - pos
  {
    if ts[pos].Newline? then SkipNewlines(ts, AdvanceFrom(ts, pos)) else pos
  }

  /** `consume`: the expected token, or an error with the given message. */
  function ConsumeAt(ts: seq<L.Token>, pos: nat, t: L.Token, message: string): (r: Outcome<L.Token>)
    requires Ready(ts, pos) && Plain(t) && !t.Eof?
    ensures !r.Overflow?
    ensures r.Parsed? <==> ts[pos] == t
    ensures r.Parsed? ==> r.value == t && r.pos == pos + 1 && Ready(ts, r.pos)
    ensures r.Failed? ==> r.error == Errors.ParserError(0, message)
  {
    if ts[pos] == t then Parsed(t, AdvanceFrom(ts, pos)) else Error(message)
  }

  /** `consume_newline`. */
  function NewlineAt(ts: seq<L.Token>, pos: nat): (r: Outcome<()>)
    requires Ready(ts, pos)
    ensures !r.Overflow?
    ensures r.Parsed? <==> ts[pos].Newline?
    ensures r.Parsed? ==> r.pos == pos + 1 && Ready(ts, r.pos)
  {
    if ts[pos].Newline? then Parsed((), AdvanceFrom(ts, pos)) else Error(ExpectedNewline)
  }

  /** `consume_newline_or_eof`: a newline is consumed, `Eof` is left in place. */
  function NewlineOrEofAt(ts: seq<L.Token>, pos: nat): (r: Outcome<()>)
    requires Ready(ts, pos)
    ensures !r.Overflow?
    ensures r.Parsed? <==> ts[pos].Newline? || ts[pos].Eof?
    ensures r.Parsed? ==> Ready(ts, r.pos) && r.pos == (if ts[pos].Eof? then pos else pos + 1)
    ensures r.Parsed? ==> EndsLine(ts, r.pos)
  {
    if ts[pos].Newline? then Parsed((), AdvanceFrom(ts, pos))
    else if ts[pos].Eof? then Parsed((), pos)
    else Error(ExpectedNewlineOrEndOfFile)
  }

  /** `match self.advance() { Token::Identifier(name) => name, _ => error }`. */
  function NameAt(ts: seq<L.Token>, pos: nat, message: string): (r: Outcome<string>)
    requires Ready(ts, pos)
    ensures !r.Overflow? && Progress(ts, pos, r)
    ensures r.Parsed? ==> ts[r.pos - 1] == L.Identifier(r.value)
  {
    var p := AdvanceFrom(ts, pos);
    if ts[p - 1].Identifier? then Parsed(ts[p - 1].name, p) else Error(message)
  }

  // ---------------------------------------------------------------------
  // Programs and statements
  // ---------------------------------------------------------------------

  /** `parse`: statements up to `Eof`, skipping blank lines between them. */
  function ProgramAt(ts: seq<L.Token>, pos: nat, fuel: nat, acc: seq<Statement>): (r: Outcome<Program>)
    requires WellFormed(ts) && pos < |ts|
    ensures r.Parsed? ==> r.pos < |ts| && ts[r.pos].Eof?
    decreases |ts| - pos
  {
    if ts[pos].Eof? then Parsed(Program(acc), pos)
    else if ts[pos].Newline? then ProgramAt(ts, AdvanceFrom(ts, pos), fuel, acc)
    else
      var s := StatementAt(ts, pos, fuel);
      if !s.Parsed? then Pass(s) else ProgramAt(ts, s.pos, fuel, acc + [s.value])
  }

  /** A whole token list, from its first token. */
  function ParseAt(ts: seq<L.Token>, fuel: nat): (r: Outcome<Program>)
    requires WellFormed(ts)
    ensures r.Parsed? ==> r.pos < |ts| && ts[r.pos].Eof?
  {
    ProgramAt(ts, 0, fuel, [])
  }

  /** `statement`: a keyword picks the statement kind; anything else is an expression on a line of its own. */
  function StatementAt(ts: seq<L.Token>, pos: nat, fuel: nat): (r: Outcome<Statement>)
    requires Ready(ts, pos)
    ensures Progress(ts, pos, r)
    ensures r.Parsed? ==> EndsLine(ts, r.pos)
    decreases fuel, 50, 0
  {
    var t := ts[pos];
    if t.Let? then VariableDeclarationAt(ts, pos, fuel)
    else if t.Def? then FunctionDeclarationAt(ts, pos, fuel)
    else if t.If? then IfAt(ts, pos, fuel)
    else if t.While? then WhileAt(ts, pos, fuel)
    else if t.For? then ForAt(ts, pos, fuel)
    else if t.Show? then ShowAt(ts, pos, fuel)
    else if t.Return? then ReturnAt(ts, pos, fuel)
    else if t.Import? then ImportAt(ts, pos)
    else if t.Export? then ExportAt(ts, pos, fuel)
    else if t.Try? then TryCatchAt(ts, pos, fuel)
    else ExpressionStatementAt(ts, pos, fuel)
  }

  /** The default arm of `statement`: an expression, then a newline or `Eof`. */
  function ExpressionStatementAt(ts: seq<L.Token>, pos: nat, fuel: nat): (r: Outcome<Statement>)
    requires Ready(ts, pos)
    ensures Progress(ts, pos, r)
    ensures r.Parsed? ==> EndsLine(ts, r.pos)
    decreases fuel, 49, 0
  {
    var e := ExpressionAt(ts, pos, fuel);
    if !e.Parsed? then Pass(e) else
    var n := NewlineOrEofAt(ts, e.pos);
    if !n.Parsed? then Pass(n) else
    Parsed(ExpressionStatement(e.value), n.pos)
  }

  /** `variable_declaration`: `let NAME be EXPR`. */
  function VariableDeclarationAt(ts: seq<L.Token>, pos: nat, fuel: nat): (r: Outcome<Statement>)
    requires Ready(ts, pos)
    ensures Progress(ts, pos, r)
    ensures r.Parsed? ==> EndsLine(ts, r.pos)
    decreases fuel, 49, 0
  {
    var k := ConsumeAt(ts, pos, L.Let, ExpectedLet);
    if !k.Parsed? then Pass(k) else
    var n := NameAt(ts, k.pos, ExpectedVariableName);
    if !n.Parsed? then Pass(n) else
    var b := ConsumeAt(ts, n.pos, L.Be, ExpectedBeAfterVariableName);
    if !b.Parsed? then Pass(b) else
    var e := ExpressionAt(ts, b.pos, fuel);
    if !e.Parsed? then Pass(e) else
    var t := NewlineOrEofAt(ts, e.pos);
    if !t.Parsed? then Pass(t) else
    Parsed(VariableDeclaration(n.value, e.value), t.pos)
  }

  /**
   * The parameter loop of `function_declaration` and `parse_lambda`: an
   * optional `...`, a name, an optional `= EXPR` default, and a comma before
   * the next one. Function declarations also skip newlines after a comma.
   */
  function ParametersAt(ts: seq<L.Token>, pos: nat, fuel: nat, acc: seq<Parameter>, skipNewlines: bool)
    : (r: Outcome<seq<Parameter>>)
    requires Ready(ts, pos)
    ensures Progress(ts, pos, r)
    ensures r.Parsed? ==> |r.value| > |acc| && !ts[r.pos].Comma?
    decreases fuel, 45, |ts| - pos
  {
    var variadic := ts[pos].Ellipsis?;
    var n := NameAt(ts, if variadic then AdvanceFrom(ts, pos) else pos, ExpectedParameterName);
    if !n.Parsed? then Pass(n) else
    var d := DefaultAt(ts, n.pos, fuel);
    if !d.Parsed? then Pass(d) else
    var acc' := acc + [Parameter(n.value, d.value, variadic)];
    if ts[d.pos].Comma? then
      var q := AdvanceFrom(ts, d.pos);
      ParametersAt(ts, if skipNewlines then SkipNewlines(ts, q) else q, fuel, acc', skipNewlines)
    else Parsed(acc', d.pos)
  }

  /** The optional `= EXPR` default value of a parameter. */
  function DefaultAt(ts: seq<L.Token>, pos: nat, fuel: nat): (r: Outcome<Option<Expression>>)
    requires Ready(ts, pos)
    ensures Forward(ts, pos, r)
    ensures r.Parsed? ==> (r.value.Some? <==> ts[pos].Assign?)
    decreases fuel, 44, 0
  {
    if ts[pos].Assign? then
      var e := ExpressionAt(ts, AdvanceFrom(ts, pos), fuel);
      if !e.Parsed? then Pass(e) else Parsed(Some(e.value), e.pos)
    else Parsed(None, pos)
  }

  /**
   * The body loops of the block statements: statements up to one of the
   * `stops` tokens or `Eof`, skipping blank lines. Each statement is one
   * level deeper.
   */
  function BlockAt(ts: seq<L.Token>, pos: nat, fuel: nat, acc: seq<Statement>, stops: seq<L.Token>)
    : (r: Outcome<seq<Statement>>)
    requires Ready(ts, pos)
    ensures Forward(ts, pos, r)
    ensures r.Parsed? ==> ts[r.pos] in stops || ts[r.pos].Eof?
    decreases fuel, 45, |ts| - pos
  {
    if ts[pos] in stops || ts[pos].Eof? then Parsed(acc, pos)
    else if ts[pos].Newline? then BlockAt(ts, AdvanceFrom(ts, pos), fuel, acc, stops)
    else if fuel == 0 then Overflow
    else
      var s := StatementAt(ts, pos, fuel - 1);
      if !s.Parsed? then Pass(s) else BlockAt(ts, s.pos, fuel, acc + [s.value], stops)
  }

  /** A block closed by `end`, then the end of the line: the tail of every block statement. */
  function EndedBlockAt(ts: seq<L.Token>, pos: nat, fuel: nat, endMessage: string): (r: Outcome<seq<Statement>>)
    requires Ready(ts, pos)
    ensures Forward(ts, pos, r)
    ensures r.Parsed? ==> pos < r.pos
    ensures r.Parsed? ==> EndsLine(ts, r.pos)
    decreases fuel, 46, 0
  {
    var body := BlockAt(ts, pos, fuel, [], [L.End]);
    if !body.Parsed? then Pass(body) else
    var e := ConsumeAt(ts, body.pos, L.End, endMessage);
    if !e.Parsed? then Pass(e) else
    var t := NewlineOrEofAt(ts, e.pos);
    if !t.Parsed? then Pass(t) else Parsed(body.value, t.pos)
  }

  /** `do NEWLINE BLOCK end`, shared by `def`, `while` and `for`. */
  function DoBlockAt(ts: seq<L.Token>, pos: nat, fuel: nat, doMessage: string, endMessage: string)
    : (r: Outcome<seq<Statement>>)
    requires Ready(ts, pos)
    ensures Forward(ts, pos, r)
    ensures r.Parsed? ==> pos < r.pos
    ensures r.Parsed? ==> EndsLine(ts, r.pos)
    decreases fuel, 47, 0
  {
    var d := ConsumeAt(ts, pos, L.Do, doMessage);
    if !d.Parsed? then Pass(d) else
    var nl := NewlineAt(ts, d.pos);
    if !nl.Parsed? then Pass(nl) else
    EndedBlockAt(ts, nl.pos, fuel, endMessage)
  }

  /** `function_declaration`: `def NAME`, then the parameters and the body. */
  function FunctionDeclarationAt(ts: seq<L.Token>, pos: nat, fuel: nat): (r: Outcome<Statement>)
    requires Ready(ts, pos)
    ensures Progress(ts, pos, r)
    ensures r.Parsed? ==> EndsLine(ts, r.pos)
    decreases fuel, 49, 0
  {
    var k := ConsumeAt(ts, pos, L.Def, ExpectedDef);
    if !k.Parsed? then Pass(k) else
    var n := NameAt(ts, k.pos, ExpectedFunctionName);
    if !n.Parsed? then Pass(n) else
    var rest := SignatureAt(ts, n.pos, fuel);
    if !rest.Parsed? then Pass(rest) else
    Parsed(FunctionDeclaration(n.value, rest.value.0, rest.value.1), rest.pos)
  }

  /** The rest of `function_declaration`: `[with PARAMS] do NEWLINE BODY end`. */
  function SignatureAt(ts: seq<L.Token>, pos: nat, fuel: nat): (r: Outcome<(seq<Parameter>, seq<Statement>)>)
    requires Ready(ts, pos)
    ensures Forward(ts, pos, r)
    ensures r.Parsed? ==> EndsLine(ts, r.pos)
    decreases fuel, 48, 0
  {
    var ps := if ts[pos].With? then ParametersAt(ts, AdvanceFrom(ts, pos), fuel, [], true) else Parsed([], pos);
    if !ps.Parsed? then Pass(ps) else
    var body := DoBlockAt(ts, ps.pos, fuel, ExpectedDoAfterFunctionParameters, ExpectedEndToCloseFunction);
    if !body.Parsed? then Pass(body) else
    Parsed((ps.value, body.value), body.pos)
  }

  /** `if_statement`: `if EXPR then NEWLINE` and the branches. */
  function IfAt(ts: seq<L.Token>, pos: nat, fuel: nat): (r: Outcome<Statement>)
    requires Ready(ts, pos)
    ensures Progress(ts, pos, r)
    ensures r.Parsed? ==> EndsLine(ts, r.pos)
    decreases fuel, 49, 0
  {
    var k := ConsumeAt(ts, pos, L.If, ExpectedIf);
    if !k.Parsed? then Pass(k) else
    var c := ExpressionAt(ts, k.pos, fuel);
    if !c.Parsed? then Pass(c) else
    var th := ConsumeAt(ts, c.pos, L.Then, ExpectedThenAfterIfCondition);
    if !th.Parsed? then Pass(th) else
    var nl := NewlineAt(ts, th.pos);
    if !nl.Parsed? then Pass(nl) else
    var b := BranchesAt(ts, nl.pos, fuel);
    if !b.Parsed? then Pass(b) else
    Parsed(If(c.value, b.value.0, b.value.1), b.pos)
  }

  /** The branches of `if_statement`: the then-block, the else part, `end` and the end of the line. */
  function BranchesAt(ts: seq<L.Token>, pos: nat, fuel: nat): (r: Outcome<(seq<Statement>, ElseBranch)>)
    requires Ready(ts, pos)
    ensures Forward(ts, pos, r)
    ensures r.Parsed? ==> pos < r.pos
    ensures r.Parsed? ==> EndsLine(ts, r.pos)
    decreases fuel, 48, 0
  {
    var body := BlockAt(ts, pos, fuel, [], [L.Else, L.End]);
    if !body.Parsed? then Pass(body) else
    var el := ElseAt(ts, body.pos, fuel);
    if !el.Parsed? then Pass(el) else
    var e := ConsumeAt(ts, el.pos, L.End, ExpectedEndToCloseIfStatement);
    if !e.Parsed? then Pass(e) else
    var t := NewlineOrEofAt(ts, e.pos);
    if !t.Parsed? then Pass(t) else
    Parsed((body.value, el.value), t.pos)
  }

  /**
   * The else part of `if_statement`: nothing, `else if ...` (a nested `if`
   * statement, one level deeper, that consumes its own `end`), or
   * `else NEWLINE BLOCK`.
   */
  function ElseAt(ts: seq<L.Token>, pos: nat, fuel: nat): (r: Outcome<ElseBranch>)
    requires Ready(ts, pos)
    ensures Forward(ts, pos, r)
    ensures r.Parsed? && r.value.NoElse? ==> r.pos == pos
    decreases fuel, 47, 0
  {
    if !ts[pos].Else? then Parsed(NoElse, pos)
    else
      var p := AdvanceFrom(ts, pos);
      if ts[p].If? then
        if fuel == 0 then Overflow else
        var i := IfAt(ts, p, fuel - 1);
        if !i.Parsed? then Pass(i) else Parsed(Else([i.value]), i.pos)
      else
        var nl := NewlineAt(ts, p);
        if !nl.Parsed? then Pass(nl) else
        var body := BlockAt(ts, nl.pos, fuel, [], [L.End]);
        if !body.Parsed? then Pass(body) else Parsed(Else(body.value), body.pos)
  }

  /** `while_statement`: `while EXPR do NEWLINE BLOCK end`. */
  function WhileAt(ts: seq<L.Token>, pos: nat, fuel: nat): (r: Outcome<Statement>)
    requires Ready(ts, pos)
    ensures Progress(ts, pos, r)
    ensures r.Parsed? ==> EndsLine(ts, r.pos)
    decreases fuel, 49, 0
  {
    var k := ConsumeAt(ts, pos, L.While, ExpectedWhile);
    if !k.Parsed? then Pass(k) else
    var c := ExpressionAt(ts, k.pos, fuel);
    if !c.Parsed? then Pass(c) else
    var body := DoBlockAt(ts, c.pos, fuel, ExpectedDoAfterWhileCondition, ExpectedEndToCloseWhileLoop);
    if !body.Parsed? then Pass(body) else
    Parsed(While(c.value, body.value), body.pos)
  }

  /** `for_statement`: `for NAME from` and the range and body. */
  function ForAt(ts: seq<L.Token>, pos: nat, fuel: nat): (r: Outcome<Statement>)
    requires Ready(ts, pos)
    ensures Progress(ts, pos, r)
    ensures r.Parsed? ==> EndsLine(ts, r.pos)
    decreases fuel, 49, 0
  {
    var k := ConsumeAt(ts, pos, L.For, ExpectedFor);
    if !k.Parsed? then Pass(k) else
    var n := NameAt(ts, k.pos, ExpectedVariableNameInForLoop);
    if !n.Parsed? then Pass(n) else
    var f := ConsumeAt(ts, n.pos, L.From, ExpectedFromInForLoop);
    if !f.Parsed? then Pass(f) else
    var rest := RangeAt(ts, f.pos, fuel);
    if !rest.Parsed? then Pass(rest) else
    Parsed(For(n.value, rest.value.0, rest.value.1, rest.value.2), rest.pos)
  }

  /** The rest of `for_statement`: `EXPR to EXPR do NEWLINE BLOCK end`. */
  function RangeAt(ts: seq<L.Token>, pos: nat, fuel: nat): (r: Outcome<(Expression, Expression, seq<Statement>)>)
    requires Ready(ts, pos)
    ensures Forward(ts, pos, r)
    ensures r.Parsed? ==> EndsLine(ts, r.pos)
    decreases fuel, 48, 0
  {
    var start := ExpressionAt(ts, pos, fuel);
    if !start.Parsed? then Pass(start) else
    var t := ConsumeAt(ts, start.pos, L.To, ExpectedToInForLoop);
    if !t.Parsed? then Pass(t) else
    var end := ExpressionAt(ts, t.pos, fuel);
    if !end.Parsed? then Pass(end) else
    var body := DoBlockAt(ts, end.pos, fuel, ExpectedDoAfterForRange, ExpectedEndToCloseForLoop);
    if !body.Parsed? then Pass(body) else
    Parsed((start.value, end.value, body.value), body.pos)
  }

  /** `show_statement`: `show EXPR`. */
  function ShowAt(ts: seq<L.Token>, pos: nat, fuel: nat): (r: Outcome<Statement>)
    requires Ready(ts, pos)
    ensures Progress(ts, pos, r)
    ensures r.Parsed? ==> EndsLine(ts, r.pos)
    decreases fuel, 49, 0
  {
    var k := ConsumeAt(ts, pos, L.Show, ExpectedShow);
    if !k.Parsed? then Pass(k) else
    var e := ExpressionAt(ts, k.pos, fuel);
    if !e.Parsed? then Pass(e) else
    var t := NewlineOrEofAt(ts, e.pos);
    if !t.Parsed? then Pass(t) else
    Parsed(Show(e.value), t.pos)
  }

  /** `return_statement`: `return` with a value unless the line or the tokens end there. */
  function ReturnAt(ts: seq<L.Token>, pos: nat, fuel: nat): (r: Outcome<Statement>)
    requires Ready(ts, pos)
    ensures Progress(ts, pos, r)
    ensures r.Parsed? ==> EndsLine(ts, r.pos)
    decreases fuel, 49, 0
  {
    var k := ConsumeAt(ts, pos, L.Return, ExpectedReturn);
    if !k.Parsed? then Pass(k) else
    var v := ReturnValueAt(ts, k.pos, fuel);
    if !v.Parsed? then Pass(v) else
    var t := NewlineOrEofAt(ts, v.pos);
    if !t.Parsed? then Pass(t) else
    Parsed(Return(v.value), t.pos)
  }

  /** The value of `return_statement`: none when a newline or `Eof` follows. */
  function ReturnValueAt(ts: seq<L.Token>, pos: nat, fuel: nat): (r: Outcome<Option<Expression>>)
    requires Ready(ts, pos)
    ensures Forward(ts, pos, r)
    ensures r.Parsed? ==> (r.value.None? <==> ts[pos].Newline? || ts[pos].Eof?)
    decreases fuel, 48, 0
  {
    if ts[pos].Newline? || ts[pos].Eof? then Parsed(None, pos)
    else
      var e := ExpressionAt(ts, pos, fuel);
      if !e.Parsed? then Pass(e) else Parsed(Some(e.value), e.pos)
  }

  /** `import_statement`: `import NAME`. */
  function ImportAt(ts: seq<L.Token>, pos: nat): (r: Outcome<Statement>)
    requires Ready(ts, pos)
    ensures Progress(ts, pos, r)
    ensures r.Parsed? ==> EndsLine(ts, r.pos)
  {
    var k := ConsumeAt(ts, pos, L.Import, ExpectedImport);
    if !k.Parsed? then Pass(k) else
    var n := NameAt(ts, k.pos, ExpectedModuleName);
    if !n.Parsed? then Pass(n) else
    var t := NewlineOrEofAt(ts, n.pos);
    if !t.Parsed? then Pass(t) else
    Parsed(Import(n.value), t.pos)
  }

  /** `export_statement`: `export` and the statement it wraps, one level deeper. */
  function ExportAt(ts: seq<L.Token>, pos: nat, fuel: nat): (r: Outcome<Statement>)
    requires Ready(ts, pos)
    ensures Progress(ts, pos, r)
    ensures r.Parsed? ==> EndsLine(ts, r.pos)
    decreases fuel, 49, 0
  {
    var k := ConsumeAt(ts, pos, L.Export, ExpectedExport);
    if !k.Parsed? then Pass(k) else
    if fuel == 0 then Overflow else
    var s := StatementAt(ts, k.pos, fuel - 1);
    if !s.Parsed? then Pass(s) else
    Parsed(Export(s.value), s.pos)
  }

  /** `try_catch_statement`: `try NEWLINE BLOCK` and the handler. */
  function TryCatchAt(ts: seq<L.Token>, pos: nat, fuel: nat): (r: Outcome<Statement>)
    requires Ready(ts, pos)
    ensures Progress(ts, pos, r)
    ensures r.Parsed? ==> EndsLine(ts, r.pos)
    decreases fuel, 49, 0
  {
    var k := ConsumeAt(ts, pos, L.Try, ExpectedTry);
    if !k.Parsed? then Pass(k) else
    var nl := NewlineAt(ts, k.pos);
    if !nl.Parsed? then Pass(nl) else
    var body := BlockAt(ts, nl.pos, fuel, [], [L.Catch]);
    if !body.Parsed? then Pass(body) else
    var h := HandlerAt(ts, body.pos, fuel);
    if !h.Parsed? then Pass(h) else
    Parsed(TryCatch(body.value, h.value.0, h.value.1), h.pos)
  }

  /** The handler of `try_catch_statement`: `catch NAME NEWLINE BLOCK end`. */
  function HandlerAt(ts: seq<L.Token>, pos: nat, fuel: nat): (r: Outcome<(string, seq<Statement>)>)
    requires Ready(ts, pos)
    ensures Forward(ts, pos, r)
    ensures r.Parsed? ==> EndsLine(ts, r.pos)
    decreases fuel, 48, 0
  {
    var c := ConsumeAt(ts, pos, L.Catch, ExpectedCatch);
    if !c.Parsed? then Pass(c) else
    var n := NameAt(ts, c.pos, ExpectedErrorVariableName);
    if !n.Parsed? then Pass(n) else
    var nl := NewlineAt(ts, n.pos);
    if !nl.Parsed? then Pass(nl) else
    var body := EndedBlockAt(ts, nl.pos, fuel, ExpectedEnd);
    if !body.Parsed? then Pass(body) else
    Parsed((n.value, body.value), body.pos)
  }

  // ---------------------------------------------------------------------
  // Expressions
  // ---------------------------------------------------------------------

  /** `expression`: the lowest-precedence level, `logical_or`. */
  function ExpressionAt(ts: seq<L.Token>, pos: nat, fuel: nat): (r: Outcome<Expression>)
    requires Ready(ts, pos)
    ensures Progress(ts, pos, r)
    decreases fuel, 30, 0
  {
    BinaryLevelAt(ts, pos, fuel, 0)
  }

  /**
   * The binary operator a token stands for at one precedence level, from
   * loosest to tightest: 0 `logical_or`, 1 `logical_and`, 2 `equality`,
   * 3 `comparison`, 4 `term`, 5 `factor`.
   */
  function LevelOperator(level: nat, t: L.Token): (op: Option<BinaryOperator>)
    ensures op.Some? ==> !t.Eof? && !t.Newline?
  {
    match level
    case 0 => if t.Or? then Some(Or) else None
    case 1 => if t.And? then Some(And) else None
    case 2 =>
      if t.Equal? then Some(Equal) else if t.NotEqual? then Some(NotEqual) else None
    case 3 =>
      if t.Greater? then Some(Greater) else if t.GreaterEqual? then Some(GreaterEqual)
      else if t.Less? then Some(Less) else if t.LessEqual? then Some(LessEqual) else None
    case 4 => if t.Plus? then Some(Add) else if t.Minus? then Some(Subtract) else None
    case 5 =>
      if t.Multiply? then Some(Multiply) else if t.Divide? then Some(Divide)
      else if t.Modulo? then Some(Modulo) else None
    case _ => None
  }

  /** The operand of a level: the next tighter level, and below `factor`, `unary`. */
  function OperandAt(ts: seq<L.Token>, pos: nat, fuel: nat, level: nat): (r: Outcome<Expression>)
    requires Ready(ts, pos) && level <= 5
    ensures Progress(ts, pos, r)
    decreases fuel, 28 - 3 * level, 1
  {
    if level < 5 then BinaryLevelAt(ts, pos, fuel, level + 1) else UnaryAt(ts, pos, fuel)
  }

  /** One of the six binary levels: an operand, then the loop over this level's operators. */
  function BinaryLevelAt(ts: seq<L.Token>, pos: nat, fuel: nat, level: nat): (r: Outcome<Expression>)
    requires Ready(ts, pos) && level <= 5
    ensures Progress(ts, pos, r)
    decreases fuel, 29 - 3 * level, 0
  {
    var left := OperandAt(ts, pos, fuel, level);
    if !left.Parsed? then left else BinaryRestAt(ts, left.pos, fuel, level, left.value)
  }

  /** The loop of a binary level: each operator and right operand folds into the left operand. */
  function BinaryRestAt(ts: seq<L.Token>, pos: nat, fuel: nat, level: nat, left: Expression)
    : (r: Outcome<Expression>)
    requires Ready(ts, pos) && level <= 5
    ensures Forward(ts, pos, r)
    ensures r.Parsed? ==> LevelOperator(level, ts[r.pos]).None?
    decreases fuel, 28 - 3 * level, |ts| - pos
  {
    var op := LevelOperator(level, ts[pos]);
    if op.None? then Parsed(left, pos)
    else
      var right := OperandAt(ts, AdvanceFrom(ts, pos), fuel, level);
      if !right.Parsed? then right
      else BinaryRestAt(ts, right.pos, fuel, level, Binary(left, op.value, right.value))
  }

  /** `unary`: `not` and `-` prefixes, right-recursive, over a `call`. */
  function UnaryAt(ts: seq<L.Token>, pos: nat, fuel: nat): (r: Outcome<Expression>)
    requires Ready(ts, pos)
    ensures Progress(ts, pos, r)
    decreases fuel, 12, |ts| - pos
  {
    if ts[pos].Not? || ts[pos].Minus? then
      var op := if ts[pos].Not? then Not else Minus;
      var operand := UnaryAt(ts, AdvanceFrom(ts, pos), fuel);
      if !operand.Parsed? then operand else Parsed(Unary(op, operand.value), operand.pos)
    else CallAt(ts, pos, fuel)
  }

  /** `call`: a primary expression followed by calls, method calls, property accesses and indexing. */
  function CallAt(ts: seq<L.Token>, pos: nat, fuel: nat): (r: Outcome<Expression>)
    requires Ready(ts, pos)
    ensures Progress(ts, pos, r)
    decreases fuel, 11, 0
  {
    var e := PrimaryAt(ts, pos, fuel);
    if !e.Parsed? then e else PostfixAt(ts, e.pos, fuel, e.value)
  }

  /** The loop of `call`: suffixes as long as one follows. */
  function PostfixAt(ts: seq<L.Token>, pos: nat, fuel: nat, e: Expression): (r: Outcome<Expression>)
    requires Ready(ts, pos)
    ensures Forward(ts, pos, r)
    decreases fuel, 10, |ts| - pos
  {
    if StartsSuffix(ts[pos]) then
      var s := SuffixAt(ts, pos, fuel, e);
      if !s.Parsed? then s else PostfixAt(ts, s.pos, fuel, s.value)
    else Parsed(e, pos)
  }

  /** The tokens that continue a call chain. */
  predicate StartsSuffix(t: L.Token)
  {
    t.LeftParen? || t.Dot? || t.LeftBracket?
  }

  /**
   * One turn of the loop of `call`: a call (only a name can be called as a
   * function), a method call, a property access or an index. Arguments and
   * indices are one level deeper.
   */
  function SuffixAt(ts: seq<L.Token>, pos: nat, fuel: nat, e: Expression): (r: Outcome<Expression>)
    requires Ready(ts, pos) && StartsSuffix(ts[pos])
    ensures Forward(ts, pos, r)
    ensures r.Parsed? ==> pos < r.pos
    decreases fuel, 10, 0
  {
    if ts[pos].LeftParen? then
      if fuel == 0 then Overflow else
      var args := ArgumentsAt(ts, AdvanceFrom(ts, pos), fuel - 1);
      if !args.Parsed? then Pass(args)
      else if e.Identifier? then Parsed(FunctionCall(e.identifier, args.value), args.pos)
      else Error(InvalidFunctionCall)
    else if ts[pos].Dot? then
      var n := NameAt(ts, AdvanceFrom(ts, pos), ExpectedPropertyName);
      if !n.Parsed? then Pass(n)
      else if ts[n.pos].LeftParen? then
        if fuel == 0 then Overflow else
        var args := ArgumentsAt(ts, AdvanceFrom(ts, n.pos), fuel - 1);
        if !args.Parsed? then Pass(args) else Parsed(MethodCall(e, n.value, args.value), args.pos)
      else Parsed(PropertyAccess(e, n.value), n.pos)
    else
      if fuel == 0 then Overflow else
      var i := ExpressionAt(ts, AdvanceFrom(ts, pos), fuel - 1);
      if !i.Parsed? then i else
      var c := ConsumeAt(ts, i.pos, L.RightBracket, ExpectedBracketAfterIndex);
      if !c.Parsed? then Pass(c) else Parsed(Index(e, i.value), c.pos)
  }

  /** The argument list after `(` up to and including `)`. */
  function ArgumentsAt(ts: seq<L.Token>, pos: nat, fuel: nat): (r: Outcome<seq<Expression>>)
    requires Ready(ts, pos)
    ensures Forward(ts, pos, r)
    decreases fuel, 46, 0
  {
    var items := if ts[pos].RightParen? then Parsed([], pos) else ArgumentListAt(ts, pos, fuel, []);
    if !items.Parsed? then items else
    var c := ConsumeAt(ts, items.pos, L.RightParen, ExpectedParenAfterArguments);
    if !c.Parsed? then Pass(c) else Parsed(items.value, c.pos)
  }

  /** The comma-separated arguments, each an expression. */
  function ArgumentListAt(ts: seq<L.Token>, pos: nat, fuel: nat, acc: seq<Expression>): (r: Outcome<seq<Expression>>)
    requires Ready(ts, pos)
    ensures Forward(ts, pos, r)
    ensures r.Parsed? ==> |r.value| > |acc| && !ts[r.pos].Comma?
    decreases fuel, 45, |ts| - pos
  {
    var e := ExpressionAt(ts, pos, fuel);
    if !e.Parsed? then Pass(e)
    else if ts[e.pos].Comma? then ArgumentListAt(ts, AdvanceFrom(ts, e.pos), fuel, acc + [e.value])
    else Parsed(acc + [e.value], e.pos)
  }

  /** The literal a single-token literal stands for. */
  function TokenLiteral(t: L.Token): Option<Literal>
  {
    if t.String? then Some(StringLit(t.text))
    else if t.Integer? then Some(IntegerLit(t.i))
    else if t.BigInteger? then Some(BigIntegerLit(t.big))
    else if t.Float? then Some(FloatLit(t.f))
    else if t.Boolean? then Some(BooleanLit(t.b))
    else None
  }

  /**
   * `primary`: the token `advance` steps over decides. A literal or a name
   * stands alone; `[` and `{` start an array and an object; `(` starts a
   * lambda or a parenthesised expression, both parsed from the `(` itself.
   */
  function PrimaryAt(ts: seq<L.Token>, pos: nat, fuel: nat): (r: Outcome<Expression>)
    requires Ready(ts, pos)
    ensures Progress(ts, pos, r)
    decreases fuel, 9, 0
  {
    var p := AdvanceFrom(ts, pos);
    var t := ts[p - 1];
    if TokenLiteral(t).Some? then Parsed(Literal(TokenLiteral(t).value), p)
    else if t.Identifier? then Parsed(Identifier(t.name), p)
    else if t.LeftParen? then
      if fuel == 0 then Overflow else ParenthesizedAt(ts, p - 1, fuel - 1)
    else if t.LeftBracket? then
      if fuel == 0 then Overflow else ArrayAt(ts, p, fuel - 1)
    else if t.LeftBrace? then
      if fuel == 0 then Overflow else ObjectAt(ts, p, fuel - 1)
    else Error(ExpectedExpression)
  }

  /** From a `(`: a lambda when `is_lambda_expression` says so, else an expression and `)`. */
  function ParenthesizedAt(ts: seq<L.Token>, pos: nat, fuel: nat): (r: Outcome<Expression>)
    requires Ready(ts, pos) && ts[pos].LeftParen?
    ensures Progress(ts, pos, r)
    decreases fuel, 47, 0
  {
    if IsLambdaAt(ts, pos) then LambdaAt(ts, pos, fuel)
    else
      var e := ExpressionAt(ts, AdvanceFrom(ts, pos), fuel);
      if !e.Parsed? then e else
      var c := ConsumeAt(ts, e.pos, L.RightParen, ExpectedParenAfterExpression);
      if !c.Parsed? then Pass(c) else Parsed(e.value, c.pos)
  }

  /** `primary` as the source writes it; see `PrimaryAt` and the findings about it. */
  function PrimaryAsWrittenAt(ts: seq<L.Token>, pos: nat, fuel: nat): (r: Outcome<Expression>)
    requires Ready(ts, pos)
  {
    var p := AdvanceFrom(ts, pos);
    var t := ts[p - 1];
    if t.String? then Parsed(Literal(StringLit(t.text)), p)
    else if t.Integer? then Parsed(Literal(IntegerLit(t.i)), p)
    else if t.Float? then Parsed(Literal(FloatLit(t.f)), p)
    else if t.Boolean? then Parsed(Literal(BooleanLit(t.b)), p)
    else if t.Identifier? then Parsed(Identifier(t.name), p)
    else if t.LeftParen? then
      if fuel == 0 then Overflow
      else if IsLambdaAt(ts, p) then LambdaAt(ts, p, fuel - 1)
      else
        var e := ExpressionAt(ts, AdvanceFrom(ts, p), fuel - 1);
        if !e.Parsed? then e else
        var c := ConsumeAt(ts, e.pos, L.RightParen, ExpectedParenAfterExpression);
        if !c.Parsed? then Pass(c) else Parsed(e.value, c.pos)
    else if t.LeftBracket? then
      if fuel == 0 then Overflow else ArrayAt(ts, p, fuel - 1)
    else if t.LeftBrace? then
      if fuel == 0 then Overflow else ObjectAt(ts, p, fuel - 1)
    else Error(ExpectedExpression)
  }

  /** The scan of `is_lambda_expression`: to the `)` that closes `depth` open parentheses, then `=>`? */
  function LambdaAhead(ts: seq<L.Token>, pos: nat, depth: nat): bool
    decreases |ts| - pos
  {
    if pos < |ts| && depth > 0 then
      var d := if ts[pos].LeftParen? then depth + 1 else if ts[pos].RightParen? then depth - 1 else depth;
      LambdaAhead(ts, pos + 1, d)
    else pos < |ts| && ts[pos].Arrow?
  }

  /** `is_lambda_expression` with the current position at `current`: the scan starts one token later. */
  function IsLambdaAt(ts: seq<L.Token>, current: nat): bool
  {
    LambdaAhead(ts, current + 1, 1)
  }

  /** `parse_lambda`: `( PARAMS ) => EXPR`. */
  function LambdaAt(ts: seq<L.Token>, pos: nat, fuel: nat): (r: Outcome<Expression>)
    requires Ready(ts, pos)
    ensures Progress(ts, pos, r)
    ensures r.Parsed? ==> r.value.Lambda? && ts[pos].LeftParen?
    decreases fuel, 46, 0
  {
    var o := ConsumeAt(ts, pos, L.LeftParen, ExpectedParenForLambda);
    if !o.Parsed? then Pass(o) else
    var ps := if !ts[o.pos].RightParen? then ParametersAt(ts, o.pos, fuel, [], false) else Parsed([], o.pos);
    if !ps.Parsed? then Pass(ps) else
    var c := ConsumeAt(ts, ps.pos, L.RightParen, ExpectedParenAfterParameters);
    if !c.Parsed? then Pass(c) else
    var a := ConsumeAt(ts, c.pos, L.Arrow, ExpectedArrowAfterParameters);
    if !a.Parsed? then Pass(a) else
    var body := ExpressionAt(ts, a.pos, fuel);
    if !body.Parsed? then body else
    Parsed(Lambda(ps.value, body.value), body.pos)
  }

  /** `parse_array`, after the `[`: elements separated by commas, newlines allowed around them, then `]`. */
  function ArrayAt(ts: seq<L.Token>, pos: nat, fuel: nat): (r: Outcome<Expression>)
    requires Ready(ts, pos)
    ensures Forward(ts, pos, r)
    decreases fuel, 46, 0
  {
    var items := if ts[pos].RightBracket? then Parsed([], pos) else ElementsAt(ts, pos, fuel, []);
    if !items.Parsed? then Pass(items) else
    var c := ConsumeAt(ts, SkipNewlines(ts, items.pos), L.RightBracket, ExpectedBracketAfterElements);
    if !c.Parsed? then Pass(c) else Parsed(ArrayExpr(items.value), c.pos)
  }

  /** The element loop of `parse_array`. */
  function ElementsAt(ts: seq<L.Token>, pos: nat, fuel: nat, acc: seq<Expression>): (r: Outcome<seq<Expression>>)
    requires Ready(ts, pos)
    ensures Forward(ts, pos, r)
    decreases fuel, 45, |ts| - pos
  {
    var p := SkipNewlines(ts, pos);
    if ts[p].RightBracket? then Parsed(acc, p)
    else
      var e := ExpressionAt(ts, p, fuel);
      if !e.Parsed? then Pass(e)
      else if ts[e.pos].Comma? then ElementsAt(ts, SkipNewlines(ts, AdvanceFrom(ts, e.pos)), fuel, acc + [e.value])
      else Parsed(acc + [e.value], e.pos)
  }

  /** `parse_object`, after the `{`: `KEY : EXPR` entries separated by commas, newlines allowed, then `}`. */
  function ObjectAt(ts: seq<L.Token>, pos: nat, fuel: nat): (r: Outcome<Expression>)
    requires Ready(ts, pos)
    ensures Forward(ts, pos, r)
    decreases fuel, 46, 0
  {
    var items := if ts[pos].RightBrace? then Parsed([], pos) else EntriesAt(ts, pos, fuel, []);
    if !items.Parsed? then Pass(items) else
    var c := ConsumeAt(ts, SkipNewlines(ts, items.pos), L.RightBrace, ExpectedBraceAfterProperties);
    if !c.Parsed? then Pass(c) else Parsed(ObjectExpr(items.value), c.pos)
  }

  /** The key of an object entry: a string literal or a name. */
  function KeyOf(t: L.Token): Option<string>
  {
    if t.String? then Some(t.text) else if t.Identifier? then Some(t.name) else None
  }

  /** The entry loop of `parse_object`. */
  function EntriesAt(ts: seq<L.Token>, pos: nat, fuel: nat, acc: seq<(string, Expression)>)
    : (r: Outcome<seq<(string, Expression)>>)
    requires Ready(ts, pos)
    ensures Forward(ts, pos, r)
    decreases fuel, 45, |ts| - pos
  {
    var p := SkipNewlines(ts, pos);
    if ts[p].RightBrace? then Parsed(acc, p)
    else
      var entry := EntryAt(ts, p, fuel);
      if !entry.Parsed? then Pass(entry)
      else if ts[entry.pos].Comma? then
        EntriesAt(ts, SkipNewlines(ts, AdvanceFrom(ts, entry.pos)), fuel, acc + [entry.value])
      else Parsed(acc + [entry.value], entry.pos)
  }

  /** One entry of an object: `KEY : EXPR`, the key a string literal or a name. */
  function EntryAt(ts: seq<L.Token>, pos: nat, fuel: nat): (r: Outcome<(string, Expression)>)
    requires Ready(ts, pos)
    ensures Forward(ts, pos, r)
    ensures r.Parsed? ==> pos < r.pos && Some(r.value.0) == KeyOf(ts[pos])
    decreases fuel, 44, 0
  {
    if KeyOf(ts[pos]).None? then Error(ExpectedObjectKey)
    else
      var c := ConsumeAt(ts, AdvanceFrom(ts, pos), L.Colon, ExpectedColonAfterKey);
      if !c.Parsed? then Pass(c) else
      var v := ExpressionAt(ts, c.pos, fuel);
      if !v.Parsed? then Pass(v) else
      Parsed((KeyOf(ts[pos]).value, v.value), v.pos)
  }

  // ---------------------------------------------------------------------
  // The parser object
  // ---------------------------------------------------------------------

  /**
   * `Parser`: the tokens and the index of the current one. Every routine
   * returns what the function of the same routine above returns and, on
   * success, leaves `current` at the position that function reports.
   */
  class Parser {
    const tokens: seq<L.Token>
    var current: nat

    /** `Parser::new`. */
    constructor (tokens: seq<L.Token>)
      ensures this.tokens == tokens && current == 0
    {
      this.tokens := tokens;
      current := 0;
    }

    /** `advance`: the token stepped over (or, at `Eof`, the one before it). */
    method Advance() returns (t: L.Token)
      requires Ready(tokens, current)
      modifies this
      ensures current == AdvanceFrom(tokens, old(current)) && t == tokens[current - 1]
    {
      if !tokens[current].Eof? {
        current := current + 1;
      }
      t := tokens[current - 1];
    }

    method SkipNewlineTokens()
      requires Ready(tokens, current)
      modifies this
      ensures current == SkipNewlines(tokens, old(current))
    {
      while tokens[current].Newline?
        invariant Ready(tokens, current)
        invariant SkipNewlines(tokens, old(current)) == SkipNewlines(tokens, current)
        decreases |tokens| - current
      {
        var _ := Advance();
      }
    }

    /** `consume`. */
    method Consume(t: L.Token, message: string) returns (r: Outcome<L.Token>)
      requires Ready(tokens, current) && Plain(t) && !t.Eof?
      modifies this
      ensures r == ConsumeAt(tokens, old(current), t, message)
      ensures r.Parsed? ==> current == r.pos
    {
      if tokens[current] == t {
        var _ := Advance();
        r := Parsed(t, current);
      } else {
        r := Error(message);
      }
    }

    /** `consume_newline`. */
    method ConsumeNewline() returns (r: Outcome<()>)
      requires Ready(tokens, current)
      modifies this
      ensures r == NewlineAt(tokens, old(current))
      ensures r.Parsed? ==> current == r.pos
    {
      if tokens[current].Newline? {
        var _ := Advance();
        r := Parsed((), current);
      } else {
        r := Error(ExpectedNewline);
      }
    }

    /** `consume_newline_or_eof`. */
    method ConsumeNewlineOrEof() returns (r: Outcome<()>)
      requires Ready(tokens, current)
      modifies this
      ensures r == NewlineOrEofAt(tokens, old(current))
      ensures r.Parsed? ==> current == r.pos
    {
      if tokens[current].Newline? || tokens[current].Eof? {
        if tokens[current].Newline? {
          var _ := Advance();
        }
        r := Parsed((), current);
      } else {
        r := Error(ExpectedNewlineOrEndOfFile);
      }
    }

    /** `match self.advance() { Token::Identifier(name) => ..., _ => error }`. */
    method ExpectName(message: string) returns (r: Outcome<string>)
      requires Ready(tokens, current)
      modifies this
      ensures r == NameAt(tokens, old(current), message)
      ensures r.Parsed? ==> current == r.pos
    {
      var t := Advance();
      if t.Identifier? {
        r := Parsed(t.name, current);
      } else {
        r := Error(message);
      }
    }

    /** `parse`. */
    method Parse(fuel: nat) returns (r: Outcome<Program>)
      requires WellFormed(tokens) && current == 0
      modifies this
      ensures r == ParseAt(tokens, fuel)
    {
      var statements: seq<Statement> := [];
      while !tokens[current].Eof?
        invariant WellFormed(tokens) && current < |tokens|
        invariant ParseAt(tokens, fuel) == ProgramAt(tokens, current, fuel, statements)
        decreases |tokens| - current
      {
        if tokens[current].Newline? {
          var _ := Advance();
          continue;
        }
        var s := ParseStatement(fuel);
        if !s.Parsed? {
          return Pass(s);
        }
        statements := statements + [s.value];
      }
      r := Parsed(Program(statements), current);
    }

    /** `statement`. */
    method ParseStatement(fuel: nat) returns (r: Outcome<Statement>)
      requires Ready(tokens, current)
      modifies this
      ensures r == StatementAt(tokens, old(current), fuel)
      ensures r.Parsed? ==> current == r.pos
      decreases fuel, 50, 0
    {
      var t := tokens[current];
      if t.Let? {
        r := ParseVariableDeclaration(fuel);
      } else if t.Def? {
        r := ParseFunctionDeclaration(fuel);
      } else if t.If? {
        r := ParseIf(fuel);
      } else if t.While? {
        r := ParseWhile(fuel);
      } else if t.For? {
        r := ParseFor(fuel);
      } else if t.Show? {
        r := ParseShow(fuel);
      } else if t.Return? {
        r := ParseReturn(fuel);
      } else if t.Import? {
        r := ParseImport();
      } else if t.Export? {
        r := ParseExport(fuel);
      } else if t.Try? {
        r := ParseTryCatch(fuel);
      } else {
        r := ParseExpressionStatement(fuel);
      }
    }

    /** The default arm of `statement`. */
    method ParseExpressionStatement(fuel: nat) returns (r: Outcome<Statement>)
      requires Ready(tokens, current)
      modifies this
      ensures r == ExpressionStatementAt(tokens, old(current), fuel)
      ensures r.Parsed? ==> current == r.pos
      decreases fuel, 49, 0
    {
      var e := ParseExpression(fuel);
      if !e.Parsed? { return Pass(e); }
      var n := ConsumeNewlineOrEof();
      if !n.Parsed? { return Pass(n); }
      r := Parsed(ExpressionStatement(e.value), current);
    }

    /** `variable_declaration`. */
    method ParseVariableDeclaration(fuel: nat) returns (r: Outcome<Statement>)
      requires Ready(tokens, current)
      modifies this
      ensures r == VariableDeclarationAt(tokens, old(current), fuel)
      ensures r.Parsed? ==> current == r.pos
      decreases fuel, 49, 0
    {
      var k := Consume(L.Let, ExpectedLet);
      if !k.Parsed? { return Pass(k); }
      var n := ExpectName(ExpectedVariableName);
      if !n.Parsed? { return Pass(n); }
      var b := Consume(L.Be, ExpectedBeAfterVariableName);
      if !b.Parsed? { return Pass(b); }
      var e := ParseExpression(fuel);
      if !e.Parsed? { return Pass(e); }
      var t := ConsumeNewlineOrEof();
      if !t.Parsed? { return Pass(t); }
      r := Parsed(VariableDeclaration(n.value, e.value), current);
    }

    /** The parameter loop of `function_declaration` and `parse_lambda`. */
    method ParseParameters(fuel: nat, skipNewlines: bool) returns (r: Outcome<seq<Parameter>>)
      requires Ready(tokens, current)
      modifies this
      ensures r == ParametersAt(tokens, old(current), fuel, [], skipNewlines)
      ensures r.Parsed? ==> current == r.pos
      decreases fuel, 45, 0
    {
      var parameters: seq<Parameter> := [];
      while true
        invariant Ready(tokens, current)
        invariant ParametersAt(tokens, old(current), fuel, [], skipNewlines)
               == ParametersAt(tokens, current, fuel, parameters, skipNewlines)
        decreases |tokens| - current
      {
        var variadic := tokens[current].Ellipsis?;
        if variadic {
          var _ := Advance();
        }
        var n := ExpectName(ExpectedParameterName);
        if !n.Parsed? { return Pass(n); }
        var d := ParseDefault(fuel);
        if !d.Parsed? { return Pass(d); }
        parameters := parameters + [Parameter(n.value, d.value, variadic)];
        if tokens[current].Comma? {
          var _ := Advance();
          if skipNewlines {
            SkipNewlineTokens();
          }
        } else {
          break;
        }
      }
      r := Parsed(parameters, current);
    }

    /** The optional default value of a parameter. */
    method ParseDefault(fuel: nat) returns (r: Outcome<Option<Expression>>)
      requires Ready(tokens, current)
      modifies this
      ensures r == DefaultAt(tokens, old(current), fuel)
      ensures r.Parsed? ==> current == r.pos
      decreases fuel, 44, 0
    {
      if tokens[current].Assign? {
        var _ := Advance();
        var e := ParseExpression(fuel);
        if !e.Parsed? { return Pass(e); }
        r := Parsed(Some(e.value), current);
      } else {
        r := Parsed(None, current);
      }
    }

    /** The body loops of the block statements. */
    method ParseBlock(fuel: nat, stops: seq<L.Token>) returns (r: Outcome<seq<Statement>>)
      requires Ready(tokens, current)
      modifies this
      ensures r == BlockAt(tokens, old(current), fuel, [], stops)
      ensures r.Parsed? ==> current == r.pos
      decreases fuel, 45, 0
    {
      var body: seq<Statement> := [];
      while !(tokens[current] in stops) && !tokens[current].Eof?
        invariant Ready(tokens, current)
        invariant BlockAt(tokens, old(current), fuel, [], stops) == BlockAt(tokens, current, fuel, body, stops)
        decreases |tokens| - current
      {
        if tokens[current].Newline? {
          var _ := Advance();
          continue;
        }
        if fuel == 0 { return Overflow; }
        var s := ParseStatement(fuel - 1);
        if !s.Parsed? { return Pass(s); }
        body := body + [s.value];
      }
      r := Parsed(body, current);
    }

    /** A block closed by `end`, then the end of the line. */
    method ParseEndedBlock(fuel: nat, endMessage: string) returns (r: Outcome<seq<Statement>>)
      requires Ready(tokens, current)
      modifies this
      ensures r == EndedBlockAt(tokens, old(current), fuel, endMessage)
      ensures r.Parsed? ==> current == r.pos
      decreases fuel, 46, 0
    {
      var body := ParseBlock(fuel, [L.End]);
      if !body.Parsed? { return Pass(body); }
      var e := Consume(L.End, endMessage);
      if !e.Parsed? { return Pass(e); }
      var t := ConsumeNewlineOrEof();
      if !t.Parsed? { return Pass(t); }
      r := Parsed(body.value, current);
    }

    /** `do NEWLINE BLOCK end`. */
    method ParseDoBlock(fuel: nat, doMessage: string, endMessage: string) returns (r: Outcome<seq<Statement>>)
      requires Ready(tokens, current)
      modifies this
      ensures r == DoBlockAt(tokens, old(current), fuel, doMessage, endMessage)
      ensures r.Parsed? ==> current == r.pos
      decreases fuel, 47, 0
    {
      var d := Consume(L.Do, doMessage);
      if !d.Parsed? { return Pass(d); }
      var nl := ConsumeNewline();
      if !nl.Parsed? { return Pass(nl); }
      r := ParseEndedBlock(fuel, endMessage);
    }

    /** `function_declaration`. */
    method ParseFunctionDeclaration(fuel: nat) returns (r: Outcome<Statement>)
      requires Ready(tokens, current)
      modifies this
      ensures r == FunctionDeclarationAt(tokens, old(current), fuel)
      ensures r.Parsed? ==> current == r.pos
      decreases fuel, 49, 0
    {
      var k := Consume(L.Def, ExpectedDef);
      if !k.Parsed? { return Pass(k); }
      var n := ExpectName(ExpectedFunctionName);
      if !n.Parsed? { return Pass(n); }
      var rest := ParseSignature(fuel);
      if !rest.Parsed? { return Pass(rest); }
      r := Parsed(FunctionDeclaration(n.value, rest.value.0, rest.value.1), current);
    }

    /** The parameters and body of `function_declaration`. */
    method ParseSignature(fuel: nat) returns (r: Outcome<(seq<Parameter>, seq<Statement>)>)
      requires Ready(tokens, current)
      modifies this
      ensures r == SignatureAt(tokens, old(current), fuel)
      ensures r.Parsed? ==> current == r.pos
      decreases fuel, 48, 0
    {
      var parameters: seq<Parameter> := [];
      if tokens[current].With? {
        var _ := Advance();
        var ps := ParseParameters(fuel, true);
        if !ps.Parsed? { return Pass(ps); }
        parameters := ps.value;
      }
      var body := ParseDoBlock(fuel, ExpectedDoAfterFunctionParameters, ExpectedEndToCloseFunction);
      if !body.Parsed? { return Pass(body); }
      r := Parsed((parameters, body.value), current);
    }

    /** `if_statement`. */
    method ParseIf(fuel: nat) returns (r: Outcome<Statement>)
      requires Ready(tokens, current)
      modifies this
      ensures r == IfAt(tokens, old(current), fuel)
      ensures r.Parsed? ==> current == r.pos
      decreases fuel, 49, 0
    {
      hide ExpressionAt, BranchesAt, ConsumeAt, NewlineAt;
      var k := Consume(L.If, ExpectedIf);
      if !k.Parsed? { return Pass(k); }
      var c := ParseExpression(fuel);
      if !c.Parsed? { return Pass(c); }
      var th := Consume(L.Then, ExpectedThenAfterIfCondition);
      if !th.Parsed? { return Pass(th); }
      var nl := ConsumeNewline();
      if !nl.Parsed? { return Pass(nl); }
      var b := ParseBranches(fuel);
      if !b.Parsed? { return Pass(b); }
      r := Parsed(If(c.value, b.value.0, b.value.1), current);
    }

    /** The branches of `if_statement`. */
    method ParseBranches(fuel: nat) returns (r: Outcome<(seq<Statement>, ElseBranch)>)
      requires Ready(tokens, current)
      modifies this
      ensures r == BranchesAt(tokens, old(current), fuel)
      ensures r.Parsed? ==> current == r.pos
      decreases fuel, 48, 0
    {
      var body := ParseBlock(fuel, [L.Else, L.End]);
      if !body.Parsed? { return Pass(body); }
      var el := ParseElse(fuel);
      if !el.Parsed? { return Pass(el); }
      var e := Consume(L.End, ExpectedEndToCloseIfStatement);
      if !e.Parsed? { return Pass(e); }
      var t := ConsumeNewlineOrEof();
      if !t.Parsed? { return Pass(t); }
      r := Parsed((body.value, el.value), current);
    }

    /** The else part of `if_statement`. */
    method ParseElse(fuel: nat) returns (r: Outcome<ElseBranch>)
      requires Ready(tokens, current)
      modifies this
      ensures r == ElseAt(tokens, old(current), fuel)
      ensures r.Parsed? ==> current == r.pos
      decreases fuel, 47, 0
    {
      hide IfAt, BlockAt, NewlineAt;
      if !tokens[current].Else? {
        return Parsed(NoElse, current);
      }
      var _ := Advance();
      if tokens[current].If? {
        if fuel == 0 { return Overflow; }
        var i := ParseIf(fuel - 1);
        if !i.Parsed? { return Pass(i); }
        r := Parsed(Else([i.value]), current);
      } else {
        var nl := ConsumeNewline();
        if !nl.Parsed? { return Pass(nl); }
        var body := ParseBlock(fuel, [L.End]);
        if !body.Parsed? { return Pass(body); }
        r := Parsed(Else(body.value), current);
      }
    }

    /** `while_statement`. */
    method ParseWhile(fuel: nat) returns (r: Outcome<Statement>)
      requires Ready(tokens, current)
      modifies this
      ensures r == WhileAt(tokens, old(current), fuel)
      ensures r.Parsed? ==> current == r.pos
      decreases fuel, 49, 0
    {
      var k := Consume(L.While, ExpectedWhile);
      if !k.Parsed? { return Pass(k); }
      var c := ParseExpression(fuel);
      if !c.Parsed? { return Pass(c); }
      var body := ParseDoBlock(fuel, ExpectedDoAfterWhileCondition, ExpectedEndToCloseWhileLoop);
      if !body.Parsed? { return Pass(body); }
      r := Parsed(While(c.value, body.value), current);
    }

    /** `for_statement`. */
    method ParseFor(fuel: nat) returns (r: Outcome<Statement>)
      requires Ready(tokens, current)
      modifies this
      ensures r == ForAt(tokens, old(current), fuel)
      ensures r.Parsed? ==> current == r.pos
      decreases fuel, 49, 0
    {
      hide RangeAt, NameAt, ConsumeAt;
      var k := Consume(L.For, ExpectedFor);
      if !k.Parsed? { return Pass(k); }
      var n := ExpectName(ExpectedVariableNameInForLoop);
      if !n.Parsed? { return Pass(n); }
      var f := Consume(L.From, ExpectedFromInForLoop);
      if !f.Parsed? { return Pass(f); }
      var rest := ParseRange(fuel);
      if !rest.Parsed? { return Pass(rest); }
      r := Parsed(For(n.value, rest.value.0, rest.value.1, rest.value.2), current);
    }

    /** The range and body of `for_statement`. */
    method ParseRange(fuel: nat) returns (r: Outcome<(Expression, Expression, seq<Statement>)>)
      requires Ready(tokens, current)
      modifies this
      ensures r == RangeAt(tokens, old(current), fuel)
      ensures r.Parsed? ==> current == r.pos
      decreases fuel, 48, 0
    {
      var start := ParseExpression(fuel);
      if !start.Parsed? { return Pass(start); }
      var t := Consume(L.To, ExpectedToInForLoop);
      if !t.Parsed? { return Pass(t); }
      var end := ParseExpression(fuel);
      if !end.Parsed? { return Pass(end); }
      var body := ParseDoBlock(fuel, ExpectedDoAfterForRange, ExpectedEndToCloseForLoop);
      if !body.Parsed? { return Pass(body); }
      r := Parsed((start.value, end.value, body.value), current);
    }

    /** `show_statement`. */
    method ParseShow(fuel: nat) returns (r: Outcome<Statement>)
      requires Ready(tokens, current)
      modifies this
      ensures r == ShowAt(tokens, old(current), fuel)
      ensures r.Parsed? ==> current == r.pos
      decreases fuel, 49, 0
    {
      var k := Consume(L.Show, ExpectedShow);
      if !k.Parsed? { return Pass(k); }
      var e := ParseExpression(fuel);
      if !e.Parsed? { return Pass(e); }
      var t := ConsumeNewlineOrEof();
      if !t.Parsed? { return Pass(t); }
      r := Parsed(Show(e.value), current);
    }

    /** `return_statement`. */
    method ParseReturn(fuel: nat) returns (r: Outcome<Statement>)
      requires Ready(tokens, current)
      modifies this
      ensures r == ReturnAt(tokens, old(current), fuel)
      ensures r.Parsed? ==> current == r.pos
      decreases fuel, 49, 0
    {
      var k := Consume(L.Return, ExpectedReturn);
      if !k.Parsed? { return Pass(k); }
      var v: Outcome<Option<Expression>> := Parsed(None, current);
      if !(tokens[current].Newline? || tokens[current].Eof?) {
        var e := ParseExpression(fuel);
        if !e.Parsed? { return Pass(e); }
        v := Parsed(Some(e.value), current);
      }
      var t := ConsumeNewlineOrEof();
      if !t.Parsed? { return Pass(t); }
      r := Parsed(Return(v.value), current);
    }

    /** `import_statement`. */
    method ParseImport() returns (r: Outcome<Statement>)
      requires Ready(tokens, current)
      modifies this
      ensures r == ImportAt(tokens, old(current))
      ensures r.Parsed? ==> current == r.pos
    {
      var k := Consume(L.Import, ExpectedImport);
      if !k.Parsed? { return Pass(k); }
      var n := ExpectName(ExpectedModuleName);
      if !n.Parsed? { return Pass(n); }
      var t := ConsumeNewlineOrEof();
      if !t.Parsed? { return Pass(t); }
      r := Parsed(Import(n.value), current);
    }

    /** `export_statement`. */
    method ParseExport(fuel: nat) returns (r: Outcome<Statement>)
      requires Ready(tokens, current)
      modifies this
      ensures r == ExportAt(tokens, old(current), fuel)
      ensures r.Parsed? ==> current == r.pos
      decreases fuel, 49, 0
    {
      hide StatementAt, ConsumeAt;
      var k := Consume(L.Export, ExpectedExport);
      if !k.Parsed? { return Pass(k); }
      if fuel == 0 { return Overflow; }
      var s := ParseStatement(fuel - 1);
      if !s.Parsed? { return Pass(s); }
      r := Parsed(Export(s.value), current);
    }

    /** `try_catch_statement`. */
    method ParseTryCatch(fuel: nat) returns (r: Outcome<Statement>)
      requires Ready(tokens, current)
      modifies this
      ensures r == TryCatchAt(tokens, old(current), fuel)
      ensures r.Parsed? ==> current == r.pos
      decreases fuel, 49, 0
    {
      var k := Consume(L.Try, ExpectedTry);
      if !k.Parsed? { return Pass(k); }
      var nl := ConsumeNewline();
      if !nl.Parsed? { return Pass(nl); }
      var body := ParseBlock(fuel, [L.Catch]);
      if !body.Parsed? { return Pass(body); }
      var h := ParseHandler(fuel);
      if !h.Parsed? { return Pass(h); }
      r := Parsed(TryCatch(body.value, h.value.0, h.value.1), current);
    }

    /** The handler of `try_catch_statement`. */
    method ParseHandler(fuel: nat) returns (r: Outcome<(string, seq<Statement>)>)
      requires Ready(tokens, current)
      modifies this
      ensures r == HandlerAt(tokens, old(current), fuel)
      ensures r.Parsed? ==> current == r.pos
      decreases fuel, 48, 0
    {
      var c := Consume(L.Catch, ExpectedCatch);
      if !c.Parsed? { return Pass(c); }
      var n := ExpectName(ExpectedErrorVariableName);
      if !n.Parsed? { return Pass(n); }
      var nl := ConsumeNewline();
      if !nl.Parsed? { return Pass(nl); }
      var body := ParseEndedBlock(fuel, ExpectedEnd);
      if !body.Parsed? { return Pass(body); }
      r := Parsed((n.value, body.value), current);
    }

    /** `expression`. */
    method ParseExpression(fuel: nat) returns (r: Outcome<Expression>)
      requires Ready(tokens, current)
      modifies this
      ensures r == ExpressionAt(tokens, old(current), fuel)
      ensures r.Parsed? ==> current == r.pos
      decreases fuel, 30, 0
    {
      r := ParseBinaryLevel(fuel, 0);
    }

    /** The operand of a binary level. */
    method ParseOperand(fuel: nat, level: nat) returns (r: Outcome<Expression>)
      requires Ready(tokens, current) && level <= 5
      modifies this
      ensures r == OperandAt(tokens, old(current), fuel, level)
      ensures r.Parsed? ==> current == r.pos
      decreases fuel, 28 - 3 * level, 1
    {
      if level < 5 {
        r := ParseBinaryLevel(fuel, level + 1);
      } else {
        r := ParseUnary(fuel);
      }
    }

    /** `logical_or`, `logical_and`, `equality`, `comparison`, `term` and `factor`. */
    method ParseBinaryLevel(fuel: nat, level: nat) returns (r: Outcome<Expression>)
      requires Ready(tokens, current) && level <= 5
      modifies this
      ensures r == BinaryLevelAt(tokens, old(current), fuel, level)
      ensures r.Parsed? ==> current == r.pos
      decreases fuel, 29 - 3 * level, 0
    {
      var left := ParseOperand(fuel, level);
      if !left.Parsed? { return left; }
      var e := left.value;
      while LevelOperator(level, tokens[current]).Some?
        invariant Ready(tokens, current)
        invariant BinaryLevelAt(tokens, old(current), fuel, level) == BinaryRestAt(tokens, current, fuel, level, e)
        decreases |tokens| - current
      {
        var t := Advance();
        var right := ParseOperand(fuel, level);
        if !right.Parsed? { return right; }
        e := Binary(e, LevelOperator(level, t).value, right.value);
      }
      r := Parsed(e, current);
    }

    /** `unary`. */
    method ParseUnary(fuel: nat) returns (r: Outcome<Expression>)
      requires Ready(tokens, current)
      modifies this
      ensures r == UnaryAt(tokens, old(current), fuel)
      ensures r.Parsed? ==> current == r.pos
      decreases fuel, 12, |tokens| - current
    {
      if tokens[current].Not? || tokens[current].Minus? {
        var t := Advance();
        var operand := ParseUnary(fuel);
        if !operand.Parsed? { return operand; }
        r := Parsed(Unary(if t.Not? then Not else Minus, operand.value), current);
      } else {
        r := ParseCall(fuel);
      }
    }

    /** `call`. */
    method ParseCall(fuel: nat) returns (r: Outcome<Expression>)
      requires Ready(tokens, current)
      modifies this
      ensures r == CallAt(tokens, old(current), fuel)
      ensures r.Parsed? ==> current == r.pos
      decreases fuel, 11, 0
    {
      var p := ParsePrimary(fuel);
      if !p.Parsed? { return p; }
      var e := p.value;
      while StartsSuffix(tokens[current])
        invariant Ready(tokens, current)
        invariant CallAt(tokens, old(current), fuel) == PostfixAt(tokens, current, fuel, e)
        decreases |tokens| - current
      {
        var s := ParseSuffix(fuel, e);
        if !s.Parsed? { return s; }
        e := s.value;
      }
      r := Parsed(e, current);
    }

    /** One turn of the loop of `call`. */
    method ParseSuffix(fuel: nat, e: Expression) returns (r: Outcome<Expression>)
      requires Ready(tokens, current) && StartsSuffix(tokens[current])
      modifies this
      ensures r == SuffixAt(tokens, old(current), fuel, e)
      ensures r.Parsed? ==> current == r.pos
      decreases fuel, 10, 0
    {
      hide ArgumentsAt, ExpressionAt, NameAt, ConsumeAt, PostfixAt, AdvanceFrom;
      if tokens[current].LeftParen? {
        if fuel == 0 { return Overflow; }
        var _ := Advance();
        var args := ParseArguments(fuel - 1);
        if !args.Parsed? { return Pass(args); }
        if !e.Identifier? { return Error(InvalidFunctionCall); }
        r := Parsed(FunctionCall(e.identifier, args.value), current);
      } else if tokens[current].Dot? {
        var _ := Advance();
        var n := ExpectName(ExpectedPropertyName);
        if !n.Parsed? { return Pass(n); }
        if tokens[current].LeftParen? {
          if fuel == 0 { return Overflow; }
          var _ := Advance();
          var args := ParseArguments(fuel - 1);
          if !args.Parsed? { return Pass(args); }
          r := Parsed(MethodCall(e, n.value, args.value), current);
        } else {
          r := Parsed(PropertyAccess(e, n.value), current);
        }
      } else {
        if fuel == 0 { return Overflow; }
        var _ := Advance();
        var i := ParseExpression(fuel - 1);
        if !i.Parsed? { return i; }
        var c := Consume(L.RightBracket, ExpectedBracketAfterIndex);
        if !c.Parsed? { return Pass(c); }
        r := Parsed(Index(e, i.value), current);
      }
    }

    /** The argument list of a call, up to and including `)`. */
    method ParseArguments(fuel: nat) returns (r: Outcome<seq<Expression>>)
      requires Ready(tokens, current)
      modifies this
      ensures r == ArgumentsAt(tokens, old(current), fuel)
      ensures r.Parsed? ==> current == r.pos
      decreases fuel, 46, 0
    {
      var arguments: seq<Expression> := [];
      if !tokens[current].RightParen? {
        ghost var start := current;
        while true
          invariant Ready(tokens, current)
          invariant ArgumentListAt(tokens, start, fuel, []) == ArgumentListAt(tokens, current, fuel, arguments)
          decreases |tokens| - current
        {
          var e := ParseExpression(fuel);
          if !e.Parsed? { return Pass(e); }
          arguments := arguments + [e.value];
          if tokens[current].Comma? {
            var _ := Advance();
          } else {
            break;
          }
        }
      }
      var c := Consume(L.RightParen, ExpectedParenAfterArguments);
      if !c.Parsed? { return Pass(c); }
      r := Parsed(arguments, current);
    }

    /** `primary`, with the `(` arm as intended and the `BigInteger` arm supplied. */
    method ParsePrimary(fuel: nat) returns (r: Outcome<Expression>)
      requires Ready(tokens, current)
      modifies this
      ensures r == PrimaryAt(tokens, old(current), fuel)
      ensures r.Parsed? ==> current == r.pos
      decreases fuel, 9, 0
    {
      hide ParenthesizedAt, ArrayAt, ObjectAt, TokenLiteral;
      var t := Advance();
      if TokenLiteral(t).Some? {
        r := Parsed(Literal(TokenLiteral(t).value), current);
      } else if t.Identifier? {
        r := Parsed(Identifier(t.name), current);
      } else if t.LeftParen? {
        if fuel == 0 { return Overflow; }
        current := current - 1;
        r := ParseParenthesized(fuel - 1);
      } else if t.LeftBracket? {
        if fuel == 0 { return Overflow; }
        r := ParseArray(fuel - 1);
      } else if t.LeftBrace? {
        if fuel == 0 { return Overflow; }
        r := ParseObject(fuel - 1);
      } else {
        r := Error(ExpectedExpression);
      }
    }

    /** The `(` arm of `primary`, from the `(`. */
    method ParseParenthesized(fuel: nat) returns (r: Outcome<Expression>)
      requires Ready(tokens, current) && tokens[current].LeftParen?
      modifies this
      ensures r == ParenthesizedAt(tokens, old(current), fuel)
      ensures r.Parsed? ==> current == r.pos
      decreases fuel, 47, 0
    {
      var lambda := IsLambdaExpression();
      if lambda {
        r := ParseLambda(fuel);
      } else {
        var _ := Advance();
        var e := ParseExpression(fuel);
        if !e.Parsed? { return e; }
        var c := Consume(L.RightParen, ExpectedParenAfterExpression);
        if !c.Parsed? { return Pass(c); }
        r := Parsed(e.value, current);
      }
    }

    /** `is_lambda_expression`: look past the matching `)` for `=>`. */
    method IsLambdaExpression() returns (b: bool)
      ensures b == IsLambdaAt(tokens, current)
    {
      var pos := current + 1;
      var depth := 1;
      while pos < |tokens| && depth > 0
        invariant LambdaAhead(tokens, pos, depth) == IsLambdaAt(tokens, current)
        decreases |tokens| - pos
      {
        if tokens[pos].LeftParen? {
          depth := depth + 1;
        } else if tokens[pos].RightParen? {
          depth := depth - 1;
        }
        pos := pos + 1;
      }
      b := pos < |tokens| && tokens[pos].Arrow?;
    }

    /** `parse_lambda`. */
    method ParseLambda(fuel: nat) returns (r: Outcome<Expression>)
      requires Ready(tokens, current)
      modifies this
      ensures r == LambdaAt(tokens, old(current), fuel)
      ensures r.Parsed? ==> current == r.pos
      decreases fuel, 46, 0
    {
      var o := Consume(L.LeftParen, ExpectedParenForLambda);
      if !o.Parsed? { return Pass(o); }
      var parameters: seq<Parameter> := [];
      if !tokens[current].RightParen? {
        var ps := ParseParameters(fuel, false);
        if !ps.Parsed? { return Pass(ps); }
        parameters := ps.value;
      }
      var c := Consume(L.RightParen, ExpectedParenAfterParameters);
      if !c.Parsed? { return Pass(c); }
      var a := Consume(L.Arrow, ExpectedArrowAfterParameters);
      if !a.Parsed? { return Pass(a); }
      var body := ParseExpression(fuel);
      if !body.Parsed? { return body; }
      r := Parsed(Lambda(parameters, body.value), current);
    }

    /** `parse_array`, after the `[`. */
    method ParseArray(fuel: nat) returns (r: Outcome<Expression>)
      requires Ready(tokens, current)
      modifies this
      ensures r == ArrayAt(tokens, old(current), fuel)
      ensures r.Parsed? ==> current == r.pos
      decreases fuel, 46, 0
    {
      var elements: seq<Expression> := [];
      if !tokens[current].RightBracket? {
        ghost var start := current;
        while true
          invariant Ready(tokens, current)
          invariant ElementsAt(tokens, start, fuel, []) == ElementsAt(tokens, current, fuel, elements)
          decreases |tokens| - current
        {
          SkipNewlineTokens();
          if tokens[current].RightBracket? {
            break;
          }
          var e := ParseExpression(fuel);
          if !e.Parsed? { return Pass(e); }
          elements := elements + [e.value];
          if tokens[current].Comma? {
            var _ := Advance();
            SkipNewlineTokens();
          } else {
            break;
          }
        }
      }
      SkipNewlineTokens();
      var c := Consume(L.RightBracket, ExpectedBracketAfterElements);
      if !c.Parsed? { return Pass(c); }
      r := Parsed(ArrayExpr(elements), current);
    }

    /** `parse_object`, after the `{`. */
    method ParseObject(fuel: nat) returns (r: Outcome<Expression>)
      requires Ready(tokens, current)
      modifies this
      ensures r == ObjectAt(tokens, old(current), fuel)
      ensures r.Parsed? ==> current == r.pos
      decreases fuel, 46, 0
    {
      var properties: seq<(string, Expression)> := [];
      if !tokens[current].RightBrace? {
        ghost var start := current;
        while true
          invariant Ready(tokens, current)
          invariant EntriesAt(tokens, start, fuel, []) == EntriesAt(tokens, current, fuel, properties)
          decreases |tokens| - current
        {
          SkipNewlineTokens();
          if tokens[current].RightBrace? {
            break;
          }
          var entry := ParseEntry(fuel);
          if !entry.Parsed? { return Pass(entry); }
          properties := properties + [entry.value];
          if tokens[current].Comma? {
            var _ := Advance();
            SkipNewlineTokens();
          } else {
            break;
          }
        }
      }
      SkipNewlineTokens();
      var c := Consume(L.RightBrace, ExpectedBraceAfterProperties);
      if !c.Parsed? { return Pass(c); }
      r := Parsed(ObjectExpr(properties), current);
    }

    /** One entry of an object. */
    method ParseEntry(fuel: nat) returns (r: Outcome<(string, Expression)>)
      requires Ready(tokens, current)
      modifies this
      ensures r == EntryAt(tokens, old(current), fuel)
      ensures r.Parsed? ==> current == r.pos
      decreases fuel, 44, 0
    {
      var key := KeyOf(tokens[current]);
      if key.None? { return Error(ExpectedObjectKey); }
      var _ := Advance();
      var c := Consume(L.Colon, ExpectedColonAfterKey);
      if !c.Parsed? { return Pass(c); }
      var v := ParseExpression(fuel);
      if !v.Parsed? { return Pass(v); }
      r := Parsed((key.value, v.value), current);
    }
  }
}
