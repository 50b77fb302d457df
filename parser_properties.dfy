/**
 * What the FlowLang parser (src/parser.rs) promises about whole token
 * lists: operator precedence and associativity, the nesting of prefix
 * operators, blank lines, the input on which its recursion never ends, and
 * the two defects of `primary` next to the routine as it was meant.
 */
module ParsingProperties {
  import opened Wrappers
  import opened Ast
  import L = Lexing
  import LexingProperties
  import BigNum
  import opened Parsing

  // ---------------------------------------------------------------------
  // Operands and levels
  // ---------------------------------------------------------------------

  /** A token that ends an operand of `level`: no operator of a tighter level and no call suffix. */
  predicate EndsOperand(level: nat, t: L.Token)
  {
    !StartsSuffix(t) && forall l: nat | level < l <= 5 :: LevelOperator(l, t).None?
  }

  /** A token that is an expression on its own: a literal or a name. */
  predicate IsAtom(t: L.Token)
  {
    TokenLiteral(t).Some? || t.Identifier?
  }

  /** The expression a literal or a name stands for. */
  function Atom(t: L.Token): Expression
    requires IsAtom(t)
  {
    if TokenLiteral(t).Some? then Literal(TokenLiteral(t).value) else Identifier(t.name)
  }

  /** A literal or a name before a token that ends the operand is an operand of any level on its own. */
  lemma {:induction false} AtomOperand(ts: seq<L.Token>, pos: nat, fuel: nat, level: nat)
    requires Ready(ts, pos) && level <= 5 && IsAtom(ts[pos])
    requires pos + 1 < |ts| && EndsOperand(level, ts[pos + 1])
    ensures OperandAt(ts, pos, fuel, level) == Parsed(Atom(ts[pos]), pos + 1)
    decreases 5 - level
  {
    if level == 5 {
      assert PrimaryAt(ts, pos, fuel) == Parsed(Atom(ts[pos]), pos + 1);
      assert PostfixAt(ts, pos + 1, fuel, Atom(ts[pos])) == Parsed(Atom(ts[pos]), pos + 1);
      assert CallAt(ts, pos, fuel) == Parsed(Atom(ts[pos]), pos + 1);
    } else {
      AtomOperand(ts, pos, fuel, level + 1);
      assert LevelOperator(level + 1, ts[pos + 1]).None?;
      assert BinaryLevelAt(ts, pos, fuel, level + 1) == Parsed(Atom(ts[pos]), pos + 1);
    }
  }

  /** A literal or a name before a token that is no operator and no suffix is a whole expression. */
  lemma AtomExpression(ts: seq<L.Token>, pos: nat, fuel: nat)
    requires Ready(ts, pos) && IsAtom(ts[pos])
    requires pos + 1 < |ts| && EndsOperand(0, ts[pos + 1]) && LevelOperator(0, ts[pos + 1]).None?
    ensures ExpressionAt(ts, pos, fuel) == Parsed(Atom(ts[pos]), pos + 1)
  {
    AtomOperand(ts, pos, fuel, 0);
    assert BinaryRestAt(ts, pos + 1, fuel, 0, Atom(ts[pos])) == Parsed(Atom(ts[pos]), pos + 1);
    assert BinaryLevelAt(ts, pos, fuel, 0) == Parsed(Atom(ts[pos]), pos + 1);
  }

  /** An expression of some level followed by a token that no looser level takes as an operator is a whole expression. */
  lemma {:induction false} WholeExpression(ts: seq<L.Token>, pos: nat, fuel: nat, level: nat, e: Expression, q: nat)
    requires Ready(ts, pos) && level <= 5 && q < |ts|
    requires BinaryLevelAt(ts, pos, fuel, level) == Parsed(e, q)
    requires forall l: nat | l < level :: LevelOperator(l, ts[q]).None?
    ensures ExpressionAt(ts, pos, fuel) == Parsed(e, q)
    decreases level
  {
    if level > 0 {
      assert OperandAt(ts, pos, fuel, level - 1) == Parsed(e, q);
      assert LevelOperator(level - 1, ts[q]).None?;
      assert BinaryLevelAt(ts, pos, fuel, level - 1) == Parsed(e, q);
      WholeExpression(ts, pos, fuel, level - 1, e, q);
    }
  }

  /** `*`, `/` and `%` bind tighter than `+`: `a + b * c` is `a + (b * c)`. */
  lemma FactorBindsTighter(a: L.Token, b: L.Token, c: L.Token, fuel: nat)
    requires IsAtom(a) && IsAtom(b) && IsAtom(c)
    ensures ExpressionAt([a, L.Plus, b, L.Multiply, c, L.Eof], 0, fuel)
         == Parsed(Binary(Atom(a), Add, Binary(Atom(b), Multiply, Atom(c))), 5)
  {
    var ts := [a, L.Plus, b, L.Multiply, c, L.Eof];
    var product := Binary(Atom(b), Multiply, Atom(c));
    AtomOperand(ts, 0, fuel, 4);
    AtomOperand(ts, 2, fuel, 5);
    AtomOperand(ts, 4, fuel, 5);
    assert BinaryRestAt(ts, 3, fuel, 5, Atom(b)) == Parsed(product, 5);
    assert OperandAt(ts, 2, fuel, 4) == Parsed(product, 5);
    assert BinaryRestAt(ts, 1, fuel, 4, Atom(a)) == Parsed(Binary(Atom(a), Add, product), 5);
    WholeExpression(ts, 0, fuel, 4, Binary(Atom(a), Add, product), 5);
  }

  /** The same tokens the other way round: `a * b + c` is `(a * b) + c`. */
  lemma FactorBindsTighterOnTheLeft(a: L.Token, b: L.Token, c: L.Token, fuel: nat)
    requires IsAtom(a) && IsAtom(b) && IsAtom(c)
    ensures ExpressionAt([a, L.Multiply, b, L.Plus, c, L.Eof], 0, fuel)
         == Parsed(Binary(Binary(Atom(a), Multiply, Atom(b)), Add, Atom(c)), 5)
  {
    var ts := [a, L.Multiply, b, L.Plus, c, L.Eof];
    var product := Binary(Atom(a), Multiply, Atom(b));
    AtomOperand(ts, 0, fuel, 5);
    AtomOperand(ts, 2, fuel, 5);
    AtomOperand(ts, 4, fuel, 4);
    assert BinaryRestAt(ts, 1, fuel, 5, Atom(a)) == Parsed(product, 3);
    assert OperandAt(ts, 0, fuel, 4) == Parsed(product, 3);
    assert BinaryRestAt(ts, 3, fuel, 4, product) == Parsed(Binary(product, Add, Atom(c)), 5);
    WholeExpression(ts, 0, fuel, 4, Binary(product, Add, Atom(c)), 5);
  }

  /** Operators of one level group to the left: `a - b - c` is `(a - b) - c`. */
  lemma SubtractionIsLeftAssociative(a: L.Token, b: L.Token, c: L.Token, fuel: nat)
    requires IsAtom(a) && IsAtom(b) && IsAtom(c)
    ensures ExpressionAt([a, L.Minus, b, L.Minus, c, L.Eof], 0, fuel)
         == Parsed(Binary(Binary(Atom(a), Subtract, Atom(b)), Subtract, Atom(c)), 5)
  {
    var ts := [a, L.Minus, b, L.Minus, c, L.Eof];
    var first := Binary(Atom(a), Subtract, Atom(b));
    AtomOperand(ts, 0, fuel, 4);
    AtomOperand(ts, 2, fuel, 4);
    AtomOperand(ts, 4, fuel, 4);
    assert BinaryRestAt(ts, 3, fuel, 4, first) == Parsed(Binary(first, Subtract, Atom(c)), 5);
    assert BinaryRestAt(ts, 1, fuel, 4, Atom(a)) == Parsed(Binary(first, Subtract, Atom(c)), 5);
    WholeExpression(ts, 0, fuel, 4, Binary(first, Subtract, Atom(c)), 5);
  }

  /** `or` is the loosest level: `a or b and c` is `a or (b and c)`. */
  lemma AndBindsTighterThanOr(a: L.Token, b: L.Token, c: L.Token, fuel: nat)
    requires IsAtom(a) && IsAtom(b) && IsAtom(c)
    ensures ExpressionAt([a, L.Or, b, L.And, c, L.Eof], 0, fuel)
         == Parsed(Binary(Atom(a), Or, Binary(Atom(b), And, Atom(c))), 5)
  {
    var ts := [a, L.Or, b, L.And, c, L.Eof];
    var conjunction := Binary(Atom(b), And, Atom(c));
    AtomOperand(ts, 0, fuel, 0);
    AtomOperand(ts, 2, fuel, 1);
    AtomOperand(ts, 4, fuel, 1);
    assert BinaryRestAt(ts, 3, fuel, 1, Atom(b)) == Parsed(conjunction, 5);
    assert OperandAt(ts, 2, fuel, 0) == Parsed(conjunction, 5);
    assert BinaryRestAt(ts, 1, fuel, 0, Atom(a)) == Parsed(Binary(Atom(a), Or, conjunction), 5);
  }

  /** Prefix operators nest to the right: `- not a` is `-(not a)`. */
  lemma PrefixOperatorsNest(a: L.Token, fuel: nat)
    requires IsAtom(a)
    ensures ExpressionAt([L.Minus, L.Not, a, L.Eof], 0, fuel)
         == Parsed(Unary(Minus, Unary(Not, Atom(a))), 3)
  {
    var ts := [L.Minus, L.Not, a, L.Eof];
    AtomOperand(ts, 2, fuel, 5);
    assert UnaryAt(ts, 1, fuel) == Parsed(Unary(Not, Atom(a)), 3);
    assert UnaryAt(ts, 0, fuel) == Parsed(Unary(Minus, Unary(Not, Atom(a))), 3);
    assert BinaryLevelAt(ts, 0, fuel, 5) == Parsed(Unary(Minus, Unary(Not, Atom(a))), 3);
    WholeExpression(ts, 0, fuel, 5, Unary(Minus, Unary(Not, Atom(a))), 3);
  }

  /** If `unary` runs out of stack, so does every binary level above it. */
  lemma {:induction false} LevelsOverflow(ts: seq<L.Token>, pos: nat, fuel: nat, level: nat)
    requires Ready(ts, pos) && level <= 5 && UnaryAt(ts, pos, fuel).Overflow?
    ensures BinaryLevelAt(ts, pos, fuel, level).Overflow?
    decreases 5 - level
  {
    if level < 5 {
      LevelsOverflow(ts, pos, fuel, level + 1);
    }
  }

  /** Only a name can be called as a function: a call on any other expression is an error. */
  lemma OnlyNamesAreCalled(ts: seq<L.Token>, pos: nat, fuel: nat, e: Expression)
    requires Ready(ts, pos) && ts[pos].LeftParen? && !e.Identifier? && fuel > 0
    requires ArgumentsAt(ts, pos + 1, fuel - 1).Parsed?
    ensures SuffixAt(ts, pos, fuel, e) == Error(InvalidFunctionCall)
  {
  }

  // ---------------------------------------------------------------------
  // Statements
  // ---------------------------------------------------------------------

  /** The statement a keyword at the start of a line announces; any other token starts an expression statement. */
  predicate Announces(t: L.Token, s: Statement)
  {
    if t.Let? then s.VariableDeclaration?
    else if t.Def? then s.FunctionDeclaration?
    else if t.If? then s.If?
    else if t.While? then s.While?
    else if t.For? then s.For?
    else if t.Show? then s.Show?
    else if t.Return? then s.Return?
    else if t.Import? then s.Import?
    else if t.Export? then s.Export?
    else if t.Try? then s.TryCatch?
    else s.ExpressionStatement?
  }

  /** The first token of a statement decides its kind. */
  lemma StatementKindFollowsFirstToken(ts: seq<L.Token>, pos: nat, fuel: nat)
    requires Ready(ts, pos) && StatementAt(ts, pos, fuel).Parsed?
    ensures Announces(ts[pos], StatementAt(ts, pos, fuel).value)
  {
    hide ExpressionAt, BranchesAt, SignatureAt, RangeAt, DoBlockAt, BlockAt, HandlerAt;
    hide NameAt, ConsumeAt, NewlineAt, NewlineOrEofAt, ReturnValueAt;
  }

  /** `else if` is an else-block holding one nested `if` statement, which closes with an `end` of its own. */
  lemma ElseIfIsNestedIf(ts: seq<L.Token>, pos: nat, fuel: nat)
    requires Ready(ts, pos) && ts[pos].Else? && ts[pos + 1].If?
    requires ElseAt(ts, pos, fuel).Parsed?
    ensures var b := ElseAt(ts, pos, fuel).value;
      b.Else? && |b.statements| == 1 && b.statements[0].If? && EndsLine(ts, ElseAt(ts, pos, fuel).pos)
  {
  }

  // ---------------------------------------------------------------------
  // Whole programs
  // ---------------------------------------------------------------------

  /** The tokens of the program "(": an opening parenthesis and nothing after it. */
  function UnclosedParen(): seq<L.Token>
  {
    [L.LeftParen, L.Eof]
  }

  /**
   * At `Eof` after an unclosed `(`, `advance` does not move and `previous`
   * is the `(` again, so `primary` starts the same parenthesised
   * expression over and over: however deep the stack, it runs out.
   */
  lemma {:induction false} UnclosedParenRecursesForever(fuel: nat)
    ensures PrimaryAt(UnclosedParen(), 1, fuel).Overflow?
    ensures PrimaryAt(UnclosedParen(), 0, fuel).Overflow?
  {
    var ts := UnclosedParen();
    if fuel > 0 {
      UnclosedParenRecursesForever(fuel - 1);
      assert UnaryAt(ts, 1, fuel - 1).Overflow?;
      LevelsOverflow(ts, 1, fuel - 1, 0);
      assert !IsLambdaAt(ts, 0);
      assert ParenthesizedAt(ts, 0, fuel - 1).Overflow?;
    }
  }

  /** The program "(" never parses: whatever the stack depth, the parser overflows it. */
  lemma UnclosedParenNeverParses(fuel: nat)
    ensures ParseAt(UnclosedParen(), fuel).Overflow?
  {
    var ts := UnclosedParen();
    UnclosedParenRecursesForever(fuel);
    assert UnaryAt(ts, 0, fuel).Overflow?;
    LevelsOverflow(ts, 0, fuel, 0);
    assert StatementAt(ts, 0, fuel).Overflow?;
  }

  /** Tokens from `pos` on that are all newlines up to the final `Eof`. */
  predicate BlankFrom(ts: seq<L.Token>, pos: nat)
  {
    WellFormed(ts) && pos < |ts| && forall i | pos <= i < |ts| - 1 :: ts[i].Newline?
  }

  /** Blank lines add no statement: the program is what was parsed before them. */
  lemma {:induction false} BlankLinesAddNothing(ts: seq<L.Token>, pos: nat, fuel: nat, acc: seq<Statement>)
    requires BlankFrom(ts, pos)
    ensures ProgramAt(ts, pos, fuel, acc) == Parsed(Program(acc), |ts| - 1)
    decreases |ts| - pos
  {
    if pos < |ts| - 1 {
      BlankLinesAddNothing(ts, pos + 1, fuel, acc);
    }
  }

  /** A program of blank lines only is the empty program. */
  lemma BlankProgramIsEmpty(k: nat, fuel: nat)
    ensures ParseAt(seq(k, _ => L.Newline) + [L.Eof], fuel) == Parsed(Program([]), k)
  {
    BlankLinesAddNothing(seq(k, _ => L.Newline) + [L.Eof], 0, fuel, []);
  }

  /** A literal or a name alone is a program of one expression statement. */
  lemma SingleAtomProgram(t: L.Token, fuel: nat)
    requires IsAtom(t)
    ensures ParseAt([t, L.Eof], fuel) == Parsed(Program([ExpressionStatement(Atom(t))]), 1)
  {
    var ts := [t, L.Eof];
    var s := ExpressionStatement(Atom(t));
    AtomExpression(ts, 0, fuel);
    assert ExpressionStatementAt(ts, 0, fuel) == Parsed(s, 1);
    assert StatementAt(ts, 0, fuel) == Parsed(s, 1);
    assert [] + [s] == [s];
    assert ProgramAt(ts, 0, fuel, []) == ProgramAt(ts, 1, fuel, [s]);
  }

  /**
   * Lexer and parser together: the text of every natural number is a
   * program of one expression statement: the literal the lexer makes of it,
   * an i64 when it fits and the scaled big integer beyond.
   */
  lemma NumeralIsProgram(n: nat, fuel: nat)
    ensures var t := LexingProperties.NumberLiteral(n);
      L.TokensOf(BigNum.NatToString(n)) == Ok([t, L.Eof]) &&
      IsAtom(t) && ParseAt([t, L.Eof], fuel) == Parsed(Program([ExpressionStatement(Atom(t))]), 1)
  {
    LexingProperties.LexNatural(n);
    SingleAtomProgram(LexingProperties.NumberLiteral(n), fuel);
  }

  // ---------------------------------------------------------------------
  // `primary` as written and as meant
  // ---------------------------------------------------------------------

  /** The tokens of "(-1)". */
  function NegatedOneInParens(): seq<L.Token>
  {
    [L.LeftParen, L.Minus, L.Integer(1), L.RightParen, L.Eof]
  }

  /**
   * As written, the `(` arm advances once more before the inner expression,
   * so the first token inside the parentheses is lost: "(-1)" reads as 1.
   */
  lemma GroupingAsWrittenDropsFirstToken(fuel: nat)
    requires fuel > 0
    ensures PrimaryAsWrittenAt(NegatedOneInParens(), 0, fuel) == Parsed(Literal(IntegerLit(1)), 4)
  {
    var ts := NegatedOneInParens();
    AtomExpression(ts, 2, fuel - 1);
    assert !IsLambdaAt(ts, 1);
  }

  /** As meant, the whole content of the parentheses is the expression: "(-1)" is minus one. */
  lemma GroupingKeepsFirstToken(fuel: nat)
    requires fuel > 0
    ensures PrimaryAt(NegatedOneInParens(), 0, fuel) == Parsed(Unary(Minus, Literal(IntegerLit(1))), 4)
  {
    var ts := NegatedOneInParens();
    var e := Unary(Minus, Literal(IntegerLit(1)));
    AtomOperand(ts, 2, fuel - 1, 5);
    assert UnaryAt(ts, 1, fuel - 1) == Parsed(e, 3);
    assert BinaryLevelAt(ts, 1, fuel - 1, 5) == Parsed(e, 3);
    WholeExpression(ts, 1, fuel - 1, 5, e, 3);
    assert !IsLambdaAt(ts, 0);
    GroupingIsInnerExpression(ts, 0, fuel, e, 3);
  }

  /**
   * As meant, for every token list: a `(` that does not start a lambda,
   * an expression and a `)` make the expression itself.
   */
  lemma GroupingIsInnerExpression(ts: seq<L.Token>, pos: nat, fuel: nat, e: Expression, q: nat)
    requires Ready(ts, pos) && ts[pos].LeftParen? && !IsLambdaAt(ts, pos) && fuel > 0
    requires ExpressionAt(ts, pos + 1, fuel - 1) == Parsed(e, q) && ts[q].RightParen?
    ensures PrimaryAt(ts, pos, fuel) == Parsed(e, q + 1)
  {
  }

  /** The tokens of "(x) => x". */
  function IdentityLambda(): seq<L.Token>
  {
    [L.LeftParen, L.Identifier("x"), L.RightParen, L.Arrow, L.Identifier("x"), L.Eof]
  }

  /** As written, `parse_lambda` starts one token after the `(` it expects: every lambda is an error. */
  lemma LambdaAsWrittenFails(fuel: nat)
    requires fuel > 0
    ensures PrimaryAsWrittenAt(IdentityLambda(), 0, fuel) == Error(ExpectedParenForLambda)
  {
    assert IsLambdaAt(IdentityLambda(), 1);
  }

  /** As meant, "(x) => x" is the lambda of one parameter x returning x. */
  lemma LambdaParses(fuel: nat)
    requires fuel > 0
    ensures PrimaryAt(IdentityLambda(), 0, fuel)
         == Parsed(Lambda([Parameter("x", None, false)], Identifier("x")), 5)
  {
    var ts := IdentityLambda();
    assert IsLambdaAt(ts, 0);
    assert NameAt(ts, 1, ExpectedParameterName) == Parsed("x", 2);
    assert DefaultAt(ts, 2, fuel - 1) == Parsed(None, 2);
    assert [] + [Parameter("x", None, false)] == [Parameter("x", None, false)];
    assert ParametersAt(ts, 1, fuel - 1, [], false) == Parsed([Parameter("x", None, false)], 2);
    AtomExpression(ts, 4, fuel - 1);
    var lambda := Lambda([Parameter("x", None, false)], Identifier("x"));
    assert LambdaAt(ts, 0, fuel - 1) == Parsed(lambda, 5);
    assert ParenthesizedAt(ts, 0, fuel - 1) == Parsed(lambda, 5);
  }

  /** As written, a number too large for an i64, which the lexer makes a BigInteger token, is no expression. */
  lemma BigLiteralAsWrittenRejected(b: BigNum.BigInt, fuel: nat)
    ensures PrimaryAsWrittenAt([L.BigInteger(b), L.Eof], 0, fuel) == Error(ExpectedExpression)
  {
  }

  /** As meant, it is a big-integer literal. */
  lemma BigLiteralParses(b: BigNum.BigInt, fuel: nat)
    ensures PrimaryAt([L.BigInteger(b), L.Eof], 0, fuel) == Parsed(Literal(BigIntegerLit(b)), 1)
  {
  }
}
