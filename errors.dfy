/** FlowLang's error type, its constructors and the text each error displays. */
module Errors {
  import opened BigNum
  import Values

  datatype FlowError =
    | LexerError(line: nat, column: nat, message: string)
    | ParserError(line: nat, message: string)
    | RuntimeError(line: nat, message: string)
    | TypeError(message: string)
    | UndefinedVariable(name: string)
    | UndefinedFunction(name: string)
    | InvalidOperation(message: string)
    | DivisionByZero
    | IndexOutOfBounds(index: int)
    | IoError(message: string)
    | Return(value: Values.Value)

  /** `parser_error`: no line information, so line 0. */
  function ParserErrorNoLine(message: string): FlowError
  {
    ParserError(0, message)
  }

  /** `runtime_error`: no line information, so line 0. */
  function RuntimeErrorNoLine(message: string): FlowError
  {
    RuntimeError(0, message)
  }

  /** `compilation_error`: a line-0 runtime error whose message is prefixed. */
  function CompilationError(message: string): FlowError
  {
    RuntimeError(0, "Compilation error: " + message)
  }

  /** `From<io::Error>`: the I/O error's description becomes the message. */
  function FromIoError(description: string): FlowError
  {
    IoError(description)
  }

  /**
   * The displayed text of an error. For `Return` the value is shown with its
   * Display text (the source uses the Debug text, which is not modelled).
   */
  function ErrorText(e: FlowError): string
  {
    match e
    case LexerError(line, column, message) =>
      "Lexer error at line " + (NatToString(line) + ", column " + NatToString(column) + ": " + message)
    case ParserError(line, message) => "Parser error at line " + (NatToString(line) + ": " + message)
    case RuntimeError(line, message) => "Runtime error at line " + (NatToString(line) + ": " + message)
    case TypeError(message) => "Type error: " + message
    case UndefinedVariable(name) => "Variable '" + (name + "' is not defined")
    case UndefinedFunction(name) => "Function '" + (name + "' is not defined")
    case InvalidOperation(message) => "Invalid operation: " + message
    case DivisionByZero => "Division by zero"
    case IndexOutOfBounds(index) => "Index out of bounds: " + IntToString(index)
    case IoError(message) => "IO error: " + message
    case Return(value) => "Return: " + Values.ValueText(value)
  }

  /** Which variant an error is, numbered in declaration order. */
  function Kind(e: FlowError): nat
  {
    match e
    case LexerError(_, _, _) => 0
    case ParserError(_, _) => 1
    case RuntimeError(_, _) => 2
    case TypeError(_) => 3
    case UndefinedVariable(_) => 4
    case UndefinedFunction(_) => 5
    case InvalidOperation(_) => 6
    case DivisionByZero => 7
    case IndexOutOfBounds(_) => 8
    case IoError(_) => 9
    case Return(_) => 10
  }

  /** Reads the variant back from a displayed error text by its first letters. */
  function KindOfText(t: string): nat
  {
    if |t| < 3 then 10
    else if t[0] == 'L' then 0
    else if t[0] == 'P' then 1
    else if t[0] == 'R' then (if t[1] == 'u' then 2 else 10)
    else if t[0] == 'T' then 3
    else if t[0] == 'V' then 4
    else if t[0] == 'F' then 5
    else if t[0] == 'I' then (if t[1] == 'O' then 9 else if t[2] == 'v' then 6 else 8)
    else if t[0] == 'D' then 7
    else 10
  }

  /** The variant read from a text depends only on its first three characters. */
  lemma KindOfPrefixed(p: string, rest: string)
    requires |p| >= 3
    ensures KindOfText(p + rest) == KindOfText(p)
  {
    assert (p + rest)[0] == p[0] && (p + rest)[1] == p[1] && (p + rest)[2] == p[2];
  }

  /** The displayed text of every error identifies its variant: no two variants' texts coincide. */
  lemma ErrorTextIdentifiesKind(e: FlowError)
    ensures KindOfText(ErrorText(e)) == Kind(e)
  {
    hide NatToString;
    hide IntToString;
    hide Values.ValueText;
    match e
    case LexerError(_, _, _) => LocatedErrorIdentified(e);
    case ParserError(_, _) => LocatedErrorIdentified(e);
    case RuntimeError(_, _) => LocatedErrorIdentified(e);
    case TypeError(message) =>
      KindOfPrefixed("Type error: ", message);
    case UndefinedVariable(name) =>
      KindOfPrefixed("Variable '", name + "' is not defined");
    case UndefinedFunction(name) =>
      KindOfPrefixed("Function '", name + "' is not defined");
    case InvalidOperation(message) =>
      KindOfPrefixed("Invalid operation: ", message);
    case DivisionByZero =>
    case IndexOutOfBounds(index) =>
      KindOfPrefixed("Index out of bounds: ", IntToString(index));
    case IoError(message) =>
      KindOfPrefixed("IO error: ", message);
    case Return(value) =>
      KindOfPrefixed("Return: ", Values.ValueText(value));
  }

  lemma LocatedErrorIdentified(e: FlowError)
    requires e.LexerError? || e.ParserError? || e.RuntimeError?
    ensures KindOfText(ErrorText(e)) == Kind(e)
  {
    hide NatToString;
    match e
    case LexerError(line, column, message) =>
      KindOfPrefixed("Lexer error at line ", NatToString(line) + ", column " + NatToString(column) + ": " + message);
    case ParserError(line, message) =>
      KindOfPrefixed("Parser error at line ", NatToString(line) + ": " + message);
    case RuntimeError(line, message) =>
      KindOfPrefixed("Runtime error at line ", NatToString(line) + ": " + message);
  }


  /** A compilation error is a line-0 runtime error whose message begins "Compilation error: ". */
  lemma CompilationErrorShape(message: string)
    ensures Kind(CompilationError(message)) == Kind(RuntimeErrorNoLine(message))
    ensures CompilationError(message).line == 0
    ensures CompilationError(message).message[..19] == "Compilation error: "
  {
  }
}
