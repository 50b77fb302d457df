/**
 * The bytecode file format: the 20-byte little-endian header, the instruction
 * set, the `Chunk` (instructions, parallel line numbers and a deduplicating
 * constant pool) and the byte encoding of constants and instructions that
 * `write_to_file` produces, with a decoder for that encoding.
 */
module Bytecode {
  import opened Wrappers
  import opened Utf8
  import opened Values
  import Errors
  import Ast

  const MAGIC_NUMBER: nat := 0x464C4F57
  const VERSION_MAJOR: nat := 1
  const VERSION_MINOR: nat := 0

  const U16: nat := 0x1_0000
  const U32: nat := 0x1_0000_0000
  const U64: nat := 0x1_0000_0000_0000_0000

  /** The message of the I/O error `read_exact` reports when the input ends early. */
  const UNEXPECTED_EOF: string := "failed to fill whole buffer"

  const UNSUPPORTED_CONSTANT := Errors.RuntimeErrorNoLine("Unsupported constant type for serialization")
  const UNSUPPORTED_INSTRUCTION := Errors.RuntimeErrorNoLine("Unsupported instruction for serialization")

  // ---------------------------------------------------------------------
  // Little-endian integers
  // ---------------------------------------------------------------------

  function Pow256(k: nat): (r: nat)
    ensures r >= 1
  {
    if k == 0 then 1 else 0x100 * Pow256(k - 1)
  }

  /** `to_le_bytes` of an unsigned integer k bytes wide: n is truncated to its low k bytes. */
  function LittleEndian(n: nat, k: nat): (r: seq<Byte>)
    ensures |r| == k
  {
    if k == 0 then [] else [n % 0x100] + LittleEndian(n / 0x100, k - 1)
  }

  /** `from_le_bytes`: the unsigned integer the bytes spell, least significant first. */
  function FromLittleEndian(b: seq<Byte>): (r: nat)
    ensures r < Pow256(|b|)
  {
    if |b| == 0 then 0 else b[0] + 0x100 * FromLittleEndian(b[1..])
  }

  /** Reading back k written bytes gives n modulo 256^k: a value that fits comes back unchanged. */
  lemma {:induction false} LittleEndianRoundTrip(n: nat, k: nat)
    ensures FromLittleEndian(LittleEndian(n, k)) == n % Pow256(k)
    decreases k
  {
    if k > 0 {
      var b := LittleEndian(n, k);
      assert b[1..] == LittleEndian(n / 0x100, k - 1);
      LittleEndianRoundTrip(n / 0x100, k - 1);
      DivModShift(n, Pow256(k - 1));
    }
  }

  lemma DivModShift(n: nat, p: nat)
    requires p >= 1
    ensures n % 0x100 + 0x100 * ((n / 0x100) % p) == n % (0x100 * p)
  {
    var q := n / 0x100;
    var r := n % 0x100;
    assert n == 0x100 * q + r;
    var q2 := q / p;
    var r2 := q % p;
    assert q == p * q2 + r2;
    assert n == (0x100 * p) * q2 + (0x100 * r2 + r);
    assert 0 <= 0x100 * r2 + r < 0x100 * p;
    ModUnique(n, 0x100 * p, q2, 0x100 * r2 + r);
  }

  lemma Associative<T>(a: seq<T>, b: seq<T>, c: seq<T>)
    ensures a + b + c == a + (b + c)
  {
  }

  lemma ModUnique(n: int, d: int, q: int, r: int)
    requires d > 0 && 0 <= r < d && n == d * q + r
    ensures n % d == r
  {
    var q1 := n / d;
    var r1 := n % d;
    assert d * (q - q1) == r1 - r;
    if q > q1 {
      MulAtLeast(d, q - q1);
    } else if q < q1 {
      MulAtLeast(d, q1 - q);
    }
  }

  lemma MulAtLeast(d: int, k: int)
    requires d > 0 && k >= 1
    ensures d * k >= d
  {
  }

  /** Writing what was read gives back the same bytes. */
  lemma {:induction false} FromLittleEndianRoundTrip(b: seq<Byte>)
    ensures LittleEndian(FromLittleEndian(b), |b|) == b
    decreases |b|
  {
    if |b| > 0 {
      var n := FromLittleEndian(b);
      assert n % 0x100 == b[0] && n / 0x100 == FromLittleEndian(b[1..]);
      FromLittleEndianRoundTrip(b[1..]);
    }
  }

  // ---------------------------------------------------------------------
  // Header
  // ---------------------------------------------------------------------

  datatype Header = Header(
    magicNumber: nat,
    versionMajor: nat,
    versionMinor: nat,
    constantPoolSize: nat,
    codeSize: nat,
    entryPoint: nat)

  /** Every field fits its Rust width: u32 except the two u16 version numbers. */
  predicate HeaderFits(h: Header)
  {
    h.magicNumber < U32 && h.versionMajor < U16 && h.versionMinor < U16 &&
    h.constantPoolSize < U32 && h.codeSize < U32 && h.entryPoint < U32
  }

  /** `BytecodeHeader::new`: the FLOW magic number and version 1.0 with the given sizes. */
  function NewHeader(constantPoolSize: nat, codeSize: nat, entryPoint: nat): (h: Header)
    requires constantPoolSize < U32 && codeSize < U32 && entryPoint < U32
    ensures HeaderFits(h)
    ensures h.magicNumber == 0x464C4F57 && h.versionMajor == 1 && h.versionMinor == 0
    ensures h.constantPoolSize == constantPoolSize && h.codeSize == codeSize && h.entryPoint == entryPoint
  {
    Header(MAGIC_NUMBER, VERSION_MAJOR, VERSION_MINOR, constantPoolSize, codeSize, entryPoint)
  }

  /** `write_to`: the six fields in order, each little-endian at its width, 20 bytes in all. */
  function HeaderBytes(h: Header): (r: seq<Byte>)
    ensures |r| == 20
  {
    LittleEndian(h.magicNumber, 4) + LittleEndian(h.versionMajor, 2) + LittleEndian(h.versionMinor, 2) +
    LittleEndian(h.constantPoolSize, 4) + LittleEndian(h.codeSize, 4) + LittleEndian(h.entryPoint, 4)
  }

  /**
   * `read_from`: fewer than 4 bytes is an I/O error; a first word other than the
   * magic number is rejected before anything else is read; fewer than 20 bytes
   * is then an I/O error. Returns the header and the bytes after it.
   */
  function ReadHeader(input: seq<Byte>): Result<(Header, seq<Byte>), Errors.FlowError>
  {
    if |input| < 4 then Err(Errors.FromIoError(UNEXPECTED_EOF))
    else if FromLittleEndian(input[..4]) != MAGIC_NUMBER then
      Err(Errors.RuntimeErrorNoLine("Invalid bytecode file: wrong magic number"))
    else if |input| < 20 then Err(Errors.FromIoError(UNEXPECTED_EOF))
    else
      Ok((Header(FromLittleEndian(input[..4]), FromLittleEndian(input[4..6]), FromLittleEndian(input[6..8]),
                 FromLittleEndian(input[8..12]), FromLittleEndian(input[12..16]), FromLittleEndian(input[16..20])),
          input[20..]))
  }

  /** The six byte fields of a written header, as slices of the whole. */
  lemma HeaderSlices(h: Header, rest: seq<Byte>)
    ensures var b := HeaderBytes(h) + rest;
      b[..4] == LittleEndian(h.magicNumber, 4) && b[4..6] == LittleEndian(h.versionMajor, 2) &&
      b[6..8] == LittleEndian(h.versionMinor, 2) && b[8..12] == LittleEndian(h.constantPoolSize, 4) &&
      b[12..16] == LittleEndian(h.codeSize, 4) && b[16..20] == LittleEndian(h.entryPoint, 4) &&
      b[20..] == rest
  {
  }

  /** `read_from(write_to(h)) == h` for a header with the right magic number, leaving what follows unread. */
  lemma HeaderRoundTrip(h: Header, rest: seq<Byte>)
    requires HeaderFits(h) && h.magicNumber == MAGIC_NUMBER
    ensures ReadHeader(HeaderBytes(h) + rest) == Ok((h, rest))
  {
    var b := HeaderBytes(h) + rest;
    HeaderSlices(h, rest);
    assert FromLittleEndian(b[..4]) == h.magicNumber by { Fits(h.magicNumber, 4); }
    assert FromLittleEndian(b[4..6]) == h.versionMajor by { Fits(h.versionMajor, 2); }
    assert FromLittleEndian(b[6..8]) == h.versionMinor by { Fits(h.versionMinor, 2); }
    assert FromLittleEndian(b[8..12]) == h.constantPoolSize by { Fits(h.constantPoolSize, 4); }
    assert FromLittleEndian(b[12..16]) == h.codeSize by { Fits(h.codeSize, 4); }
    assert FromLittleEndian(b[16..20]) == h.entryPoint by { Fits(h.entryPoint, 4); }
  }

  /** The 2- and 4-byte widths: a value below 2^16 or 2^32 reads back unchanged. */
  lemma Fits(n: nat, k: nat)
    requires (k == 2 && n < U16) || (k == 4 && n < U32)
    ensures FromLittleEndian(LittleEndian(n, k)) == n
  {
    LittleEndianRoundTrip(n, k);
    Pow256Widths();
    ModUnique(n, Pow256(k), 0, n);
  }

  lemma Pow256Widths()
    ensures Pow256(2) == U16 && Pow256(4) == U32 && Pow256(8) == U64
  {
    assert Pow256(1) == 0x100;
    assert Pow256(2) == 0x1_0000;
    assert Pow256(3) == 0x100_0000;
    assert Pow256(4) == 0x1_0000_0000;
    assert Pow256(5) == 0x100_0000_0000;
    assert Pow256(6) == 0x1_0000_0000_0000;
    assert Pow256(7) == 0x100_0000_0000_0000;
  }

  /** A written header with any other magic number is rejected. */
  lemma WrongMagicRejected(h: Header, rest: seq<Byte>)
    requires HeaderFits(h) && h.magicNumber != MAGIC_NUMBER
    ensures ReadHeader(HeaderBytes(h) + rest) == Err(Errors.RuntimeErrorNoLine("Invalid bytecode file: wrong magic number"))
  {
    HeaderSlices(h, rest);
    assert FromLittleEndian((HeaderBytes(h) + rest)[..4]) == h.magicNumber by { Fits(h.magicNumber, 4); }
  }

  /**
   * Conversely, whatever `read_from` accepts is the written form of the header
   * it returns, which has the magic number, followed by the rest.
   */
  lemma ReadHeaderAccepts(input: seq<Byte>)
    ensures ReadHeader(input).Ok? <==> |input| >= 20 && FromLittleEndian(input[..4]) == MAGIC_NUMBER
    ensures ReadHeader(input).Ok? ==>
      var (h, rest) := ReadHeader(input).value;
      HeaderFits(h) && h.magicNumber == MAGIC_NUMBER && HeaderBytes(h) + rest == input
  {
    if ReadHeader(input).Ok? {
      var (h, rest) := ReadHeader(input).value;
      FromLittleEndianRoundTrip(input[..4]);
      FromLittleEndianRoundTrip(input[4..6]);
      FromLittleEndianRoundTrip(input[6..8]);
      FromLittleEndianRoundTrip(input[8..12]);
      FromLittleEndianRoundTrip(input[12..16]);
      FromLittleEndianRoundTrip(input[16..20]);
      assert input == input[..4] + input[4..6] + input[6..8] + input[8..12] + input[12..16] + input[16..20] + input[20..];
    }
  }

  // ---------------------------------------------------------------------
  // Instructions
  // ---------------------------------------------------------------------

  datatype Instruction =
    | LoadConstant(constantIndex: nat)
    | LoadLocal(localIndex: nat)
    | StoreLocal(localIndex: nat)
    | LoadGlobal(globalName: string)
    | StoreGlobal(globalName: string)
    | Duplicate
    | Pop
    | Swap
    | Add
    | Subtract
    | Multiply
    | Divide
    | Modulo
    | Negate
    | Equal
    | NotEqual
    | Less
    | LessEqual
    | Greater
    | GreaterEqual
    | And
    | Or
    | Not
    | Jump(target: nat)
    | JumpIfFalse(target: nat)
    | JumpIfTrue(target: nat)
    | Call(argc: nat)
    | Return
    | ReturnValue
    | NewArray(size: nat)
    | NewObject
    | GetIndex
    | SetIndex
    | GetProperty(propertyName: string)
    | SetProperty(propertyName: string)
    | NewFunction(functionIndex: nat)
    | NewClosure(functionIndex: nat)
    | CallMethod(methodName: string)
    | CallBuiltin(builtinName: string)
    | Print
    | Halt

  /** The instructions whose operand is a jump target. */
  predicate IsJump(i: Instruction)
  {
    i.Jump? || i.JumpIfFalse? || i.JumpIfTrue?
  }

  /** The one-byte opcodes of the instructions written without an operand. */
  function PlainOpcode(i: Instruction): Option<Byte>
  {
    match i
    case Add => Some(0x10)
    case Subtract => Some(0x11)
    case Multiply => Some(0x12)
    case Divide => Some(0x13)
    case Modulo => Some(0x14)
    case Negate => Some(0x15)
    case Equal => Some(0x20)
    case NotEqual => Some(0x21)
    case Less => Some(0x22)
    case LessEqual => Some(0x23)
    case Greater => Some(0x24)
    case GreaterEqual => Some(0x25)
    case And => Some(0x30)
    case Or => Some(0x31)
    case Not => Some(0x32)
    case Return => Some(0x51)
    case ReturnValue => Some(0x52)
    case Pop => Some(0x60)
    case Duplicate => Some(0x61)
    case Swap => Some(0x62)
    case Print => Some(0x70)
    case Halt => Some(0xFF)
    case _ => None
  }

  /** The opcodes of the instructions written with a two-byte operand, and that operand. */
  function OperandOpcode(i: Instruction): Option<(Byte, nat)>
  {
    match i
    case LoadConstant(n) => Some((0x01, n))
    case LoadLocal(n) => Some((0x02, n))
    case StoreLocal(n) => Some((0x03, n))
    case Jump(n) => Some((0x40, n))
    case JumpIfFalse(n) => Some((0x41, n))
    case JumpIfTrue(n) => Some((0x42, n))
    case Call(n) => Some((0x50, n))
    case _ => None
  }

  /**
   * `write_instruction_to_file`: an operand instruction is its opcode and the
   * operand truncated to u16, little-endian; the others are one opcode byte;
   * anything else (globals, arrays, objects, functions, builtins) is refused.
   */
  function InstructionBytes(i: Instruction): (r: Result<seq<Byte>, Errors.FlowError>)
    ensures r.Ok? <==> PlainOpcode(i).Some? || OperandOpcode(i).Some?
    ensures r.Err? ==> r.error == UNSUPPORTED_INSTRUCTION
  {
    match OperandOpcode(i)
    case Some((op, n)) => Ok([op] + LittleEndian(n % U16, 2))
    case None =>
      match PlainOpcode(i)
      case Some(op) => Ok([op])
      case None => Err(UNSUPPORTED_INSTRUCTION)
  }

  /** The instruction a plain opcode stands for. */
  function PlainInstruction(op: Byte): Option<Instruction>
  {
    if op == 0x10 then Some(Add) else if op == 0x11 then Some(Subtract)
    else if op == 0x12 then Some(Multiply) else if op == 0x13 then Some(Divide)
    else if op == 0x14 then Some(Modulo) else if op == 0x15 then Some(Negate)
    else if op == 0x20 then Some(Equal) else if op == 0x21 then Some(NotEqual)
    else if op == 0x22 then Some(Less) else if op == 0x23 then Some(LessEqual)
    else if op == 0x24 then Some(Greater) else if op == 0x25 then Some(GreaterEqual)
    else if op == 0x30 then Some(And) else if op == 0x31 then Some(Or)
    else if op == 0x32 then Some(Not) else if op == 0x51 then Some(Return)
    else if op == 0x52 then Some(ReturnValue) else if op == 0x60 then Some(Pop)
    else if op == 0x61 then Some(Duplicate) else if op == 0x62 then Some(Swap)
    else if op == 0x70 then Some(Print) else if op == 0xFF then Some(Halt)
    else None
  }

  /** The instruction an operand opcode stands for, with its operand. */
  function OperandInstruction(op: Byte, n: nat): Option<Instruction>
  {
    if op == 0x01 then Some(LoadConstant(n)) else if op == 0x02 then Some(LoadLocal(n))
    else if op == 0x03 then Some(StoreLocal(n)) else if op == 0x40 then Some(Jump(n))
    else if op == 0x41 then Some(JumpIfFalse(n)) else if op == 0x42 then Some(JumpIfTrue(n))
    else if op == 0x50 then Some(Call(n))
    else None
  }

  /** Reads one written instruction from the front of the bytes, returning it and what follows. */
  function DecodeInstruction(b: seq<Byte>): Option<(Instruction, seq<Byte>)>
  {
    if |b| == 0 then None
    else if PlainInstruction(b[0]).Some? then Some((PlainInstruction(b[0]).value, b[1..]))
    else if |b| < 3 then None
    else match OperandInstruction(b[0], FromLittleEndian(b[1..3]))
      case Some(i) => Some((i, b[3..]))
      case None => None
  }

  /** The instruction with its operand cut to 16 bits, as `as u16` does. */
  function Truncated(i: Instruction): Instruction
  {
    match i
    case LoadConstant(n) => LoadConstant(n % U16)
    case LoadLocal(n) => LoadLocal(n % U16)
    case StoreLocal(n) => StoreLocal(n % U16)
    case Jump(n) => Jump(n % U16)
    case JumpIfFalse(n) => JumpIfFalse(n % U16)
    case JumpIfTrue(n) => JumpIfTrue(n % U16)
    case Call(n) => Call(n % U16)
    case _ => i
  }

  /**
   * Every instruction `write_instruction_to_file` accepts reads back as itself
   * with its operand truncated to u16; so an operand below 65536 round-trips
   * and a larger one silently changes.
   */
  lemma InstructionRoundTrip(i: Instruction, rest: seq<Byte>)
    requires InstructionBytes(i).Ok?
    ensures DecodeInstruction(InstructionBytes(i).value + rest) == Some((Truncated(i), rest))
    ensures Writable(i) ==> DecodeInstruction(InstructionBytes(i).value + rest) == Some((i, rest))
  {
    var b := InstructionBytes(i).value + rest;
    if OperandOpcode(i).Some? {
      var (op, n) := OperandOpcode(i).value;
      OperandOpcodeInverse(i);
      assert b == [op] + LittleEndian(n % U16, 2) + rest;
      assert b[1..3] == LittleEndian(n % U16, 2) && b[3..] == rest;
      Fits(n % U16, 2);
    } else {
      PlainOpcodeInverse(i);
      assert b[1..] == rest;
    }
  }

  /** An instruction whose operand, if any, fits in 16 bits and that `write_instruction_to_file` accepts. */
  predicate Writable(i: Instruction)
  {
    InstructionBytes(i).Ok? && (OperandOpcode(i).Some? ==> OperandOpcode(i).value.1 < U16)
  }


  /** The plain opcodes read back as their instructions, and are not operand opcodes. */
  lemma PlainOpcodeInverse(i: Instruction)
    requires PlainOpcode(i).Some?
    ensures PlainInstruction(PlainOpcode(i).value) == Some(i)
    ensures OperandOpcode(i).None? && Truncated(i) == i
  {
  }

  /** The operand opcodes read back as their instructions with the given operand, and are not plain opcodes. */
  lemma OperandOpcodeInverse(i: Instruction)
    requires OperandOpcode(i).Some?
    ensures PlainInstruction(OperandOpcode(i).value.0).None?
    ensures OperandInstruction(OperandOpcode(i).value.0, OperandOpcode(i).value.1 % U16) == Some(Truncated(i))
    ensures OperandOpcode(i).value.1 < U16 ==> Truncated(i) == i
  {
  }

  /** An operand of 65536 is written exactly like an operand of 0. */
  lemma OperandTruncationExample()
    ensures InstructionBytes(LoadConstant(U16)) == InstructionBytes(LoadConstant(0))
    ensures DecodeInstruction(InstructionBytes(LoadConstant(U16)).value) == Some((LoadConstant(0), []))
  {
    InstructionRoundTrip(LoadConstant(U16), []);
    var b := InstructionBytes(LoadConstant(U16)).value;
    assert b + [] == b;
  }

  // ---------------------------------------------------------------------
  // Constants
  // ---------------------------------------------------------------------

  const TAG_INTEGER: Byte := 0x01
  const TAG_FLOAT: Byte := 0x02
  const TAG_STRING: Byte := 0x03
  const TAG_BOOLEAN: Byte := 0x04
  const TAG_NULL: Byte := 0x05

  /** The two's-complement u64 pattern of an integer, as `i64::to_le_bytes` stores it. */
  function TwosComplement(i: int): (n: nat)
    ensures n < U64
  {
    i % U64
  }

  /** The i64 an 8-byte two's-complement pattern stands for. */
  function SignedOf(n: nat): int
  {
    if n < U64 / 2 then n else n - U64
  }

  /**
   * `write_constant`: a tag byte, then an Integer's 8 little-endian
   * two's-complement bytes, a Float's 8 IEEE bytes (taken from `floatBytes`,
   * since the model does not represent IEEE bit patterns), a String's UTF-8
   * byte count as a u32 then its bytes, a Boolean as one byte 1 or 0, and
   * nothing more for Null. Every other value is refused.
   */
  function ConstantBytes(v: Value, floatBytes: real -> seq<Byte>): (r: Result<seq<Byte>, Errors.FlowError>)
    ensures r.Ok? <==> v.Integer? || v.Float? || v.Str? || v.Boolean? || v.Null?
    ensures r.Err? ==> r.error == UNSUPPORTED_CONSTANT
  {
    match v
    case Integer(i) => Ok([TAG_INTEGER] + LittleEndian(TwosComplement(i), 8))
    case Float(f) => Ok([TAG_FLOAT] + floatBytes(f))
    case Str(s) => Ok([TAG_STRING] + LittleEndian(|Encode(s)| % U32, 4) + Encode(s))
    case Boolean(b) => Ok([TAG_BOOLEAN] + [if b then 1 else 0])
    case Null => Ok([TAG_NULL])
    case _ => Err(UNSUPPORTED_CONSTANT)
  }

  /**
   * Reads one written constant from the front of the bytes. Float payloads are
   * not decoded (their bit pattern is outside the model), so tag 0x02 reads as None.
   */
  function DecodeConstant(b: seq<Byte>): Option<(Value, seq<Byte>)>
  {
    if |b| == 0 then None
    else if b[0] == TAG_INTEGER then
      if |b| < 9 then None else Some((Integer(SignedOf(FromLittleEndian(b[1..9]))), b[9..]))
    else if b[0] == TAG_STRING then
      if |b| < 5 then None
      else
        var n := FromLittleEndian(b[1..5]);
        if |b| < 5 + n then None
        else match Decode(b[5..5 + n])
          case None => None
          case Some(s) => Some((Str(s), b[5 + n..]))
    else if b[0] == TAG_BOOLEAN then
      if |b| < 2 || b[1] > 1 then None else Some((Boolean(b[1] == 1), b[2..]))
    else if b[0] == TAG_NULL then Some((Null, b[1..]))
    else None
  }

  /** The constants that read back unchanged: i64 integers, strings of fewer than 2^32 bytes, booleans and null. */
  predicate RoundTrips(v: Value)
  {
    (v.Integer? && Ast.IsI64(v.i)) || (v.Str? && |Encode(v.s)| < U32) || v.Boolean? || v.Null?
  }

  /** Every constant that fits its encoding reads back as itself, whatever follows it. */
  lemma ConstantRoundTrip(v: Value, floatBytes: real -> seq<Byte>, rest: seq<Byte>)
    requires RoundTrips(v)
    ensures DecodeConstant(ConstantBytes(v, floatBytes).value + rest) == Some((v, rest))
  {
    var b := ConstantBytes(v, floatBytes).value + rest;
    match v
    case Integer(i) =>
      assert b[0] == TAG_INTEGER && b[1..9] == LittleEndian(TwosComplement(i), 8) && b[9..] == rest;
      IntegerRoundTrip(i);
    case Str(s) =>
      StringRoundTrip(s, rest);
    case Boolean(x) =>
      assert b[2..] == rest;
    case Null =>
      assert b[1..] == rest;
  }

  /** An i64 written as 8 two's-complement bytes reads back as itself. */
  lemma IntegerRoundTrip(i: int)
    requires Ast.IsI64(i)
    ensures SignedOf(FromLittleEndian(LittleEndian(TwosComplement(i), 8))) == i
  {
    LittleEndianRoundTrip(TwosComplement(i), 8);
    Pow256Widths();
    if i < 0 {
      ModUnique(i, U64, -1, i + U64);
    } else {
      ModUnique(i, U64, 0, i);
    }
  }

  lemma StringRoundTrip(s: string, rest: seq<Byte>)
    requires |Encode(s)| < U32
    ensures DecodeConstant([TAG_STRING] + LittleEndian(|Encode(s)| % U32, 4) + Encode(s) + rest) == Some((Str(s), rest))
  {
    var e := Encode(s);
    assert |e| % U32 == |e| by { ModUnique(|e|, U32, 0, |e|); }
    assert FromLittleEndian(LittleEndian(|e|, 4)) == |e| by { Fits(|e|, 4); }
    DecodeEncode(s);
    StringConstantRead(LittleEndian(|e|, 4), e, s, rest);
  }

  /** A string constant is read back from its tag, its 4-byte length and its bytes. */
  lemma StringConstantRead(len: seq<Byte>, e: seq<Byte>, s: string, rest: seq<Byte>)
    requires |len| == 4 && FromLittleEndian(len) == |e| && Decode(e) == Some(s)
    ensures DecodeConstant([TAG_STRING] + len + e + rest) == Some((Str(s), rest))
  {
    hide Decode, FromLittleEndian;
    var b := [TAG_STRING] + len + e + rest;
    assert b == [TAG_STRING] + (len + (e + rest));
    assert b[1..] == len + (e + rest);
    assert b[1..5] == len;
    assert b[5..] == e + rest;
    assert b[5..5 + |e|] == e && b[5 + |e|..] == rest;
  }

  // ---------------------------------------------------------------------
  // Whole files
  // ---------------------------------------------------------------------

  /** The constants written one after another; the first refused constant stops the writing. */
  function ConstantsBytes(cs: seq<Value>, floatBytes: real -> seq<Byte>): (r: Result<seq<Byte>, Errors.FlowError>)
    ensures r.Ok? <==> forall i :: 0 <= i < |cs| ==> ConstantBytes(cs[i], floatBytes).Ok?
  {
    if |cs| == 0 then Ok([])
    else
      match ConstantBytes(cs[0], floatBytes)
      case Err(e) => Err(e)
      case Ok(first) =>
        match ConstantsBytes(cs[1..], floatBytes)
        case Err(e) =>
          assert forall i :: 1 <= i < |cs| ==> cs[i] == cs[1..][i - 1];
          Err(e)
        case Ok(more) =>
          assert forall i :: 1 <= i < |cs| ==> cs[i] == cs[1..][i - 1];
          Ok(first + more)
  }

  /** The instructions written one after another; the first refused instruction stops the writing. */
  function InstructionsBytes(code: seq<Instruction>): (r: Result<seq<Byte>, Errors.FlowError>)
    ensures r.Ok? <==> forall i :: 0 <= i < |code| ==> InstructionBytes(code[i]).Ok?
  {
    if |code| == 0 then Ok([])
    else
      match InstructionBytes(code[0])
      case Err(e) => Err(e)
      case Ok(first) =>
        match InstructionsBytes(code[1..])
        case Err(e) =>
          assert forall i :: 1 <= i < |code| ==> code[i] == code[1..][i - 1];
          Err(e)
        case Ok(more) =>
          assert forall i :: 1 <= i < |code| ==> code[i] == code[1..][i - 1];
          Ok(first + more)
  }

  /** The bytes of a finalized chunk: its header, its constants, then its instructions. */
  function FileBytes(h: Header, constants: seq<Value>, code: seq<Instruction>, floatBytes: real -> seq<Byte>): Result<seq<Byte>, Errors.FlowError>
  {
    var c :- ConstantsBytes(constants, floatBytes);
    var i :- InstructionsBytes(code);
    Ok(HeaderBytes(h) + c + i)
  }

  /** Reads `count` constants. */
  function DecodeConstants(b: seq<Byte>, count: nat): Option<(seq<Value>, seq<Byte>)>
  {
    if count == 0 then Some(([], b))
    else match DecodeConstant(b)
      case None => None
      case Some((v, rest)) =>
        match DecodeConstants(rest, count - 1)
        case None => None
        case Some((vs, after)) => Some(([v] + vs, after))
  }

  /** Reads `count` instructions. */
  function DecodeInstructions(b: seq<Byte>, count: nat): Option<(seq<Instruction>, seq<Byte>)>
  {
    if count == 0 then Some(([], b))
    else match DecodeInstruction(b)
      case None => None
      case Some((i, rest)) =>
        match DecodeInstructions(rest, count - 1)
        case None => None
        case Some((more, after)) => Some(([i] + more, after))
  }

  /**
   * Reads a whole file: the header, then as many constants and instructions as
   * it announces, with nothing left over.
   */
  function ReadFile(b: seq<Byte>): Option<(Header, seq<Value>, seq<Instruction>)>
  {
    match ReadHeader(b)
    case Err(_) => None
    case Ok((h, rest)) =>
      match DecodeConstants(rest, h.constantPoolSize)
      case None => None
      case Some((cs, rest2)) =>
        match DecodeInstructions(rest2, h.codeSize)
        case Some((code, after)) => if after == [] then Some((h, cs, code)) else None
        case None => None
  }

  lemma {:induction false} ConstantsRoundTrip(cs: seq<Value>, floatBytes: real -> seq<Byte>, rest: seq<Byte>)
    requires forall i :: 0 <= i < |cs| ==> RoundTrips(cs[i])
    ensures ConstantsBytes(cs, floatBytes).Ok?
    ensures DecodeConstants(ConstantsBytes(cs, floatBytes).value + rest, |cs|) == Some((cs, rest))
    decreases |cs|
  {
    if |cs| > 0 {
      var tail := cs[1..];
      assert forall i :: 0 <= i < |tail| ==> tail[i] == cs[i + 1];
      ConstantsRoundTrip(tail, floatBytes, rest);
      var more := ConstantsBytes(tail, floatBytes).value;
      assert RoundTrips(cs[0]);
      var first := ConstantBytes(cs[0], floatBytes).value;
      assert ConstantsBytes(cs, floatBytes).value == first + more by { ConstantsBytesCons(cs, floatBytes); }
      assert DecodeConstant(first + (more + rest)) == Some((cs[0], more + rest)) by {
        ConstantRoundTrip(cs[0], floatBytes, more + rest);
      }
      DecodeConstantsCons(first + (more + rest), |tail|, cs[0], more + rest, tail, rest);
      Associative(first, more, rest);
      assert [cs[0]] + tail == cs;
    } else {
      assert ConstantsBytes(cs, floatBytes).value + rest == rest;
    }
  }

  lemma ConstantsBytesCons(cs: seq<Value>, floatBytes: real -> seq<Byte>)
    requires |cs| > 0 && ConstantsBytes(cs, floatBytes).Ok?
    ensures ConstantsBytes(cs, floatBytes).value ==
      ConstantBytes(cs[0], floatBytes).value + ConstantsBytes(cs[1..], floatBytes).value
  {
  }

  lemma DecodeConstantsCons(b: seq<Byte>, n: nat, v: Value, after: seq<Byte>, tail: seq<Value>, rest: seq<Byte>)
    requires DecodeConstant(b) == Some((v, after))
    requires DecodeConstants(after, n) == Some((tail, rest))
    ensures DecodeConstants(b, n + 1) == Some(([v] + tail, rest))
  {
  }

  /** Every instruction of the sequence is Writable, stated element by element from the front. */
  predicate AllWritable(code: seq<Instruction>)
  {
    |code| == 0 || (Writable(code[0]) && AllWritable(code[1..]))
  }

  lemma {:induction false} AllWritableEach(code: seq<Instruction>)
    requires forall i :: 0 <= i < |code| ==> Writable(code[i])
    ensures AllWritable(code)
    decreases |code|
  {
    if |code| > 0 {
      var tail := code[1..];
      assert forall i :: 0 <= i < |tail| ==> tail[i] == code[i + 1];
      AllWritableEach(tail);
    }
  }

  lemma {:induction false} InstructionsRoundTrip(code: seq<Instruction>, rest: seq<Byte>)
    requires AllWritable(code)
    ensures InstructionsBytes(code).Ok?
    ensures DecodeInstructions(InstructionsBytes(code).value + rest, |code|) == Some((code, rest))
    decreases |code|
  {
    if |code| > 0 {
      var tail := code[1..];
      InstructionsRoundTrip(tail, rest);
      var more := InstructionsBytes(tail).value;
      var first := InstructionBytes(code[0]).value;
      assert InstructionsBytes(code).value == first + more by { InstructionsBytesCons(code); }
      assert DecodeInstruction(first + (more + rest)) == Some((code[0], more + rest)) by {
        InstructionRoundTrip(code[0], more + rest);
      }
      DecodeInstructionsCons(first + (more + rest), |tail|, code[0], more + rest, tail, rest);
      Associative(first, more, rest);
      assert [code[0]] + tail == code;
    } else {
      assert InstructionsBytes(code).value + rest == rest;
    }
  }

  lemma InstructionsBytesCons(code: seq<Instruction>)
    requires |code| > 0 && InstructionsBytes(code).Ok?
    ensures InstructionsBytes(code).value == InstructionBytes(code[0]).value + InstructionsBytes(code[1..]).value
  {
  }

  lemma DecodeInstructionsCons(b: seq<Byte>, n: nat, i: Instruction, after: seq<Byte>, tail: seq<Instruction>, rest: seq<Byte>)
    requires DecodeInstruction(b) == Some((i, after))
    requires DecodeInstructions(after, n) == Some((tail, rest))
    ensures DecodeInstructions(b, n + 1) == Some(([i] + tail, rest))
  {
  }

  /**
   * A file written from a header that counts its constants and instructions
   * reads back as that header, those constants and those instructions, when
   * every constant and instruction fits its encoding.
   */
  lemma FileRoundTrip(h: Header, constants: seq<Value>, code: seq<Instruction>, floatBytes: real -> seq<Byte>)
    requires HeaderFits(h) && h.magicNumber == MAGIC_NUMBER
    requires h.constantPoolSize == |constants| && h.codeSize == |code|
    requires forall i :: 0 <= i < |constants| ==> RoundTrips(constants[i])
    requires forall i :: 0 <= i < |code| ==> Writable(code[i])
    ensures FileBytes(h, constants, code, floatBytes).Ok?
    ensures ReadFile(FileBytes(h, constants, code, floatBytes).value) == Some((h, constants, code))
  {
    AllWritableEach(code);
    InstructionsRoundTrip(code, []);
    ConstantsRoundTrip(constants, floatBytes, InstructionsBytes(code).value);
    var c := ConstantsBytes(constants, floatBytes).value;
    var i := InstructionsBytes(code).value;
    assert HeaderBytes(h) + c + i == HeaderBytes(h) + (c + i);
    HeaderRoundTrip(h, c + i);
    assert i + [] == i;
  }

  // ---------------------------------------------------------------------
  // Chunk
  // ---------------------------------------------------------------------

  /** f64::EPSILON, 2^-52. */
  const EPSILON: real := 1.0 / 4503599627370496.0

  function Abs(x: real): real { if x < 0.0 then -x else x }

  /**
   * `Chunk::values_equal`, which decides constant-pool sharing: equal Integers,
   * Strings or Booleans, Floats closer than f64::EPSILON, and Null with Null.
   */
  predicate PoolEqual(a: Value, b: Value)
  {
    match (a, b)
    case (Integer(x), Integer(y)) => x == y
    case (Float(x), Float(y)) => Abs(x - y) < EPSILON
    case (Str(x), Str(y)) => x == y
    case (Boolean(x), Boolean(y)) => x == y
    case (Null, Null) => true
    case _ => false
  }

  /** The kinds of value the pool ever shares. */
  predicate Shareable(v: Value)
  {
    v.Integer? || v.Float? || v.Str? || v.Boolean? || v.Null?
  }

  /** The first pool position holding a value the pool treats as equal to `v`. */
  function FirstPoolMatch(pool: seq<Value>, v: Value): (r: Option<nat>)
    ensures r.Some? ==> r.value < |pool| && PoolEqual(pool[r.value], v)
    ensures r.Some? ==> forall j :: 0 <= j < r.value ==> !PoolEqual(pool[j], v)
    ensures r.None? <==> forall j :: 0 <= j < |pool| ==> !PoolEqual(pool[j], v)
    ensures !Shareable(v) ==> r.None?
  {
    if |pool| == 0 then None
    else if PoolEqual(pool[0], v) then Some(0)
    else match FirstPoolMatch(pool[1..], v)
      case None => None
      case Some(k) => Some(k + 1)
  }

  /** A position holding an equal value, with none before it, is the first match. */
  lemma FirstPoolMatchAt(pool: seq<Value>, v: Value, i: nat)
    requires i < |pool| && PoolEqual(pool[i], v)
    requires forall j :: 0 <= j < i ==> !PoolEqual(pool[j], v)
    ensures FirstPoolMatch(pool, v) == Some(i)
  {
  }

  class Chunk {
    var instructions: seq<Instruction>
    var constants: seq<Value>
    var lines: seq<nat>
    var header: Option<Header>

    constructor()
      ensures instructions == [] && constants == [] && lines == [] && header == None
    {
      instructions := [];
      constants := [];
      lines := [];
      header := None;
    }

    /** `write_instruction`: the instruction and its line are appended together. */
    method WriteInstruction(instruction: Instruction, line: nat)
      modifies this
      ensures instructions == old(instructions) + [instruction] && lines == old(lines) + [line]
      ensures constants == old(constants) && header == old(header)
      ensures |old(instructions)| == |old(lines)| ==> |instructions| == |lines|
    {
      instructions := instructions + [instruction];
      lines := lines + [line];
    }

    /**
     * `add_constant`: the index of the first pooled value equal to `value`, or,
     * when there is none, `value` appended and its new index. Values of any
     * other kind than Integer, Float, String, Boolean and Null are always appended.
     */
    method AddConstant(value: Value) returns (index: nat)
      modifies this
      ensures instructions == old(instructions) && lines == old(lines) && header == old(header)
      ensures index < |constants|
      ensures FirstPoolMatch(old(constants), value).Some? ==>
        constants == old(constants) && index == FirstPoolMatch(old(constants), value).value
      ensures FirstPoolMatch(old(constants), value).None? ==>
        constants == old(constants) + [value] && index == |old(constants)|
      ensures !Shareable(value) ==> constants == old(constants) + [value]
    {
      var i := 0;
      while i < |constants|
        invariant 0 <= i <= |constants|
        invariant forall j :: 0 <= j < i ==> !PoolEqual(constants[j], value)
      {
        if PoolEqual(constants[i], value) {
          assert FirstPoolMatch(constants, value) == Some(i) by { FirstPoolMatchAt(constants, value, i); }
          return i;
        }
        i := i + 1;
      }
      constants := constants + [value];
      index := |constants| - 1;
    }

    /** `finalize`: a header counting the constants and instructions (each cut to u32), entry point 0. */
    method Finalize()
      modifies this
      ensures header == Some(NewHeader(|constants| % U32, |instructions| % U32, 0))
      ensures instructions == old(instructions) && constants == old(constants) && lines == old(lines)
    {
      header := Some(NewHeader(|constants| % U32, |instructions| % U32, 0));
    }

    /**
     * `write_to_file`: an unfinalized chunk is refused; otherwise the header,
     * the constants and the instructions are written in that order.
     */
    function WriteToFile(floatBytes: real -> seq<Byte>): (r: Result<seq<Byte>, Errors.FlowError>)
      reads this
      ensures header.None? ==> r == Err(Errors.RuntimeErrorNoLine("Chunk not finalized"))
      ensures header.Some? ==> r == FileBytes(header.value, constants, instructions, floatBytes)
    {
      if header.None? then Err(Errors.RuntimeErrorNoLine("Chunk not finalized"))
      else FileBytes(header.value, constants, instructions, floatBytes)
    }
  }
}
