# FlowLang core in Dafny

A model of the core of FlowLang, a small dynamically typed scripting language. The implementation is in Rust, and its code formatter and benchmark are in Python. The model covers:

- the lexer and the recursive-descent parser;
- the tree-walking interpreter and its value model;
- the two bytecode compilers and the bytecode virtual machine with its binary chunk format;
- the optimising and specialising executors, the JIT's bookkeeping and the memory manager;
- the standard library: its core builtins and the `json`, `crypto` and `net` modules;
- the `flowfmt` formatter and the benchmark programs.

Each Dafny file models one source file or one part of it:

| file | module | models |
|---|---|---|
| `bigint.dfy` | `BigNum` | `src/bigint.rs`: signed numbers in base-10⁹ limbs, with normalisation, arithmetic, comparison, display and `from_string` |
| `values.dfy` | `Values` | `src/value.rs`: values, `FlowArray`, `FlowObject`, the scoped `Environment` and the display of values |
| `ast.dfy`, `errors.dfy` | `Ast`, `Errors` | `src/ast.rs` and `src/error.rs`: the syntax tree, literal text and the error kinds with their texts |
| `strings.dfy`, `utf8.dfy`, `radix.dfy`, `wrappers.dfy` | `Strings`, `Utf8`, `Radix`, `Wrappers` | shared pieces: string order and decimal text, UTF-8 encoding, hexadecimal digits, `Option` and `Result` |
| `lexer.dfy`, `lexer_properties.dfy` | `Lexing`, `LexingProperties` | `src/lexer.rs`: specification functions, the `Lexer` class proved against them, and lemmas about the tokens |
| `parser.dfy`, `parser_properties.dfy` | `Parsing`, `ParsingProperties` | `src/parser.rs`: the grammar as functions, the `Parser` class proved against them, and lemmas on precedence, associativity and the source's `primary` |
| `interpreter.dfy`, `interpreter_properties.dfy` | `Interpreter`, `InterpreterProperties` | `src/interpreter.rs`: evaluation and execution as functions of a run state, the `Interpreter` class, and lemmas about the language's behaviour |
| `stdlib.dfy`, `stdlib_properties.dfy` | `StdLib`, `StdLibProperties` | `src/stdlib.rs`: the legacy builtin table and the dispatch to the extended registry |
| `bytecode.dfy` | `Bytecode` | `src/bytecode.rs`: instructions, chunks and the binary chunk format with its round trips |
| `vm.dfy`, `vm_properties.dfy` | `Vm`, `VmProperties` | `src/bytecode.rs`: the `VirtualMachine`, one step as a function and its `run` loop |
| `bytecode_compiler.dfy` | `BytecodeCompiling` | `src/bytecode.rs`: the second compiler, `BytecodeCompiler` |
| `compiler.dfy`, `compiler_properties.dfy`, `compiler_vm.dfy` | `Compiler`, `CompilerProperties`, `CompiledRuns` | `src/compiler.rs`: the compiler class and its functions, the well-formedness of its output, and runs of compiled programs on the VM |
| `optimized_vm.dfy` | `OptimizedVm` | `src/optimized_vm.rs`: lowering, the peephole pass, call-site caches and the optimised run loop |
| `specialized.dfy` | `Specialized` | `src/specialized_instructions.rs`: the register executor and the instruction optimiser |
| `jit.dfy` | `Jit` | `src/jit.rs`: profiling thresholds, the optimisation level, executable-memory accounting and the adaptive strategy ladder |
| `memory.dfy` | `Memory` | `src/memory.rs`: the object pool, the value interner, generations, reference counts, the layout optimiser and the manager's counters |
| `json.dfy`, `json_properties.dfy` | `Json`, `JsonProperties` | `src/stdlib_modules/json.rs`: the reader, the writer and their round trip |
| `crypto.dfy`, `crypto_random.dfy` | `Crypto`, `CryptoRandom` | `src/stdlib_modules/crypto.rs`: hex, base64, the digests and the seeded random builtins |
| `net.dfy` | `Net` | `src/stdlib_modules/net.rs`: `url_encode` and `url_decode` |
| `formatter.dfy` | `Formatting` | `releases/flowlang-0.1.0-beta/editor-support/formatter/flowfmt.py`: the `FlowFormatter` class |
| `benchmark.dfy` | `Benchmark` | `benchmark.py`: the four benchmark functions |

Code that works step by step in the source is a class or a method here: the lexer, the parser, the interpreter, the compilers, the virtual machines, the JSON reader, the random generator, the formatter and the memory structures. Each such method is proved to end in the state a specification function gives, and the lemmas are stated about those functions.

Several proved facts show how the source's parts fit together, and where they do not:

- `compiler.rs` emits one `Pop` on each branch of an `if`, but the VM's `JumpIfFalse` already pops the condition, so an `if` with an empty branch underflows the stack (`CompiledRuns.EmptyIfUnderflows`).
- A compiled property access pushes the property name on top of the receiver, and `GetProperty` then takes the name as its receiver, so every compiled property access fails (`CompiledRuns.PropertyAccessFails`).
- A compiled `return` ends in a `Return` instruction, which the VM's `run` has no arm for (`CompiledRuns.ReturnRejected`).
- The second compiler writes relative jump offsets, which the VM reads as absolute, so `if false then end` loops for ever (`CompiledRuns.RelativeIfLoopsForever`).

## Model

| member | source | states |
|---|---|---|
| BigNum.New | src/bigint.rs:17-22 | the fresh number is normalised and worth zero |
| BigNum.IsZeroMeaning | src/bigint.rs:92-94 | on canonical limbs, `is_zero` holds exactly when the magnitude is zero |
| BigNum.FromIntOfValue | src/bigint.rs:96-104 | a normalised number is the canonical representation of its own value |
| BigNum.NormalizedUnique | src/bigint.rs:96-104 | two normalised numbers with the same value are identical (the representation is unique) |
| BigNum.FromI64 | src/bigint.rs:24-43 | the base-10^9 limbs of a 64-bit value are its canonical, normalised representation |
| BigNum.Normalize | src/bigint.rs:96-104 | trailing zero limbs are dropped keeping at least one, the magnitude is unchanged, a zero result is never negative, and a well-formed input maps to the canonical form of its value |
| BigNum.AddLimbs | src/bigint.rs:106-130 | schoolbook addition with carry: the limbs stay below 10^9 and the magnitude is the sum |
| BigNum.AddMagnitude | src/bigint.rs:106-130 | the result is the non-negative canonical number whose value is the sum of the magnitudes |
| BigNum.SubLimbs | src/bigint.rs:132-162 | schoolbook subtraction with borrow of a smaller magnitude: the magnitude is the difference |
| BigNum.SubMagnitude | src/bigint.rs:132-162 | the result is the canonical number worth the difference of the magnitudes, negative when the second is larger |
| BigNum.CmpMagnitude | src/bigint.rs:164-177 | the limb count decides first; on canonical limbs the ordering is that of the magnitudes |
| BigNum.Add | src/bigint.rs:180-195 | the sum's value is the sum of the values, and canonical when either operand is normalised |
| BigNum.Sub | src/bigint.rs:197-205 | the difference's value is the difference of the values, canonical when the left operand is normalised |
| BigNum.MulRow | src/bigint.rs:217-227 | one row of long multiplication adds x·b·10^(9i) to the accumulator and keeps every limb below 10^9 |
| BigNum.Mul | src/bigint.rs:207-236 | the product is the canonical number worth the product of the values, with the sign rule of multiplication |
| BigNum.Compare | src/bigint.rs:255-269 | on normalised numbers the ordering is that of their integer values |
| BigNum.ToI64 | src/bigint.rs:74-90 | more than two limbs give None; otherwise the signed value when the magnitude fits in i64, None when it does not |
| BigNum.ToI64TwoLimbs | src/bigint.rs:74-90 | two limbs never exceed 10^18, so the u64 accumulation cannot overflow |
| BigNum.DisplayIsDecimal | src/bigint.rs:238-253 | the text of a normalised number is the decimal numeral of its value (inner limbs padded to nine digits) |
| BigNum.ChunkLimbs | src/bigint.rs:59-63 | splitting the digits into nine-digit chunks from the right gives limbs whose magnitude is the numeral's value |
| BigNum.FromString | src/bigint.rs:45-72 | as written: empty text and non-digit text give the two error messages, a valid numeral gives its value times 10^9 |
| BigNum.FromStringMisreads | src/bigint.rs:57-63 | as written, every non-zero numeral is read as a different number, 10^9 times too large |
| BigNum.FromStringFiveExample | src/bigint.rs:57-63 | as written, "5" is read as 5000000000 |
| BigNum.FromStringFixed | src/bigint.rs:45-72 | corrected: the two error messages as written, and a valid numeral gives exactly its value |
| BigNum.NatToStringParses | src/bigint.rs:238-253 | the decimal text of a natural number is a valid numeral worth that number |
| BigNum.IntToStringRoundTrip | src/bigint.rs:238-253 | printing then parsing an integer gives it back, sign included |
| BigNum.DisplayRoundTrip | src/bigint.rs:45-72 | the corrected parser reads back exactly the number that was displayed |
| Values.TypeNameDistinguishesKinds | src/value.rs:274-288 | two values have the same type name exactly when they are of the same kind: the names tell every variant apart |
| Values.ToBigInt | src/value.rs:290-296 | integers and big integers convert (an integer to the normalised big integer of the same value), every other kind gives None |
| Values.PromoteToBigInt | src/value.rs:298-303 | an integer becomes the big integer of the same value; every other value is returned unchanged |
| Values.ValueText | src/value.rs:306-343 | arrays print bracketed, objects braced, strings as their bare text |
| Values.ItemsTextAppend | src/value.rs:315-325 | appending an element appends ", " and its text to the joined items |
| Values.IntegerTextRoundTrip | src/value.rs:310 | the text of an integer is a decimal numeral that reads back as the same integer |
| Values.TruthyMeansNonZero | src/interpreter.rs:8-22 | truthiness per kind: non-zero numbers, non-empty strings, arrays and objects, the boolean itself, Null false, callables true |
| Values.CompareForSortFlip | src/value.rs:114-124 | the sort comparator is antisymmetric: swapping the operands flips the ordering |
| Values.SortLeTransitive | src/value.rs:114-124 | within one kind the comparator's order is transitive |
| Values.CompareEqualMeansEqual | src/value.rs:114-124 | within one kind the comparator says Equal only for equal values |
| Values.FirstIndex | src/value.rs:106-108 | the first position holding the value, None exactly when it is absent |
| Values.FlowArray.constructor | src/value.rs:65-67 | the array holds exactly the given values |
| Values.FlowArray.Push | src/value.rs:69-71 | the value is appended at the end |
| Values.FlowArray.Pop | src/value.rs:73-75 | None on an empty array; otherwise the last element is removed and returned, the rest untouched |
| Values.FlowArray.Get | src/value.rs:77-79 | Some exactly for an index below the length, holding the element there |
| Values.FlowArray.Set | src/value.rs:81-88 | an index in range replaces that one element; out of range gives the exact error text and leaves the array unchanged |
| Values.FlowArray.Clear | src/value.rs:98-100 | the array is empty afterwards |
| Values.FlowArray.IndexOf | src/value.rs:106-108 | the index of the first equal element, None when no element is equal |
| Values.FlowArray.Contains | src/value.rs:102-104 | true exactly when some element is equal, i.e. when `index_of` finds one |
| Values.FlowArray.Reverse | src/value.rs:110-112 | element k moves to position n-1-k; the same multiset of elements |
| Values.FlowArray.Sort | src/value.rs:114-124 | the elements are permuted, and an array of one kind ends up sorted by the comparator |
| Values.SortedPermutationUnique | src/value.rs:114-124 | two sorted arrangements of the same elements of one kind are equal, so the sorted result is determined |
| Values.FlowArray.Slice | src/value.rs:126-137 | the result is the slice computed by `SliceOf` on the current elements |
| Values.SliceOf | src/value.rs:126-137 | start > end and start > length give their two error texts; otherwise the elements from start up to min(end, length), in order |
| Values.FlowObject.constructor | src/value.rs:153-155 | the object holds exactly the given properties |
| Values.FlowObject.Get | src/value.rs:157-159 | Some exactly for a present key, holding its value |
| Values.FlowObject.Set | src/value.rs:161-163 | the key is bound to the value, every other key untouched |
| Values.FlowObject.Remove | src/value.rs:165-167 | returns the removed value (None for an absent key) and the key is gone, nothing else changes |
| Values.FlowObject.ContainsKey | src/value.rs:169-171 | true exactly when `get` finds the key |
| Values.FlowObject.Merge | src/value.rs:193-197 | the keys are the union; the other object's values win on shared keys, the rest keep theirs |
| Values.KeyValues | src/value.rs:173-175 | one string per key, each naming a key and every key named |
| Values.PropertyValues | src/value.rs:177-179 | one entry per key, each the value of some key |
| Values.LookupIsInnermost | src/value.rs:225-243 | variable and function lookup returns the binding of the innermost scope that has the name, None when no scope has it |
| Values.AssignSpec | src/value.rs:245-254 | assignment fails with "Undefined variable: <name>" exactly when no scope has the name; otherwise the name now reads the new value and every other name reads as before |
| Values.PushPopRestores | src/value.rs:256-270 | popping after pushing restores the environment, popping the outermost scope does nothing, and pushing hides no binding |
| Values.Environment.constructor | src/value.rs:201-207 | a scope with no variables, no functions and no parent |
| Values.Environment.WithParent | src/value.rs:209-215 | an empty scope whose parent is the given environment |
| Values.Environment.DefineVariable | src/value.rs:217-219 | the variable is bound in the current scope and reads back the value |
| Values.Environment.DefineFunction | src/value.rs:221-223 | the function is bound in the current scope and reads back the value |
| Values.Environment.SetVariable | src/value.rs:245-254 | the new state is the assignment's result; on the error path the error text is returned and nothing changes |
| Values.Environment.PushScope | src/value.rs:256-264 | the current scope becomes the parent of a fresh empty one |
| Values.Environment.PopScope | src/value.rs:266-270 | the parent becomes current; at the outermost scope nothing changes |
| Ast.ParseNumeral | src/lexer.rs:315 | `str::parse::<i64>` accepts every decimal numeral whose value fits in an i64, with that value |
| Ast.ParseI64RoundTrip | src/lexer.rs:315 | the decimal text of every i64 parses back to it |
| Ast.BinaryOperatorText | src/ast.rs:135-154 | every operator prints as one to three characters |
| Ast.BinaryOperatorTextRoundTrip | src/ast.rs:135-154 | the printed operators are distinct: the text identifies the operator |
| Ast.UnaryOperatorTextShared | src/ast.rs:156-164 | unary minus prints like binary subtraction, while `!` is no binary operator |
| Ast.FloatText | src/ast.rs:172 | the text of a float is never empty |
| Ast.LiteralText | src/ast.rs:166-199 | string literals print quoted, arrays bracketed, objects braced |
| Ast.ItemsTextAppend | src/ast.rs:175-184 | one more element appends ", " and its text to the joined items |
| Ast.IntegerLiteralRoundTrip | src/ast.rs:170 | an integer literal prints as a numeral that reads back as the same integer |
| Ast.BigIntegerLiteralRoundTrip | src/ast.rs:171 | a big integer literal prints as a numeral that reads back as the same big integer |
| Ast.LiteralTextAmbiguous | src/ast.rs:169-184 | string elements are printed without escaping, so two different arrays can print the same |
| Errors.KindOfPrefixed | src/error.rs:5-42 | the error kind read off a message depends only on its fixed prefix |
| Errors.ErrorTextIdentifiesKind | src/error.rs:5-42 | every error's display text identifies the variant that produced it |
| Errors.LocatedErrorIdentified | src/error.rs:6-16 | the located lexer, parser and runtime messages identify their variant |
| Errors.CompilationErrorShape | src/error.rs:105-110 | a compilation error is a runtime error at line 0 whose message starts "Compilation error: " |
| Utf8.EncodeChar | src/stdlib_modules/crypto.rs:31 | `as_bytes` encodes a character in one to four bytes, one exactly for ASCII |
| Utf8.DecodeEncodeChar | src/stdlib_modules/crypto.rs:124-126 | decoding the bytes of an encoded character gives it back with its length, whatever follows |
| Utf8.DecodeEncode | src/stdlib_modules/crypto.rs:124-126 | `String::from_utf8` accepts every byte string `as_bytes` produces and returns the original text |
| Utf8.EncodeAppend | src/stdlib_modules/crypto.rs:97 | the encoding of a concatenation is the concatenation of the encodings |
| Utf8.EncodeAscii | src/stdlib_modules/crypto.rs:97 | ASCII text encodes as one byte per character, the character's code |
| Radix.HexValue | src/stdlib_modules/crypto.rs:120 | a character has a hexadecimal value exactly when it is a hex digit of either case, and that value is below 16 |
| Radix.LowerHex | src/stdlib_modules/crypto.rs:98 | the lower-case digit printed for a nibble reads back as that nibble |
| Radix.UpperHex | src/stdlib_modules/net.rs:220 | the upper-case digit for a nibble reads back as that nibble |
| Radix.SixteenDigits | src/stdlib_modules/crypto.rs:199 | sixteen hex digits cover exactly the 64-bit range |
| Radix.HexNumber | src/stdlib_modules/crypto.rs:120 | the value of n hex digits is below 16^n |
| Radix.OneDigit | src/stdlib_modules/crypto.rs:120 | `from_str_radix` of one character is its digit value, an error for a non-digit |
| Radix.TwoDigits | src/stdlib_modules/net.rs:220 | `from_str_radix` accepts two characters exactly when both are hex digits or the first is `+`, with the value 16·hi + lo |
| Radix.HexDigits | src/stdlib_modules/crypto.rs:199 | zero-padded fixed-width hex (`{:016x}`, `{:02x}`) prints exactly n lower-case digits |
| Radix.HexDigitsValue | src/stdlib_modules/crypto.rs:199 | the padded hex text reads back as the number printed |
| Radix.HexDigitsInjective | src/stdlib_modules/crypto.rs:199 | two numbers below 16^n print differently |
| Strings.CompareStrings | src/value.rs:119 | `String::cmp` says Equal exactly for equal strings |
| Strings.CompareStringsFlip | src/value.rs:119 | swapping the strings flips the ordering |
| Strings.StrLessTransitive | src/value.rs:119 | the lexicographic order is transitive |
| Strings.StrLessTotal | src/value.rs:119 | the lexicographic order is irreflexive and total on distinct strings |
| Strings.LeastUnique | src/value.rs:119 | a set of strings has at most one least element |
| Strings.SortedStrings | src/value.rs:173-175 | the keys of a map listed once each, in strictly increasing order (the model's fixed stand-in for hash-map iteration order) |
| Bytecode.LittleEndianRoundTrip | src/bytecode.rs:54-61 | reading back k little-endian bytes gives the number modulo 256^k (`to_le_bytes` of a narrowing cast) |
| Bytecode.FromLittleEndianRoundTrip | src/bytecode.rs:64-88 | `from_le_bytes` followed by `to_le_bytes` gives the same bytes |
| Bytecode.Fits | src/bytecode.rs:54-61 | a u16 or u32 field written in two or four bytes reads back unchanged |
| Bytecode.NewHeader | src/bytecode.rs:43-52 | the header carries the magic number 0x464C4F57, version 1.0 and the three given sizes |
| Bytecode.HeaderBytes | src/bytecode.rs:54-61 | the header is written as exactly 20 bytes |
| Bytecode.HeaderSlices | src/bytecode.rs:54-61 | magic, major, minor, pool size, code size and entry point occupy bytes 0-4, 4-6, 6-8, 8-12, 12-16 and 16-20, little-endian |
| Bytecode.HeaderRoundTrip | src/bytecode.rs:54-97 | `read_from` reads back every header `write_to` wrote, leaving the rest of the input |
| Bytecode.WrongMagicRejected | src/bytecode.rs:64-71 | a header with another magic number is refused with "Invalid bytecode file: wrong magic number" |
| Bytecode.ReadHeaderAccepts | src/bytecode.rs:64-97 | reading succeeds exactly on input of at least 20 bytes beginning with the magic number, and the header read rewrites to those bytes |
| Bytecode.InstructionBytes | src/bytecode.rs:273-332 | exactly the listed instructions serialise; every other one fails with "Unsupported instruction for serialization" |
| Bytecode.InstructionRoundTrip | src/bytecode.rs:273-332 | the bytes of an instruction decode back to it, its operand taken modulo 2^16 by the `as u16` cast |
| Bytecode.PlainOpcodeInverse | src/bytecode.rs:289-325 | each operand-less opcode byte names exactly one instruction |
| Bytecode.OperandOpcodeInverse | src/bytecode.rs:275-317 | each operand opcode byte names one instruction, and its u16 operand is the original index modulo 2^16 |
| Bytecode.OperandTruncationExample | src/bytecode.rs:276-277 | LoadConstant(65536) is written exactly like LoadConstant(0) |
| Bytecode.TwosComplement | src/bytecode.rs:247 | the 64-bit two's-complement pattern of an integer lies below 2^64 |
| Bytecode.ConstantBytes | src/bytecode.rs:243-271 | integers, floats, strings, booleans and Null serialise; any other value fails with "Unsupported constant type for serialization" |
| Bytecode.ConstantRoundTrip | src/bytecode.rs:243-271 | every serialisable constant decodes back from its tagged bytes |
| Bytecode.IntegerRoundTrip | src/bytecode.rs:245-248 | an i64 written as eight two's-complement bytes reads back as the same signed value |
| Bytecode.StringRoundTrip | src/bytecode.rs:253-258 | a string written as its u32 byte length and UTF-8 bytes reads back as the same string |
| Bytecode.ConstantsBytes | src/bytecode.rs:230-232 | the pool serialises exactly when every constant does |
| Bytecode.InstructionsBytes | src/bytecode.rs:235-237 | the code serialises exactly when every instruction does |
| Bytecode.ConstantsRoundTrip | src/bytecode.rs:230-232 | a serialisable pool decodes back, constant by constant, in order |
| Bytecode.InstructionsRoundTrip | src/bytecode.rs:235-237 | writable code decodes back, instruction by instruction, in order |
| Bytecode.FileRoundTrip | src/bytecode.rs:223-240 | a whole file (header, pool, code) reads back as the header, constants and code written |
| Bytecode.FirstPoolMatch | src/bytecode.rs:192-212 | the first pool entry `values_equal` to the value, None exactly when there is none; only integers, floats, strings, booleans and Null are ever shared |
| Bytecode.Chunk.constructor | src/bytecode.rs:178-185 | empty code, pool and line table, no header |
| Bytecode.Chunk.WriteInstruction | src/bytecode.rs:187-190 | the instruction and its line are appended, keeping the two tables the same length; nothing else changes |
| Bytecode.Chunk.AddConstant | src/bytecode.rs:192-201 | an equal constant already in the pool is reused at its first index; otherwise the value is appended and its new index returned |
| Bytecode.Chunk.Finalize | src/bytecode.rs:214-221 | the header records the pool and code sizes (cast to u32) and entry point 0 |
| Bytecode.Chunk.WriteToFile | src/bytecode.rs:223-240 | "Chunk not finalized" without a header; otherwise the file bytes of the header, pool and code |
| Vm.Big | src/bytecode.rs:1011-1015 | a promoted result is the normalised big integer of the exact value |
| Vm.BigToI64 | src/bytecode.rs:1026-1039 | a big integer converts to an i64 only with its own value |
| Vm.TruncRemSpec | src/bytecode.rs:1171-1174 | Rust's `%` on integers: dividend = quotient·divisor + remainder, the remainder smaller than the divisor in size and carrying the dividend's sign |
| Vm.FloatAsI64 | src/bytecode.rs:1740 | the `as i64` cast of a float always lands in the i64 range |
| Vm.Builtin | src/bytecode.rs:1676-1767 | every builtin refuses a call without exactly one argument with "<name>() takes exactly 1 argument"; only `show` and `print` write output, and output is only ever appended |
| Vm.ExecVariable | src/bytecode.rs:540-591 | constant, local and global loads and stores leave the instruction pointer, output and frame count alone, and touch locals or globals only for the matching store |
| Vm.ExecBinary | src/bytecode.rs:592-692 | arithmetic and comparison change only the stack |
| Vm.ExecSimple | src/bytecode.rs:693-740 | `!`, negation, jumps, print and pop keep frames and globals and only append output; only the jumps move the instruction pointer |
| Vm.ExecBuiltin | src/bytecode.rs:741-766 | a builtin call changes only the stack and appends output |
| Vm.ExecArray | src/bytecode.rs:767-829 | array creation, indexing and index assignment change only the stack |
| Vm.ExecObject | src/bytecode.rs:781-864 | object creation and property access change only the stack |
| Vm.ExecCall | src/bytecode.rs:883-955 | a call changes only the stack |
| Vm.Execute | src/bytecode.rs:539-970 | one instruction keeps the frame count, only appends output, and moves the instruction pointer only by a jump |
| Vm.ExecStopsAtEnd | src/bytecode.rs:532-534 | the loop stops without error once the instruction pointer passes the last instruction |
| Vm.ExecFetches | src/bytecode.rs:536-537 | each cycle fetches the instruction at the instruction pointer, advances the instruction pointer, executes, and continues only while the status says so |
| Vm.VirtualMachine.constructor | src/bytecode.rs:386-408 | empty stack, frames, globals and output, pointer 0, no chunks |
| Vm.VirtualMachine.LoadChunk | src/bytecode.rs:410-416 | the chunk is appended; the first chunk loaded becomes current with the instruction pointer reset |
| Vm.VirtualMachine.PushValue | src/bytecode.rs:540-546 | the value goes on top of the stack, nothing else changes |
| Vm.VirtualMachine.PopValue | src/bytecode.rs:596-597 | returns the top value and removes it |
| Vm.VirtualMachine.PopMany | src/bytecode.rs:755-758 | removes the top `count` values and returns them in push order |
| Vm.VirtualMachine.ExecuteVariable | src/bytecode.rs:540-591 | the new machine state and status are those of `ExecVariable` |
| Vm.VirtualMachine.ExecuteBinary | src/bytecode.rs:592-692 | the new machine state and status are those of `ExecBinary` |
| Vm.VirtualMachine.ExecuteSimple | src/bytecode.rs:693-740 | the new machine state and status are those of `ExecSimple` |
| Vm.VirtualMachine.ExecuteBuiltin | src/bytecode.rs:741-766 | the new machine state and status are those of `ExecBuiltin` |
| Vm.VirtualMachine.ExecuteNewArray | src/bytecode.rs:767-780 | the new machine state and status are those of `ExecArray` for NewArray |
| Vm.VirtualMachine.ExecuteGetIndex | src/bytecode.rs:786-806 | the new machine state and status are those of `ExecArray` for GetIndex |
| Vm.VirtualMachine.ExecuteSetIndex | src/bytecode.rs:807-829 | the new machine state and status are those of `ExecArray` for SetIndex |
| Vm.VirtualMachine.ExecuteObject | src/bytecode.rs:830-864 | the new machine state and status are those of `ExecObject` |
| Vm.VirtualMachine.ExecuteCall | src/bytecode.rs:883-955 | the new machine state and status are those of `ExecCall` |
| Vm.VirtualMachine.ExecuteInstruction | src/bytecode.rs:539-970 | the in-place dispatch agrees with the step function `Execute` |
| Vm.VirtualMachine.Run | src/bytecode.rs:530-973 | the in-place loop ends in the state and status of the specification `Exec` on the current chunk |
| VmProperties.HaltStops | src/bytecode.rs:961 | Halt stops the machine and changes nothing |
| VmProperties.StepAdvancesPointer | src/bytecode.rs:536-537 | every instruction but a jump leaves the instruction pointer one past itself |
| VmProperties.JumpIsAbsolute | src/bytecode.rs:713-716 | Jump sets the instruction pointer to its operand and changes nothing else |
| VmProperties.JumpIfFalsePopsAndJumps | src/bytecode.rs:717-726 | JumpIfFalse fails with "Stack underflow" on an empty stack; otherwise it pops the condition and jumps exactly when it is falsy |
| VmProperties.UnimplementedFails | src/bytecode.rs:963-968 | every instruction without an arm fails with "Unimplemented instruction: <debug text>" |
| VmProperties.BinaryStackShape | src/bytecode.rs:592-692 | a binary operation underflows with fewer than two values; on success it replaces the top two values by one and changes nothing else |
| VmProperties.BinaryPushesResult | src/bytecode.rs:592-600 | with two operands on top, the result replaces them, or the operation's error is raised with both popped |
| VmProperties.StoreThenLoadGlobal | src/bytecode.rs:576-591 | storing a global binds the top value, and loading it back pushes that value |
| VmProperties.LoadUnboundGlobal | src/bytecode.rs:576-583 | loading an unbound global fails with the undefined-variable error |
| VmProperties.ExecKeepsFramesAndOutput | src/bytecode.rs:530-973 | a whole run keeps the frame count and only appends output |
| VmProperties.LocalsNeedAFrame | src/bytecode.rs:548-575 | with no call frame, loading and storing locals fail with their two messages |
| VmProperties.CallBuiltinArguments | src/bytecode.rs:741-766 | a builtin receives its arguments in push order and its result replaces them and the count |
| VmProperties.NewArrayKeepsOrder | src/bytecode.rs:767-780 | NewArray(n) collects the top n values in push order |
| VmProperties.SetThenGetIndex | src/bytecode.rs:786-829 | storing an element in range and reading it back gives the stored value |
| VmProperties.SetThenGetProperty | src/bytecode.rs:830-864 | setting a property and reading it back gives the value; a missing property reads as Null |
| VmProperties.GetPropertyOfName | src/bytecode.rs:830-847 | property access on a string fails with the non-object error |
| VmProperties.CallRejectsNonFunctions | src/bytecode.rs:883-955 | calling a value that is no function fails with the not-callable error |
| VmProperties.CheckedIsExact | src/bytecode.rs:1005-1015 | a checked integer result is exact, and stays an Integer exactly when it fits in an i64 |
| VmProperties.AddIsExact | src/bytecode.rs:1005-1024 | integer addition is exact: Integer when it fits, promoted to a big integer on overflow |
| VmProperties.MultiplyIsExact | src/bytecode.rs:1080-1127 | integer multiplication is exact: Integer when it fits, promoted to a big integer on overflow |
| VmProperties.SubtractIsExact | src/bytecode.rs:1055-1078 | integer subtraction is exact whenever it does not panic, and stays an Integer for two integers |
| VmProperties.AddOverflowPromotes | src/bytecode.rs:1008-1014 | i64::MAX + 1 becomes the big integer 2^63 |
| VmProperties.ModuloSign | src/bytecode.rs:1167-1182 | the remainder has the dividend's sign and is smaller than the divisor |
| VmProperties.DivisionByZero | src/bytecode.rs:1129-1175 | dividing a number by integer zero fails with "Division by zero", an integer modulo zero with "Modulo by zero" |
| VmProperties.ValuesEqualSymmetric | src/bytecode.rs:1184-1195 | `values_equal` is symmetric |
| VmProperties.PoolEqualIsValuesEqual | src/bytecode.rs:203-212 | pool sharing implies VM equality, and they differ only on integer-float pairs |
| VmProperties.ContainersNeverEqual | src/bytecode.rs:1184-1195 | a big integer, array or object is not even equal to itself |
| VmProperties.CompareDefinedOn | src/bytecode.rs:1197-1220 | comparison succeeds exactly on two numbers or two strings |
| VmProperties.CompareFlips | src/bytecode.rs:1197-1220 | swapping the operands flips the ordering |
| VmProperties.LessIsFlippedGreater | src/bytecode.rs:656-692 | a < b computes the same as b > a, or both fail |
| VmProperties.BuiltinTypeIsTypeName | src/bytecode.rs:1706-1724 | `type()` agrees with the value's type name for every kind but compiled functions |
| VmProperties.LenOfAscii | src/bytecode.rs:1694-1704 | `len()` of an ASCII string is its character count (it counts bytes) |
| VmProperties.FloatAsI64Truncates | src/bytecode.rs:1740 | `as i64` truncates toward zero inside the range and saturates outside it |
| VmProperties.FloatAsI64OfWhole | src/bytecode.rs:1740 | a whole float in range converts to exactly that integer |
| VmProperties.CheckedText | src/bytecode.rs:1005-1015 | the printed result of integer arithmetic is the decimal text of the exact value |
| VmProperties.LoadConstantPushes | src/bytecode.rs:540-547 | LoadConstant pushes the pool entry, or fails with the invalid-constant error past the end |
| VmProperties.PrintWrites | src/bytecode.rs:727-734 | Print pops the top value and writes its text and a newline |
| VmProperties.SumProgramPrintsExactly | src/bytecode.rs:530-973 | the program "load x, load y, add, print, halt" prints exactly the decimal text of x + y and stops |
| Compiler.IsBuiltinFunction | src/compiler.rs:50-52 | a name is a builtin exactly when it is one of show, print, len, type, str, int, float |
| Compiler.Pooled | src/compiler.rs:484-486 | `make_constant` returns a valid index holding an equal constant, appends at most one entry, and appends exactly one for a value that is never shared |
| Compiler.ConstantEmitted | src/compiler.rs:479-482 | `emit_constant` appends one LoadConstant whose index holds the value (line 0), and only grows the pool |
| Compiler.Patched | src/compiler.rs:493-502 | patching rewrites only the jump at the offset, keeping its kind and setting its target to the current end of the code |
| Compiler.PatchKeepsJumps | src/compiler.rs:493-502 | patching one jump leaves every other pending jump patchable |
| Compiler.AllPatched | src/compiler.rs:127-131 | patching a loop's pending exits changes only the code, never its length |
| Compiler.ResolvedIsHighest | src/compiler.rs:531-538 | `resolve_local` finds the most recently declared local of that name, None exactly when there is none |
| Compiler.LocalsPoppedShape | src/compiler.rs:512-520 | leaving a scope drops exactly the trailing locals deeper than the new depth and emits one Pop per local dropped |
| Compiler.ScalarValue | src/compiler.rs:229-235 | every literal but an array or object converts directly to a constant |
| Compiler.ItemsPooled | src/compiler.rs:236-252 | pooling an array literal's elements only appends to the state and keeps its scopes |
| Compiler.EntriesPooled | src/compiler.rs:253-274 | pooling an object literal's entries only appends to the state and keeps its scopes |
| Compiler.LiteralCompiled | src/compiler.rs:228-274 | compiling a literal only appends to the state and keeps its scopes |
| Compiler.BinaryInstruction | src/compiler.rs:314-336 | every operator but `and`/`or` maps to a binary VM instruction |
| Compiler.ParameterLocals | src/compiler.rs:440-443 | the parameters become depth-0 locals in declaration order |
| Compiler.ExpressionCompiled | src/compiler.rs:226-433 | compiling any expression only appends code, lines and constants and leaves scopes and loops as they were |
| Compiler.StatementCompiled | src/compiler.rs:65-224 | compiling any statement only appends code, lines and constants and leaves the loop stacks as they were |
| Compiler.BlockCompiled | src/compiler.rs:92-94 | a statement list compiles statement by statement, with the same growth guarantee |
| Compiler.BranchesJoined | src/compiler.rs:97-106 | the else part leaves the code before the pending jump untouched and keeps the loop stacks |
| Compiler.ForEntered | src/compiler.rs:137-151 | entering a `for` opens a scope, declares the loop variable, and pushes the loop start and an empty exit list |
| Compiler.ForRounds | src/compiler.rs:153-190 | the loop test, body, increment and back jump close the scope and pop the loop stacks |
| Compiler.ForClosed | src/compiler.rs:172-190 | closing a `for` patches its exit, keeps the code before it, and restores depth and loop stacks |
| Compiler.Compiler.constructor | src/compiler.rs:37-46 | a fresh compiler: empty chunk, no locals, depth 0, empty loop stacks |
| Compiler.Compiler.WithParameters | src/compiler.rs:436-443 | a fresh compiler whose locals are the parameters |
| Compiler.Compiler.EmitInstruction | src/compiler.rs:475-477 | appends the instruction with line 0 |
| Compiler.Compiler.MakeConstant | src/compiler.rs:484-486 | the new state and index are those of `Pooled` |
| Compiler.Compiler.EmitConstant | src/compiler.rs:479-482 | the new state is that of `ConstantEmitted` |
| Compiler.Compiler.EmitJump | src/compiler.rs:488-491 | appends the jump and returns its offset |
| Compiler.Compiler.PatchJump | src/compiler.rs:493-502 | the new state is that of `Patched` |
| Compiler.Compiler.EmitLoop | src/compiler.rs:504-506 | appends a jump back to the loop start |
| Compiler.Compiler.BeginScope | src/compiler.rs:508-510 | the depth goes up by one, nothing else changes |
| Compiler.Compiler.EndScope | src/compiler.rs:512-520 | the new state is that of `ScopeEnded` |
| Compiler.Compiler.AddLocal | src/compiler.rs:522-529 | the local is appended at the current depth |
| Compiler.Compiler.ResolveLocal | src/compiler.rs:531-539 | the in-place reverse scan returns `Resolved` |
| Compiler.Compiler.CompileExpression | src/compiler.rs:226-433 | the in-place compiler ends in the state (or error) of `ExpressionCompiled` |
| Compiler.Compiler.CompileLiteral | src/compiler.rs:228-274 | ends in the state (or error) of `LiteralCompiled` |
| Compiler.Compiler.PoolItems | src/compiler.rs:236-252 | ends in the state (or error) of `ItemsPooled` |
| Compiler.Compiler.PoolEntries | src/compiler.rs:253-274 | ends in the state (or error) of `EntriesPooled` |
| Compiler.Compiler.CompileIdentifier | src/compiler.rs:275-282 | ends in the state of `IdentifierCompiled` |
| Compiler.Compiler.CompileUnary | src/compiler.rs:337-345 | ends in the state (or error) of `UnaryCompiled` |
| Compiler.Compiler.CompileMethodCall | src/compiler.rs:364-373 | ends in the state (or error) of `MethodCallCompiled` |
| Compiler.Compiler.CompileArray | src/compiler.rs:374-380 | ends in the state (or error) of `ArrayCompiled` |
| Compiler.Compiler.CompileObject | src/compiler.rs:381-388 | ends in the state (or error) of `ObjectCompiled` |
| Compiler.Compiler.CompileIndex | src/compiler.rs:389-394 | ends in the state (or error) of `IndexCompiled` |
| Compiler.Compiler.CompilePropertyAccess | src/compiler.rs:395-400 | ends in the state (or error) of `PropertyAccessCompiled` |
| Compiler.Compiler.CompileAnd | src/compiler.rs:285-297 | ends in the state (or error) of `AndCompiled` |
| Compiler.Compiler.CompileOr | src/compiler.rs:298-313 | ends in the state (or error) of `OrCompiled` |
| Compiler.Compiler.CompileBinary | src/compiler.rs:314-336 | ends in the state (or error) of `BinaryCompiled` |
| Compiler.Compiler.CompileCall | src/compiler.rs:346-363 | ends in the state (or error) of `CallCompiled` |
| Compiler.Compiler.CompileLambda | src/compiler.rs:401-429 | ends in the state (or error) of `LambdaCompiled` |
| Compiler.Compiler.CompileExpressions | src/compiler.rs:346-363 | ends in the state (or error) of `ExpressionsCompiled` |
| Compiler.Compiler.CompileProperties | src/compiler.rs:381-388 | ends in the state (or error) of `PropertiesCompiled` |
| Compiler.Compiler.CompileStatement | src/compiler.rs:65-224 | ends in the state (or error) of `StatementCompiled` |
| Compiler.Compiler.CompileBlock | src/compiler.rs:92-94 | ends in the state (or error) of `BlockCompiled` |
| Compiler.Compiler.CompileFunction | src/compiler.rs:436-473 | ends in the state (or error) of `FunctionCompiled` |
| Compiler.Compiler.CompileIf | src/compiler.rs:86-109 | ends in the state (or error) of `IfCompiled` |
| Compiler.Compiler.JoinBranches | src/compiler.rs:97-106 | ends in the state (or error) of `BranchesJoined` |
| Compiler.Compiler.CloseLoop | src/compiler.rs:127-133 | ends in the state of `LoopClosed` |
| Compiler.Compiler.CompileWhile | src/compiler.rs:111-134 | ends in the state (or error) of `WhileCompiled` |
| Compiler.Compiler.CompileFor | src/compiler.rs:137-191 | ends in the state (or error) of `ForCompiled` |
| Compiler.Compiler.CompileForHead | src/compiler.rs:137-151 | ends in the state (or error) of `ForEntered` |
| Compiler.Compiler.CompileForRounds | src/compiler.rs:153-190 | ends in the state (or error) of `ForRounds` |
| Compiler.Compiler.EmitForTest | src/compiler.rs:153-160 | emits the loop test and returns the exit jump, which can be patched |
| Compiler.Compiler.CloseForRound | src/compiler.rs:167-190 | ends in the state of `ForClosed` |
| Compiler.Compiler.Compile | src/compiler.rs:54-62 | returns the error of `Compiled`, or a fresh chunk holding exactly the compiled code, lines and constants |
| Compiler.CompileProgram | src/compiler.rs:542-544 | a program compiles to the chunk of `ProgramCompiled`, or its error |
| CompilerProperties.EmittedSound | src/compiler.rs:475-477 | appending an instruction that is not Halt and jumps at most one past the end keeps every jump target inside the code |
| CompilerProperties.ConstantEmittedSound | src/compiler.rs:479-482 | emitting a constant keeps the code sound |
| CompilerProperties.PatchedSound | src/compiler.rs:493-502 | patching keeps the code sound |
| CompilerProperties.AllPatchedSound | src/compiler.rs:127-131 | patching all pending exits keeps the code sound |
| CompilerProperties.LoopClosedSound | src/compiler.rs:127-133 | closing a loop keeps the code sound |
| CompilerProperties.ScopeEndedSound | src/compiler.rs:512-520 | leaving a scope keeps the code sound |
| CompilerProperties.ExpressionSound | src/compiler.rs:226-433 | compiling any expression from sound code gives sound code: no Halt, every jump target within the end |
| CompilerProperties.StatementSound | src/compiler.rs:65-224 | compiling any statement from sound code gives sound code |
| CompilerProperties.BlockSound | src/compiler.rs:92-94 | compiling a statement list keeps the code sound |
| CompilerProperties.ProgramHaltsOnceAtEnd | src/compiler.rs:54-62 | a compiled program ends with its only Halt, and every jump lands inside the program |
| CompilerProperties.AndShape | src/compiler.rs:285-297 | `a and b` is the code of a, then JumpIfFalse to the end, Pop, then b: b is skipped when a is falsy |
| CompilerProperties.OrShape | src/compiler.rs:298-313 | `a or b` is the code of a, JumpIfFalse over the next jump, Jump to the end, Pop, then b: b is skipped when a is truthy |
| CompilerProperties.CallShape | src/compiler.rs:346-363 | a call compiles its arguments, then a builtin call pushes the count and calls by name, any other call loads the name and calls with the count |
| CompilerProperties.PropertyAccessShape | src/compiler.rs:395-400 | property access compiles the object, then loads the property name as a constant and calls GetProperty |
| CompilerProperties.VariableDeclarationShape | src/compiler.rs:72-80 | at depth 0 the value is stored as a global; inside a scope it becomes a new local and no store is emitted |
| CompilerProperties.FunctionPooledTwice | src/compiler.rs:461-470 | a function declaration adds its function value to the pool twice, at consecutive indices, with address the first index and arity the parameter count |
| CompilerProperties.IfShape | src/compiler.rs:86-109 | an if without else is the condition, JumpIfFalse to the final Pop, Pop, the branch, Pop |
| CompilerProperties.UnsupportedRejected | src/compiler.rs:207-220 | any export, import or try-catch statement in a block makes compilation fail |
| CompilerProperties.NestedItemsRejected | src/compiler.rs:236-252 | an array literal fails to compile exactly when an element is itself an array or object, with the nested-literal message |
| CompilerProperties.NestedEntriesRejected | src/compiler.rs:253-274 | an object literal fails to compile exactly when a value is itself an array or object, with the nested-literal message |
| CompiledRuns.PopOnEmptyFails | src/bytecode.rs:735-740 | Pop on an empty stack fails with "Stack underflow" |
| CompiledRuns.FalsyIfUnderflows | src/compiler.rs:86-109 | run on the VM, an if without else whose condition is falsy pops the condition twice (JumpIfFalse already popped it) and underflows |
| CompiledRuns.TruthyIfUnderflows | src/compiler.rs:86-109 | with a truthy condition and an empty branch, the same double Pop underflows too |
| CompiledRuns.EmptyIfUnderflows | src/compiler.rs:86-109 | the whole compiled program `if b { }` fails with "Stack underflow" on the VM, whatever b is |
| CompiledRuns.PropertyAccessFails | src/compiler.rs:395-400 | compiled property access runs GetProperty on the property name the compiler pushed, so it fails with the non-object error |
| CompiledRuns.ReturnRejected | src/compiler.rs:193-200 | the Return instruction a return statement compiles to is unimplemented in the VM's run loop |
| CompiledRuns.ShowSumPrintsExactly | src/compiler.rs:202-205 | the compiled program `show x + y` prints exactly the decimal text of x + y and stops |
| CompiledRuns.RelativeIfCompiled | src/bytecode.rs:1652-1664 | the bytecode compiler patches a jump with an offset relative to the jump itself |
| CompiledRuns.RelativeIfLoopsForever | src/bytecode.rs:713-726 | the VM reads jump operands as absolute targets, so the compiled `if false { }` jumps back to its start and never finishes |
| BytecodeCompiling.ExtendsTransitive | src/bytecode.rs:1641-1644 | the "only appends" relation between compiler states is transitive |
| BytecodeCompiling.Emitted | src/bytecode.rs:1641-1644 | `emit_instruction` appends one instruction to the current chunk and changes nothing else |
| BytecodeCompiling.ConstantEmitted | src/bytecode.rs:1635-1639 | `emit_constant` appends one LoadConstant whose pool entry holds the value |
| BytecodeCompiling.Patched | src/bytecode.rs:1652-1664 | patching sets the jump's operand to the distance from the jump to the end, keeping its kind and every other instruction |
| BytecodeCompiling.LiteralValue | src/bytecode.rs:1608-1633 | literals convert to the value of the same kind and contents, arrays element by element |
| BytecodeCompiling.ItemValues | src/bytecode.rs:1616-1622 | an array literal's elements convert one by one, in order |
| BytecodeCompiling.EntryValues | src/bytecode.rs:1623-1629 | an object literal's keys are exactly its entries' keys, a repeated key taking its last value |
| BytecodeCompiling.FirstSlot | src/bytecode.rs:1463-1466 | identifier lookup takes the first local slot with the name (`position`), None when there is none |
| BytecodeCompiling.ParameterNames | src/bytecode.rs:1290-1293 | a function's locals start as its parameter names in order |
| BytecodeCompiling.BodyEntered | src/bytecode.rs:1280-1288 | a function body gets a new empty chunk at the end, made current, one scope deeper |
| BytecodeCompiling.BodyLeft | src/bytecode.rs:1303-1306 | leaving the body restores the outer chunk, locals and depth and keeps every chunk |
| BytecodeCompiling.IdentifierEmitted | src/bytecode.rs:1463-1471 | compiling an identifier only appends |
| BytecodeCompiling.ExpressionEmitted | src/bytecode.rs:1454-1606 | compiling any expression only appends code and constants and keeps the locals |
| BytecodeCompiling.StatementEmitted | src/bytecode.rs:1255-1452 | compiling any statement only appends to chunks that existed and adds new ones after them |
| BytecodeCompiling.BranchesJoined | src/bytecode.rs:1326-1340 | joining an if's branches only appends, apart from the patched jump |
| BytecodeCompiling.ProgramEmitted | src/bytecode.rs:1243-1252 | compiling a program only appends |
| BytecodeCompiling.ProgramEndsWithHalt | src/bytecode.rs:1243-1252 | the main chunk of any compiled program ends with Halt and stays current |
| BytecodeCompiling.IfJumpIsRelative | src/bytecode.rs:1313-1344 | an if without else gets a JumpIfFalse whose operand is the relative distance, never the absolute end |
| BytecodeCompiling.FunctionInOwnChunk | src/bytecode.rs:1271-1311 | a function body goes to its own chunk ending in Return, and the current chunk gets NewFunction(index) and StoreGlobal(name) |
| BytecodeCompiling.IdentifierTakesFirstSlot | src/bytecode.rs:1463-1466 | an identifier declared in slot k, and in no earlier slot, compiles to LoadLocal(k) |
| BytecodeCompiling.BytecodeCompiler.constructor | src/bytecode.rs:1231-1240 | one empty chunk, current, no locals, depth 0 |
| BytecodeCompiling.BytecodeCompiler.EmitInstruction | src/bytecode.rs:1641-1644 | the new state is that of `Emitted` |
| BytecodeCompiling.BytecodeCompiler.EmitJump | src/bytecode.rs:1646-1650 | appends the jump and returns its index |
| BytecodeCompiling.BytecodeCompiler.PatchJump | src/bytecode.rs:1652-1664 | a jump is patched as `Patched` says; anything else fails with "Invalid jump instruction to patch" and changes nothing |
| BytecodeCompiling.BytecodeCompiler.CompileStatement | src/bytecode.rs:1255-1452 | the new state is that of `StatementEmitted` |
| BytecodeCompiling.BytecodeCompiler.CompileProgram | src/bytecode.rs:1243-1252 | the new state is that of `ProgramEmitted`, and the chunks are returned |
| Interpreter.SizeListElement | src/interpreter.rs:463-471 | each element of an expression list is smaller than the list, so evaluation of sub-expressions terminates |
| Interpreter.Interpreter.constructor | src/interpreter.rs:52-62 | one empty scope and nothing printed |
| Interpreter.Interpreter.Execute | src/interpreter.rs:292-303 | the in-place loop over the statements ends in the state and result of `ExecProgram`: each statement in turn, a return ends the program normally, any other error stops it |
| Interpreter.Interpreter.RunBlock | src/interpreter.rs:352-371 | the statements of a block run in turn up to the first failure, as `ExecBlock` says |
| Interpreter.Interpreter.RunFor | src/interpreter.rs:393-404 | the counting loop from start to end inclusive, rebinding the variable each round, ends as `ExecFor` says |
| Interpreter.Interpreter.CallFunctionWithParams | src/interpreter.rs:924-985 | push a scope, bind the parameters, run the body until a return, pop the scope: the result of `CallWithParams` |
| Interpreter.Interpreter.BindParameters | src/interpreter.rs:937-968 | the parameter loop (variadic rest, argument, default, or missing-parameter error) ends as `BindParams` says |
| Interpreter.Interpreter.CollectVariadic | src/interpreter.rs:939-944 | the remaining arguments are evaluated in order into the rest array, as `EvalEach` says, consuming every argument on success |
| InterpreterProperties.ArithmeticIsExact | src/interpreter.rs:530-593 | integer `+`, `-` and `*` are exact whenever they do not panic, promoting to big integers as needed |
| InterpreterProperties.DivideRules | src/interpreter.rs:596-626 | division by integer or float zero fails with the division-by-zero error, integer division is real division, and non-numbers fail with "Cannot divide" |
| InterpreterProperties.ModuloRules | src/interpreter.rs:628-637 | modulo works only on two integers, fails with division by zero on a zero divisor, and otherwise truncates |
| InterpreterProperties.StringConcatenation | src/interpreter.rs:530-552 | a string on either side of `+` concatenates with the other operand's text |
| InterpreterProperties.ComparisonRules | src/interpreter.rs:642-672 | ordering comparisons succeed exactly on two numbers, fail with "Cannot compare" otherwise, and compare integers by value |
| InterpreterProperties.LogicalOperators | src/interpreter.rs:674-691 | `and` and `or` return one of their operands, truthy exactly as the logical conjunction or disjunction |
| InterpreterProperties.EqualityRules | src/interpreter.rs:705-716 | equality is symmetric, is plain equality for strings, integers, booleans and Null, and never holds for big integers, containers or callables |
| InterpreterProperties.NegationRules | src/interpreter.rs:694-702 | unary minus negates integers and floats and fails on anything else |
| InterpreterProperties.IndexingRules | src/interpreter.rs:766-813 | indexing an object by a string is property access (missing key gives Null); arrays are indexed by integer within bounds |
| InterpreterProperties.AndEvaluatesBothOperands | src/interpreter.rs:443-447 | `false and x` still evaluates x, so an undefined x raises its error (no short circuit) |
| InterpreterProperties.ShowSumPrintsExactly | src/interpreter.rs:407-411 | `show x + y` prints the decimal text of x + y and a newline |
| InterpreterProperties.MissingParameterRestoresScope | src/interpreter.rs:961-967 | a missing required argument raises "Missing required parameter" and leaves the environment as it was |
| InterpreterProperties.ArgumentErrorLeavesScope | src/interpreter.rs:950-954 | an argument that fails to evaluate propagates its error with the callee's scope still pushed |
| InterpreterProperties.LaterArgumentsSeeEarlierParameters | src/interpreter.rs:950-954 | arguments are evaluated inside the callee's scope, so a later argument sees an earlier parameter |
| InterpreterProperties.VariadicCollectsRest | src/interpreter.rs:939-947 | a variadic parameter collects every remaining argument into an array, in order |
| InterpreterProperties.ReturnGivesCallValue | src/interpreter.rs:970-976 | a `return` in the body becomes the call's value |
| InterpreterProperties.LambdaArgumentsUseClosure | src/interpreter.rs:750-759 | a lambda's arguments are evaluated in its closure environment, not the caller's |
| InterpreterProperties.ShowIndexOnce | src/interpreter.rs:393-402 | one round of a loop that shows its variable prints that number |
| InterpreterProperties.ForStep | src/interpreter.rs:393-404 | one round of the `for` loop runs the body with the variable bound, then continues from the next value; the last round is at `end` |
| InterpreterProperties.ForShowsEachIndex | src/interpreter.rs:385-405 | a loop showing its variable prints every number from start to end inclusive and leaves the variable bound to end |
| InterpreterProperties.ForBoundsMustBeIntegers | src/interpreter.rs:389-392 | non-integer bounds fail with "For loop bounds must be integers" |
| InterpreterProperties.TryStopsAtFirstError | src/interpreter.rs:329-351 | the try block stops at its first error, whose text is bound to the catch variable before the catch block runs |
| InterpreterProperties.TryCatchesReturn | src/interpreter.rs:329-351 | a `return` inside try is caught like an error and its "Return: …" text bound |
| InterpreterProperties.CaughtArgumentErrorLeaksScope | src/interpreter.rs:329-351 | after a caught argument error the program continues inside the callee's unpopped scope |
| InterpreterProperties.TopLevelReturnEndsProgram | src/interpreter.rs:292-303 | a top-level `return` ends the program normally, skipping the rest |
| Formatting.TrimStart | releases/flowlang-0.1.0-beta/editor-support/formatter/flowfmt.py:28 | `lstrip` removes exactly the leading whitespace: the result is a suffix that does not start with whitespace |
| Formatting.TrimEnd | releases/flowlang-0.1.0-beta/editor-support/formatter/flowfmt.py:28 | `rstrip` removes exactly the trailing whitespace: the result is a prefix that does not end with whitespace |
| Formatting.StripIsStripped | releases/flowlang-0.1.0-beta/editor-support/formatter/flowfmt.py:28 | a stripped line has no whitespace at either end, and stripping it again changes nothing |
| Formatting.StripIndented | releases/flowlang-0.1.0-beta/editor-support/formatter/flowfmt.py:28-46 | stripping an indented stripped line gives the line back |
| Formatting.Indented | releases/flowlang-0.1.0-beta/editor-support/formatter/flowfmt.py:46 | a line is written behind exactly four spaces per indentation level |
| Formatting.SplitLines | releases/flowlang-0.1.0-beta/editor-support/formatter/flowfmt.py:24 | `split('\\n')` gives at least one piece, no piece holds a newline, and the pieces joined with newlines are the code |
| Formatting.SplitJoin | releases/flowlang-0.1.0-beta/editor-support/formatter/flowfmt.py:24-34 | splitting lines joined with newlines gives the lines back |
| Formatting.LineStep | releases/flowlang-0.1.0-beta/editor-support/formatter/flowfmt.py:36-55 | the written line is the input behind a multiple of four spaces; the level never goes below zero |
| Formatting.UntouchedLine | releases/flowlang-0.1.0-beta/editor-support/formatter/flowfmt.py:38-39 | a blank line or a comment is written as it is and leaves the level alone |
| Formatting.WrittenAt | releases/flowlang-0.1.0-beta/editor-support/formatter/flowfmt.py:42-53 | any other line is written at the level after closing and leaves the level after opening |
| Formatting.EndDedents | releases/flowlang-0.1.0-beta/editor-support/formatter/flowfmt.py:42-43 | `end` is written one level out and the level stays there, never below zero |
| Formatting.ElseStaysAtIfLevel | releases/flowlang-0.1.0-beta/editor-support/formatter/flowfmt.py:42-53 | `else` is written one level out and the level comes back afterwards |
| Formatting.ThenIndents | releases/flowlang-0.1.0-beta/editor-support/formatter/flowfmt.py:48-50 | a line ending with `then` makes the next line one level further in |
| Formatting.ElsePrefixOpensBlock | releases/flowlang-0.1.0-beta/editor-support/formatter/flowfmt.py:42-53 | `elsewhere = 1` does not close a block (word boundary) yet opens one (plain prefix test) |
| Formatting.LineStepStrips | releases/flowlang-0.1.0-beta/editor-support/formatter/flowfmt.py:28-46 | the written text strips back to the stripped input line |
| Formatting.FormatLines | releases/flowlang-0.1.0-beta/editor-support/formatter/flowfmt.py:27-32 | one written line per input line, threading the level from line to line |
| Formatting.FormatKeepsText | releases/flowlang-0.1.0-beta/editor-support/formatter/flowfmt.py:27-32 | every written line is its input line re-indented: both strip to the same text |
| Formatting.FormatNoNewline | releases/flowlang-0.1.0-beta/editor-support/formatter/flowfmt.py:24-34 | no written line holds a newline |
| Formatting.FormatSeesStripped | releases/flowlang-0.1.0-beta/editor-support/formatter/flowfmt.py:28 | lines that strip alike are formatted alike |
| Formatting.FormatIdempotent | releases/flowlang-0.1.0-beta/editor-support/formatter/flowfmt.py:22-34 | formatting formatted text with a fresh formatter gives it back, so `--check` accepts the formatter's own output |
| Formatting.OneLinePerLine | releases/flowlang-0.1.0-beta/editor-support/formatter/flowfmt.py:22-34 | the output has exactly as many lines as the input |
| Formatting.SpacedFromAbsent | releases/flowlang-0.1.0-beta/editor-support/formatter/flowfmt.py:66 | a substitution pass changes nothing when its operator does not occur |
| Formatting.QuotedLineUnchanged | releases/flowlang-0.1.0-beta/editor-support/formatter/flowfmt.py:65 | a line holding a double quote is left unchanged by every pass |
| Formatting.LessEqualPass | releases/flowlang-0.1.0-beta/editor-support/formatter/flowfmt.py:66 | the `<=` pass turns `x<=y` into `x <= y` |
| Formatting.LessPassSplitsLessEqual | releases/flowlang-0.1.0-beta/editor-support/formatter/flowfmt.py:60-66 | the later `<` pass turns `x <= y` into `x < = y` |
| Formatting.FlowFormatter.constructor | releases/flowlang-0.1.0-beta/editor-support/formatter/flowfmt.py:18-20 | a new formatter starts at level 0 with an indent size of 4 |
| Formatting.FlowFormatter.FormatLine | releases/flowlang-0.1.0-beta/editor-support/formatter/flowfmt.py:36-55 | writes `LineStep`'s text and moves the level to `LineStep`'s new level |
| Formatting.FlowFormatter.FormatCode | releases/flowlang-0.1.0-beta/editor-support/formatter/flowfmt.py:22-34 | returns the written lines joined with newlines and leaves the level where `FormatLines` leaves it |
| Formatting.FlowFormatter.AddSpacingAroundOperators | releases/flowlang-0.1.0-beta/editor-support/formatter/flowfmt.py:57-68 | the line after one substitution pass per operator, in list order |
| Formatting.SingleLine | releases/flowlang-0.1.0-beta/editor-support/formatter/flowfmt.py:22-34 | one stripped line with no keyword is formatted as itself |
| Formatting.LevelCarriesOver | releases/flowlang-0.1.0-beta/editor-support/formatter/flowfmt.py:19-50 | the level persists across calls on one formatter: after `if x then` the next call indents its first line |
| Lexing.Step | src/lexer.rs:392-397 | `advance` moves one character and one column, and does nothing at the end |
| Lexing.SkipSpaces | src/lexer.rs:372-376 | skipping blanks only moves forward and never crosses a line |
| Lexing.SkipToNewline | src/lexer.rs:378-382 | a comment is skipped up to, not past, the newline, and at least one character is skipped when there is one |
| Lexing.ScanStringBody | src/lexer.rs:243-288 | a string body either yields a String token, consuming input, or a lexer error |
| Lexing.ScanString | src/lexer.rs:232 | a quote starts a string token or a lexer error, always consuming input |
| Lexing.FirstDot | src/lexer.rs:295-301 | the position of the first '.' in the numeral, or its length when there is none |
| Lexing.ScanNumber | src/lexer.rs:290-330 | a number yields an Integer, BigInteger or Float token, or a lexer error |
| Lexing.WordToken | src/lexer.rs:332-370 | a word is a keyword, a boolean, null or an identifier, never Eof or Newline |
| Lexing.ScanWord | src/lexer.rs:332-370 | reading a word only moves forward and never yields Eof |
| Lexing.Scan | src/lexer.rs:116-241 | every token read consumes input and is not Eof; every failure is a lexer error |
| Lexing.Lexer.constructor | src/lexer.rs:83-90 | position 0 at line 1, column 1, over the given input |
| Lexing.Lexer.IsAtEnd | src/lexer.rs:399-401 | true exactly when the position has reached the end |
| Lexing.Lexer.CurrentChar | src/lexer.rs:384-390 | the character at the position, '\0' past the end |
| Lexing.Lexer.Advance | src/lexer.rs:392-397 | the cursor moves as `Step` says |
| Lexing.Lexer.Tokenize | src/lexer.rs:92-114 | the in-place loop returns the token list (or first error) of the specification `Lex` |
| Lexing.Lexer.NextToken | src/lexer.rs:116-241 | the in-place dispatch moves the cursor and returns the token as `Scan` says |
| Lexing.Lexer.ReadDots | src/lexer.rs:174-188 | `...` is one Ellipsis token, a single '.' a Dot, as `ScanDots` says |
| Lexing.Lexer.ReadEquals | src/lexer.rs:189-200 | `==`, `=>` and `=` as `ScanEquals` says |
| Lexing.Lexer.ReadBang | src/lexer.rs:201-213 | `!=` is a token and a lone `!` is an error, as `ScanBang` says |
| Lexing.Lexer.ReadMaybeEquals | src/lexer.rs:214-231 | `>`/`>=` and `<`/`<=`: the two-character form when '=' follows |
| Lexing.Lexer.ReadString | src/lexer.rs:243-288 | the in-place string reader agrees with `ScanString` |
| Lexing.Lexer.ReadNumber | src/lexer.rs:290-330 | the in-place number reader agrees with `ScanNumber` |
| Lexing.Lexer.ReadIdentifier | src/lexer.rs:332-370 | the in-place word reader agrees with `ScanWord` |
| Lexing.Lexer.SkipWhitespace | src/lexer.rs:372-376 | the cursor ends where `SkipSpaces` says |
| Lexing.Lexer.SkipComment | src/lexer.rs:378-382 | the cursor ends where `SkipToNewline` says |
| LexingProperties.LexShape | src/lexer.rs:92-114 | a successful token list ends with exactly one Eof, and every failure is a lexer error |
| LexingProperties.LexTakesToken | src/lexer.rs:92-114 | at a non-blank, non-comment character the list is the scanned token followed by the rest |
| LexingProperties.LexAtEnd | src/lexer.rs:111-113 | at the end of input the list is just Eof |
| LexingProperties.BlankIsSkipped | src/lexer.rs:95-96 | blanks other than newline produce no token |
| LexingProperties.CommentIsSkipped | src/lexer.rs:102-105 | a `#` comment up to the newline produces no token |
| LexingProperties.NewlineStartsLine | src/lexer.rs:120-125 | a newline is a Newline token and restarts counting at the next line, column 1 |
| LexingProperties.LargeLiteralScaled | src/lexer.rs:315-321 | a literal above i64::MAX becomes a BigInteger through `from_string`, with 10^9 times its value |
| LexingProperties.DigitStartsNumber | src/lexer.rs:290-330 | a digit always starts a number token, never an error |
| LexingProperties.DigitsToken | src/lexer.rs:313-321 | a run of digits gives the Integer of its value when it fits in i64, otherwise the BigInteger `from_string` builds |
| LexingProperties.LexDigits | src/lexer.rs:290-330 | input made only of digits lexes to that number token and Eof |
| LexingProperties.LexNatural | src/lexer.rs:290-330 | the decimal text of every natural number lexes to its number token |
| LexingProperties.MinusIsSeparate | src/lexer.rs:116-241 | a leading minus is its own token: numbers are lexed unsigned |
| LexingProperties.EscapeCharReadsBack | src/lexer.rs:256-268 | every character escapes to text the string reader turns back into it |
| LexingProperties.ScanStringCloses | src/lexer.rs:249-252 | the closing quote ends the string with the text read so far |
| LexingProperties.ScanEscaped | src/lexer.rs:243-288 | the escaped form of any text, followed by a quote, reads back as that text |
| LexingProperties.LexQuoted | src/lexer.rs:243-288 | a quoted escaped string lexes to the String token of the original text |
| LexingProperties.UnterminatedString | src/lexer.rs:280-286 | a string without its closing quote fails with "Unterminated string literal" at the column after the input |
| LexingProperties.InvalidEscape | src/lexer.rs:262-268 | an unknown escape fails with "Invalid escape sequence: \\c" |
| LexingProperties.ScanWordToEnd | src/lexer.rs:332-340 | a word extends over every following word character |
| LexingProperties.LexWord | src/lexer.rs:332-370 | a lone word lexes to its keyword or identifier token and Eof |
| LexingProperties.KeywordsAreReserved | src/lexer.rs:343-368 | a word is an identifier exactly when it is not a keyword, and then carries its own name |
| LexingProperties.TwoCharOperatorIsOneToken | src/lexer.rs:189-231 | `==`, `!=`, `<=`, `>=`, `=>` are single tokens (maximal munch) |
| LexingProperties.OneCharOperatorStandsAlone | src/lexer.rs:127-231 | a one-character operator not followed by '=' (or '>' after '=') is its own token |
| LexingProperties.DotsMunch | src/lexer.rs:174-188 | three dots are one Ellipsis token, otherwise a single Dot |
| LexingProperties.LoneBang | src/lexer.rs:201-213 | a `!` without '=' fails with "Unexpected character '!'. Did you mean '!='?" |
| Parsing.AdvanceFrom | src/parser.rs:763-768 | `advance` moves one token forward except at `Eof`, where it stays put |
| Parsing.SkipNewlines | src/parser.rs:590-593 | skipping newlines stops on the first non-newline token and every skipped token is a newline |
| Parsing.ConsumeAt | src/parser.rs:731-737 | `consume` succeeds exactly when the current token is the expected one, then moves past it; otherwise it fails with a parser error |
| Parsing.NewlineAt | src/parser.rs:739-746 | `consume_newline` succeeds exactly on a newline and moves past it |
| Parsing.NewlineOrEofAt | src/parser.rs:748-757 | `consume_newline_or_eof` succeeds exactly on a newline or `Eof`, moving past a newline and staying on `Eof` |
| Parsing.NameAt | src/parser.rs:54-57 | a name read with `advance` is the identifier just passed |
| Parsing.ProgramAt | src/parser.rs:18-28 | the top-level loop, when it succeeds, stops on `Eof` |
| Parsing.ParseAt | src/parser.rs:15-29 | a parsed program consumed every token up to `Eof` |
| Parsing.StatementAt | src/parser.rs:31-49 | every statement consumes at least one token and ends at a line end |
| Parsing.ExpressionStatementAt | src/parser.rs:44-48 | an expression statement ends at a newline or `Eof` |
| Parsing.VariableDeclarationAt | src/parser.rs:51-65 | `let x be e` consumes tokens and ends at a line end |
| Parsing.ParametersAt | src/parser.rs:76-113 | the parameter loop reads at least one parameter and stops on a token that is not a comma |
| Parsing.DefaultAt | src/parser.rs:90-96 | a parameter has a default value exactly when `=` follows its name |
| Parsing.BlockAt | src/parser.rs:119-126 | a statement block stops on one of its closing keywords or `Eof` |
| Parsing.EndedBlockAt | src/parser.rs:119-129 | a block closed by `end` and a line end consumes tokens and ends at a line end |
| Parsing.DoBlockAt | src/parser.rs:116-129 | `do`, newline, block and `end` consume tokens and end at a line end |
| Parsing.FunctionDeclarationAt | src/parser.rs:67-136 | a function declaration ends at a line end |
| Parsing.SignatureAt | src/parser.rs:74-131 | the parameters and body of a declaration end at a line end |
| Parsing.IfAt | src/parser.rs:138-186 | an `if` statement ends at a line end |
| Parsing.BranchesAt | src/parser.rs:143-179 | the `then` branch, optional `else` and closing `end` consume tokens and end at a line end |
| Parsing.ElseAt | src/parser.rs:155-175 | a missing `else` consumes nothing |
| Parsing.WhileAt | src/parser.rs:188-209 | a `while` loop ends at a line end |
| Parsing.ForAt | src/parser.rs:211-246 | a `for` loop ends at a line end |
| Parsing.RangeAt | src/parser.rs:219-237 | `from`, `to`, `do` and the body of a `for` loop end at a line end |
| Parsing.ShowAt | src/parser.rs:248-253 | `show e` ends at a line end |
| Parsing.ReturnAt | src/parser.rs:255-266 | `return` ends at a line end |
| Parsing.ReturnValueAt | src/parser.rs:258-262 | `return` has no value exactly when a newline or `Eof` follows it |
| Parsing.ImportAt | src/parser.rs:268-278 | `import m` ends at a line end |
| Parsing.ExportAt | src/parser.rs:280-284 | `export` wraps one statement and ends at a line end |
| Parsing.TryCatchAt | src/parser.rs:286-325 | `try`/`catch` ends at a line end |
| Parsing.HandlerAt | src/parser.rs:298-318 | the `catch` variable, handler block and `end` end at a line end |
| Parsing.ExpressionAt | src/parser.rs:327-329 | an expression consumes at least one token |
| Parsing.LevelOperator | src/parser.rs:331-444 | an operator of the six binary levels is never `Eof` or a newline |
| Parsing.OperandAt | src/parser.rs:331-444 | the operand of a binary level consumes at least one token |
| Parsing.BinaryLevelAt | src/parser.rs:331-444 | each binary level consumes at least one token |
| Parsing.BinaryRestAt | src/parser.rs:333-341 | the left-associative loop stops only on a token that is not an operator of its level |
| Parsing.UnaryAt | src/parser.rs:446-461 | a prefix expression consumes at least one token |
| Parsing.CallAt | src/parser.rs:463-545 | a call expression consumes at least one token |
| Parsing.PostfixAt | src/parser.rs:466-541 | the suffix loop never moves backwards |
| Parsing.SuffixAt | src/parser.rs:467-538 | each call, property or index suffix consumes at least one token |
| Parsing.ArgumentsAt | src/parser.rs:469-481 | an argument list never moves backwards |
| Parsing.ArgumentListAt | src/parser.rs:471-478 | the argument loop reads at least one argument and stops on a token that is not a comma |
| Parsing.PrimaryAt | src/parser.rs:547-569 | a primary expression consumes at least one token |
| Parsing.ParenthesizedAt | src/parser.rs:553-562 | a parenthesised expression or lambda consumes at least one token |
| Parsing.LambdaAt | src/parser.rs:681-729 | a parsed lambda started at `(` and is a `Lambda` node |
| Parsing.ArrayAt | src/parser.rs:571-606 | an array literal never moves backwards |
| Parsing.ElementsAt | src/parser.rs:575-597 | the element loop never moves backwards |
| Parsing.ObjectAt | src/parser.rs:608-660 | an object literal never moves backwards |
| Parsing.EntriesAt | src/parser.rs:612-651 | the entry loop never moves backwards |
| Parsing.EntryAt | src/parser.rs:622-637 | an entry's key is the string or identifier token it starts with |
| Parsing.Parser.constructor | src/parser.rs:11-13 | a new parser holds the tokens and stands at position 0 |
| Parsing.Parser.Advance | src/parser.rs:763-768 | the method moves as `AdvanceFrom` and returns the token just passed |
| Parsing.Parser.SkipNewlineTokens | src/parser.rs:590-593 | the newline-skipping loop ends where `SkipNewlines` says |
| Parsing.Parser.Consume | src/parser.rs:731-737 | the method agrees with `ConsumeAt` and leaves the parser after the token |
| Parsing.Parser.ConsumeNewline | src/parser.rs:739-746 | the method agrees with `NewlineAt` |
| Parsing.Parser.ConsumeNewlineOrEof | src/parser.rs:748-757 | the method agrees with `NewlineOrEofAt` |
| Parsing.Parser.ExpectName | src/parser.rs:54-57 | the method agrees with `NameAt` |
| Parsing.Parser.Parse | src/parser.rs:15-29 | the top-level loop agrees with `ParseAt` |
| Parsing.Parser.ParseStatement | src/parser.rs:31-49 | the dispatch agrees with `StatementAt` and leaves the parser where it says |
| Parsing.Parser.ParseExpressionStatement | src/parser.rs:44-48 | the method agrees with `ExpressionStatementAt` |
| Parsing.Parser.ParseVariableDeclaration | src/parser.rs:51-65 | the method agrees with `VariableDeclarationAt` |
| Parsing.Parser.ParseParameters | src/parser.rs:76-113 | the parameter loop agrees with `ParametersAt` |
| Parsing.Parser.ParseDefault | src/parser.rs:90-96 | the method agrees with `DefaultAt` |
| Parsing.Parser.ParseBlock | src/parser.rs:119-126 | the block loop agrees with `BlockAt` |
| Parsing.Parser.ParseEndedBlock | src/parser.rs:119-129 | the method agrees with `EndedBlockAt` |
| Parsing.Parser.ParseDoBlock | src/parser.rs:116-129 | the method agrees with `DoBlockAt` |
| Parsing.Parser.ParseFunctionDeclaration | src/parser.rs:67-136 | the method agrees with `FunctionDeclarationAt` |
| Parsing.Parser.ParseSignature | src/parser.rs:74-131 | the method agrees with `SignatureAt` |
| Parsing.Parser.ParseIf | src/parser.rs:138-186 | the method agrees with `IfAt` |
| Parsing.Parser.ParseBranches | src/parser.rs:143-179 | the method agrees with `BranchesAt` |
| Parsing.Parser.ParseElse | src/parser.rs:155-175 | the method agrees with `ElseAt` |
| Parsing.Parser.ParseWhile | src/parser.rs:188-209 | the method agrees with `WhileAt` |
| Parsing.Parser.ParseFor | src/parser.rs:211-246 | the method agrees with `ForAt` |
| Parsing.Parser.ParseRange | src/parser.rs:219-237 | the method agrees with `RangeAt` |
| Parsing.Parser.ParseShow | src/parser.rs:248-253 | the method agrees with `ShowAt` |
| Parsing.Parser.ParseReturn | src/parser.rs:255-266 | the method agrees with `ReturnAt` |
| Parsing.Parser.ParseImport | src/parser.rs:268-278 | the method agrees with `ImportAt` |
| Parsing.Parser.ParseExport | src/parser.rs:280-284 | the method agrees with `ExportAt` |
| Parsing.Parser.ParseTryCatch | src/parser.rs:286-325 | the method agrees with `TryCatchAt` |
| Parsing.Parser.ParseHandler | src/parser.rs:298-318 | the method agrees with `HandlerAt` |
| Parsing.Parser.ParseExpression | src/parser.rs:327-329 | the method agrees with `ExpressionAt` |
| Parsing.Parser.ParseOperand | src/parser.rs:331-444 | the method agrees with `OperandAt` |
| Parsing.Parser.ParseBinaryLevel | src/parser.rs:331-444 | the six left-associative loops agree with `BinaryLevelAt` |
| Parsing.Parser.ParseUnary | src/parser.rs:446-461 | the method agrees with `UnaryAt` |
| Parsing.Parser.ParseCall | src/parser.rs:463-545 | the suffix loop agrees with `CallAt` |
| Parsing.Parser.ParseSuffix | src/parser.rs:467-538 | one suffix step agrees with `SuffixAt` |
| Parsing.Parser.ParseArguments | src/parser.rs:469-481 | the argument loop agrees with `ArgumentsAt` |
| Parsing.Parser.ParsePrimary | src/parser.rs:547-569 | the method agrees with the corrected `PrimaryAt` |
| Parsing.Parser.ParseParenthesized | src/parser.rs:553-562 | the method agrees with `ParenthesizedAt` |
| Parsing.Parser.IsLambdaExpression | src/parser.rs:662-679 | the look-ahead loop agrees with `IsLambdaAt`: the token after the matching `)` is `=>` |
| Parsing.Parser.ParseLambda | src/parser.rs:681-729 | the method agrees with `LambdaAt` |
| Parsing.Parser.ParseArray | src/parser.rs:571-606 | the method agrees with `ArrayAt` |
| Parsing.Parser.ParseObject | src/parser.rs:608-660 | the method agrees with `ObjectAt` |
| Parsing.Parser.ParseEntry | src/parser.rs:622-637 | the method agrees with `EntryAt` |
| ParsingProperties.AtomOperand | src/parser.rs:425-444 | a single literal or name followed by a non-operator is parsed as that atom at every level |
| ParsingProperties.AtomExpression | src/parser.rs:327-329 | a lone atom is a whole expression |
| ParsingProperties.WholeExpression | src/parser.rs:331-344 | a level's result followed by no operator of any lower level is the whole expression |
| ParsingProperties.FactorBindsTighter | src/parser.rs:405-444 | `a + b * c` parses as `a + (b * c)` |
| ParsingProperties.FactorBindsTighterOnTheLeft | src/parser.rs:405-444 | `a * b + c` parses as `(a * b) + c` |
| ParsingProperties.SubtractionIsLeftAssociative | src/parser.rs:405-423 | `a - b - c` parses as `(a - b) - c` |
| ParsingProperties.AndBindsTighterThanOr | src/parser.rs:331-361 | `a or b and c` parses as `a or (b and c)` |
| ParsingProperties.PrefixOperatorsNest | src/parser.rs:446-461 | `- not a` parses as `-(not a)` |
| ParsingProperties.LevelsOverflow | src/parser.rs:331-444 | unbounded nesting in a prefix expression makes every binary level overflow |
| ParsingProperties.OnlyNamesAreCalled | src/parser.rs:483-490 | call arguments after anything but a name give "Invalid function call" |
| ParsingProperties.StatementKindFollowsFirstToken | src/parser.rs:31-49 | the statement kind is the one its first keyword announces |
| ParsingProperties.ElseIfIsNestedIf | src/parser.rs:158-161 | `else if` becomes an `else` branch holding exactly one nested `if` |
| ParsingProperties.UnclosedParenRecursesForever | src/parser.rs:553-562 | a `(` followed by `Eof` recurses without end, for every fuel |
| ParsingProperties.UnclosedParenNeverParses | src/parser.rs:15-29 | such a program never parses, for every fuel |
| ParsingProperties.BlankLinesAddNothing | src/parser.rs:20-23 | blank lines at the top level add no statement |
| ParsingProperties.BlankProgramIsEmpty | src/parser.rs:15-29 | a program of newlines only is the empty program |
| ParsingProperties.SingleAtomProgram | src/parser.rs:44-48 | a lone atom is a program of one expression statement |
| ParsingProperties.NumeralIsProgram | src/parser.rs:549 | a decimal numeral lexes to one number token and parses to one expression statement |
| ParsingProperties.GroupingAsWrittenDropsFirstToken | src/parser.rs:559-560 | as written, `(-1)` parses as `1`: the extra `advance` drops the `-` |
| ParsingProperties.GroupingKeepsFirstToken | src/parser.rs:553-562 | corrected, `(-1)` parses as `-1` |
| ParsingProperties.GroupingIsInnerExpression | src/parser.rs:553-562 | corrected, a parenthesised non-lambda is exactly its inner expression |
| ParsingProperties.LambdaAsWrittenFails | src/parser.rs:555-557 | as written, `(x) => x` fails with "Expected '(' for lambda parameters" |
| ParsingProperties.LambdaParses | src/parser.rs:681-729 | corrected, `(x) => x` parses as a one-parameter lambda |
| ParsingProperties.BigLiteralAsWrittenRejected | src/parser.rs:547-568 | as written, a big-integer token is rejected with "Expected expression" |
| ParsingProperties.BigLiteralParses | src/parser.rs:547-568 | corrected, a big-integer token is a big-integer literal |
| StdLib.CallFunction | src/stdlib.rs:65-80 | a legacy function wins over an extended one of the same name; an extended one's error becomes a runtime error; any other name gives "Unknown function" |
| StdLib.AllFunctionNames | src/stdlib.rs:82-88 | the list is sorted without duplicates and holds exactly the names `has_function` accepts |
| StdLib.FindExtreme | src/stdlib.rs:574-642 | the `min`/`max` loop computes the specification `Extreme` |
| StdLibProperties.FoldFindsFirstExtreme | src/stdlib.rs:574-607 | the fold over the arguments keeps the first element that no earlier element beats |
| StdLibProperties.ExtremeIsFirstBest | src/stdlib.rs:574-642 | on numbers, `min`/`max` return one of the arguments, the first that is best |
| StdLibProperties.ExtremeEdgeCases | src/stdlib.rs:574-607 | no arguments is an error, one argument is returned as is, a non-number is a type error |
| StdLibProperties.SubstringOfAscii | src/stdlib.rs:376-405 | on ASCII text `str_substring(s, i, j)` is the characters `i` to `j` |
| StdLibProperties.SubstringToEnd | src/stdlib.rs:388-396 | without an end index the substring runs to the end of the text |
| StdLibProperties.SubstringIndexRule | src/stdlib.rs:398-400 | the substring succeeds exactly when `start <= end <= len` after the casts to `usize`, and fails with "invalid indices" otherwise |
| StdLibProperties.WrapsPastLength | src/stdlib.rs:384 | `i as usize` keeps a non-negative index and sends a negative one past every length |
| StdLibProperties.PushThenPop | src/stdlib.rs:419-449 | `array_pop` after `array_push` returns the pushed value; popping an empty array gives null |
| StdLibProperties.SliceRules | src/stdlib.rs:451-480 | `array_slice` returns the elements between the indices, runs to the end without an end index and fails with "invalid indices" otherwise |
| StdLibProperties.ObjectKeysAndValues | src/stdlib.rs:515-547 | `object_keys` and `object_values` return one entry per property, every key and every value |
| StdLibProperties.ToIntReadsToString | src/stdlib.rs:831-856 | `to_int(to_string(i)) == i` for every 64-bit integer |
| StdLibProperties.BooleanConversions | src/stdlib.rs:839-882 | `to_int` maps booleans to 1 and 0, `to_bool` maps them back, and an empty string is not an integer |
| StdLibProperties.AbsRule | src/stdlib.rs:562-572 | `abs` of a 64-bit integer other than the minimum is its non-negative magnitude |
| StdLibProperties.PowRule | src/stdlib.rs:704-728 | `pow` of integers with a non-negative exponent is the integer power when it fits in 64 bits |
| StdLibProperties.ContainsAt | src/stdlib.rs:324-335 | `str_contains` holds exactly when the needle occurs at some position |
| StdLibProperties.PrefixAndSuffixAreContained | src/stdlib.rs:337-361 | a prefix or suffix of the text is also contained in it |
| StdLibProperties.NotYetImplemented | src/stdlib.rs:482-512 | every placeholder is registered and calling it fails with "<name> not yet implemented" |
| StdLibProperties.UnimplementedCall | src/stdlib.rs:482-484 | a call to a placeholder entry fails with its "not yet implemented" message |
| StdLibProperties.UnimplementedEntry | src/stdlib.rs:112-125 | every placeholder name is registered in the legacy table as a placeholder |
| Json.SkipWs | src/stdlib_modules/json.rs:69-77 | skipping whitespace stops on the first non-whitespace character, and everything skipped is whitespace |
| Json.DigitsEnd | src/stdlib_modules/json.rs:267-269 | a digit run stops on the first non-digit, and everything skipped is a digit |
| Json.SimpleEscape | src/stdlib_modules/json.rs:105-112 | exactly the eight one-letter escapes are accepted |
| Json.UnicodeEscape | src/stdlib_modules/json.rs:113-127 | a `\u` escape is read exactly when four hex digits follow, and its code is their value |
| Json.CodePointText | src/stdlib_modules/json.rs:128-132 | a code is pushed as one character unless it is a surrogate, which `char::from_u32` drops |
| Json.StringBody | src/stdlib_modules/json.rs:97-145 | the string loop moves forward and only appends to what it has read |
| Json.StringAt | src/stdlib_modules/json.rs:94-146 | a string read moves past the opening quote |
| Json.BooleanAt | src/stdlib_modules/json.rs:234-244 | `true` and `false` are read exactly when the input starts with them, moving 4 or 5 characters; anything else is "Invalid boolean value" |
| Json.NullAt | src/stdlib_modules/json.rs:246-253 | `null` is read exactly when the input starts with it, moving 4 characters; otherwise "Invalid null value" |
| Json.NumberAt | src/stdlib_modules/json.rs:255-319 | a number read moves forward and gives an integer or a float |
| Json.FractionAt | src/stdlib_modules/json.rs:272-284 | the fraction part moves forward and gives an integer or a float |
| Json.ExponentAt | src/stdlib_modules/json.rs:286-318 | the exponent part moves forward and gives an integer or a float |
| Json.ValueAt | src/stdlib_modules/json.rs:79-92 | a value read moves forward |
| Json.ArrayAt | src/stdlib_modules/json.rs:200-232 | an array read moves forward |
| Json.ElementsAt | src/stdlib_modules/json.rs:211-229 | the element loop moves forward |
| Json.ObjectAt | src/stdlib_modules/json.rs:149-198 | an object read moves forward |
| Json.MembersAt | src/stdlib_modules/json.rs:161-195 | the member loop moves forward |
| Json.MemberValueAt | src/stdlib_modules/json.rs:178-194 | a member's value and separator move forward |
| Json.ArrayEntry | src/stdlib_modules/json.rs:201-209 | after `[` and blanks, `]` gives the empty array and anything else starts the element loop |
| Json.ElementsStep | src/stdlib_modules/json.rs:211-229 | one element step: a failed value fails the loop, then `,` continues, `]` ends and anything else is "Expected ',' or ']' in array" |
| Json.ObjectEntry | src/stdlib_modules/json.rs:150-159 | after `{` and blanks, `}` gives the empty object and anything else starts the member loop |
| Json.MembersStep | src/stdlib_modules/json.rs:162-176 | one key step: a failed key fails the loop, and a missing `:` is "Expected ':' after object key" |
| Json.MemberValueStep | src/stdlib_modules/json.rs:178-194 | the value is inserted under its key, then `,` continues, `}` ends and anything else is "Expected ',' or '}' in object" |
| Json.JsonParser.constructor | src/stdlib_modules/json.rs:54-59 | a new parser holds the characters and stands at 0 |
| Json.JsonParser.CurrentChar | src/stdlib_modules/json.rs:61-63 | the current character exists exactly before the end, and is the one at the position |
| Json.JsonParser.Advance | src/stdlib_modules/json.rs:65-67 | `advance` moves one character, even past the end |
| Json.JsonParser.SkipWhitespace | src/stdlib_modules/json.rs:69-77 | the loop ends where `SkipWs` says |
| Json.JsonParser.SkipDigits | src/stdlib_modules/json.rs:267-269 | the digit loop ends where `DigitsEnd` says |
| Json.JsonParser.ParseValue | src/stdlib_modules/json.rs:79-92 | the method agrees with `ValueAt` |
| Json.JsonParser.ParseString | src/stdlib_modules/json.rs:94-146 | the method agrees with `StringAt` |
| Json.JsonParser.ReadHex4 | src/stdlib_modules/json.rs:117-126 | the four-digit loop agrees with `UnicodeEscape` and moves four characters when it succeeds |
| Json.JsonParser.ParseObject | src/stdlib_modules/json.rs:149-198 | the method agrees with `ObjectAt` |
| Json.JsonParser.ParseKey | src/stdlib_modules/json.rs:162-176 | the key part of the member loop agrees with `MembersAt` |
| Json.JsonParser.ParseArray | src/stdlib_modules/json.rs:200-232 | the method agrees with `ArrayAt` |
| Json.JsonParser.ParseBoolean | src/stdlib_modules/json.rs:234-244 | the method agrees with `BooleanAt` |
| Json.JsonParser.ParseNull | src/stdlib_modules/json.rs:246-253 | the method agrees with `NullAt` |
| Json.JsonParser.ParseNumber | src/stdlib_modules/json.rs:255-319 | the method agrees with `NumberAt` |
| Json.JsonParser.ParseFraction | src/stdlib_modules/json.rs:272-284 | the method agrees with `FractionAt` |
| Json.JsonParser.ParseExponent | src/stdlib_modules/json.rs:286-318 | the method agrees with `ExponentAt` |
| Json.FractionSteps | src/stdlib_modules/json.rs:272-284 | a `.` without a digit after it is "expected digit after decimal point"; otherwise the digits are consumed |
| Json.ExponentSteps | src/stdlib_modules/json.rs:286-300 | `e`/`E` with an optional sign and no digit is "expected digit in exponent"; otherwise the digits are consumed |
| Json.EscapeChar | src/stdlib_modules/json.rs:396-416 | a character is escaped exactly when it is a quote, a backslash or a control character, and every escape starts with a backslash |
| Json.Escape | src/stdlib_modules/json.rs:396-416 | escaping never shortens the text |
| Json.Quote | src/stdlib_modules/json.rs:327 | a string is written between double quotes |
| Json.Indent | src/stdlib_modules/json.rs:341 | indentation at level `n` is `2n` spaces |
| Json.Stringify | src/stdlib_modules/json.rs:322-394 | stringify succeeds exactly when every nested value is null, a boolean, a number, a string, an array or an object; otherwise "Cannot stringify this value type to JSON" |
| Json.ArrayJson | src/stdlib_modules/json.rs:328-352 | an array is written exactly when all its elements can be |
| Json.ObjectJson | src/stdlib_modules/json.rs:353-391 | an object is written exactly when all its values can be |
| Json.WritableMembers | src/stdlib_modules/json.rs:360 | whether an object can be written does not depend on the order its keys are visited in |
| Json.ItemsJson | src/stdlib_modules/json.rs:336-345 | the element loop succeeds exactly when every element can be written |
| Json.EntriesJson | src/stdlib_modules/json.rs:360-377 | the entry loop succeeds exactly when every visited value can be written |
| Json.JsonParse | src/stdlib_modules/json.rs:6-20 | `json_parse` needs exactly one string argument and wraps a parse failure as "JSON parse error: ..." |
| Json.JsonStringify | src/stdlib_modules/json.rs:22-40 | `json_stringify` needs an argument, succeeds exactly when it can be written, and wraps a failure as "JSON stringify error: ..." |
| JsonProperties.SkipWsOver | src/stdlib_modules/json.rs:69-77 | skipping whitespace passes exactly the blank run in front |
| JsonProperties.DigitsEndAt | src/stdlib_modules/json.rs:267-269 | the digit loop stops exactly at the end of the digit run |
| JsonProperties.EscapeCharRead | src/stdlib_modules/json.rs:102-137 | reading back the escape of a character yields that character |
| JsonProperties.ClosingQuoteRead | src/stdlib_modules/json.rs:99-102 | a closing quote ends the string with what was read |
| JsonProperties.EscapeRead | src/stdlib_modules/json.rs:97-145 | the string loop reads an escaped text back as the original text |
| JsonProperties.QuoteRead | src/stdlib_modules/json.rs:94-146 | `parse_string` reads back a quoted, escaped string as the string |
| JsonProperties.NumberRead | src/stdlib_modules/json.rs:255-319 | `parse_number` reads back the decimal text of any 64-bit integer |
| JsonProperties.Exact | src/stdlib_modules/json.rs:322-394 | a value the round trip covers can be written |
| JsonProperties.FirstChar | src/stdlib_modules/json.rs:322-394 | written JSON starts with the character `parse_value` dispatches on for its kind |
| JsonProperties.ValueRead | src/stdlib_modules/json.rs:79-92 | `parse_value` reads back written JSON after any blanks |
| JsonProperties.TextScalar | src/stdlib_modules/json.rs:323-327 | null, booleans, integers and strings are written as `null`, `true`/`false`, decimal digits and quoted escaped text |
| JsonProperties.FromOther | src/stdlib_modules/json.rs:89 | any other first character is "Unexpected character: c" |
| JsonProperties.ArrayText | src/stdlib_modules/json.rs:328-352 | an empty array is written `[]`, others as their elements between brackets |
| JsonProperties.ArrayRead | src/stdlib_modules/json.rs:200-232 | `parse_array` reads back a written array |
| JsonProperties.ElementsRead | src/stdlib_modules/json.rs:211-229 | the element loop reads back written elements and the closing bracket |
| JsonProperties.ObjectText | src/stdlib_modules/json.rs:353-391 | an empty object is written `{}`, others as their entries between braces |
| JsonProperties.KeysMapAll | src/stdlib_modules/json.rs:178-179 | inserting every entry in key order rebuilds the object |
| JsonProperties.ObjectRead | src/stdlib_modules/json.rs:149-198 | `parse_object` reads back a written object |
| JsonProperties.MembersRead | src/stdlib_modules/json.rs:161-195 | the member loop reads back written entries and the closing brace |
| JsonProperties.EmptyInputFails | src/stdlib_modules/json.rs:90 | empty input is "Unexpected end of input" |
| JsonProperties.TrailingTextIgnored | src/stdlib_modules/json.rs:43-46 | text after the first value is ignored: `1 x` parses as 1 |
| JsonProperties.LeadingZerosAccepted | src/stdlib_modules/json.rs:262-269 | leading zeros are accepted: `007` parses as 7 |
| JsonProperties.KeyQuoteNotChecked | src/stdlib_modules/json.rs:165 | a key's opening character is skipped without checking it is a quote |
| JsonProperties.DuplicateKeyLastWins | src/stdlib_modules/json.rs:179 | a repeated key keeps the last value |
| JsonProperties.TrailingCommaRejected | src/stdlib_modules/json.rs:211-212 | `[1,]` is rejected with "Unexpected character: ]" |
| JsonProperties.StringifyParse | src/stdlib_modules/json.rs:43-46 | parsing written JSON, followed by anything that cannot extend a number, gives back the value |
| JsonProperties.BuiltinRoundTrip | src/stdlib_modules/json.rs:6-40 | `json_parse(json_stringify(v, pretty)) == v` for every value the round trip covers |
| Crypto.HexOfBytes | src/stdlib_modules/crypto.rs:97-99 | every byte becomes two lower-case hex digits |
| Crypto.HexChunks | src/stdlib_modules/crypto.rs:115-122 | decoding pairs gives one byte per pair, or "Invalid hex character" |
| Crypto.HexChunksStep | src/stdlib_modules/crypto.rs:115-122 | one step of the pair loop: an unreadable pair stops the loop, a readable one is pushed |
| Crypto.HexDecodeText | src/stdlib_modules/crypto.rs:111-113 | text of odd byte length is "Hex string must have even length" |
| Crypto.DecodeHexChunks | src/stdlib_modules/crypto.rs:110-127 | the loop over pairs computes `HexDecodeText` |
| Crypto.HexPairValue | src/stdlib_modules/crypto.rs:117 | `u8::from_str_radix` reads a byte's two hex digits back as the byte |
| Crypto.HexChunksOfEncoding | src/stdlib_modules/crypto.rs:115-122 | decoding the pairs of an encoding gives back the bytes |
| Crypto.HexRoundTrip | src/stdlib_modules/crypto.rs:90-134 | hex-decoding the hex encoding of a text's UTF-8 bytes gives back the text |
| Crypto.OneChunk | src/stdlib_modules/crypto.rs:115-122 | two characters decode to the byte they spell, or fail with "Invalid hex character" |
| Crypto.HexDecodeRejects | src/stdlib_modules/crypto.rs:111-120 | `abc` has odd length and `zz` has an invalid digit |
| Crypto.HexDecodeChunks | src/stdlib_modules/crypto.rs:117-126 | `ff` is not UTF-8; `+f` is accepted because `from_str_radix` takes a leading `+` |
| Crypto.SextetChar | src/stdlib_modules/crypto.rs:215 | every sextet has an alphabet character that decodes back to it |
| Crypto.Base64Value | src/stdlib_modules/crypto.rs:253-260 | a decoded character is a sextet below 64 |
| Crypto.GroupBits | src/stdlib_modules/crypto.rs:224 | a group of up to three bytes packs into 24 bits |
| Crypto.EncodeGroup | src/stdlib_modules/crypto.rs:218-237 | every group becomes four characters, padded with `=` |
| Crypto.Base64Bytes | src/stdlib_modules/crypto.rs:214-240 | the encoding is four characters for every started group of three bytes |
| Crypto.Base64BytesStep | src/stdlib_modules/crypto.rs:218-238 | the encoding is the first group's characters followed by the rest's |
| Crypto.Base64EncodeString | src/stdlib_modules/crypto.rs:214-240 | the loop over groups computes `Base64Bytes` |
| Crypto.TrimPadding | src/stdlib_modules/crypto.rs:246 | trimming `=` keeps a prefix that does not end in `=` |
| Crypto.DecodeGroup | src/stdlib_modules/crypto.rs:249-271 | a group fails exactly when a character is outside the alphabet, otherwise gives one byte for up to two characters and one less than its length for more |
| Crypto.DecodeChunks | src/stdlib_modules/crypto.rs:249-271 | decoding fails only with "Invalid base64 character" |
| Crypto.DecodeChunksStep | src/stdlib_modules/crypto.rs:249-271 | one step of the group loop |
| Crypto.Base64DecodeString | src/stdlib_modules/crypto.rs:245-274 | the loop over groups computes `Base64DecodeBytes` |
| Crypto.Sextets | src/stdlib_modules/crypto.rs:226-235 | the four sextets of a group are the bit fields of its three bytes |
| Crypto.GroupBytes | src/stdlib_modules/crypto.rs:265-270 | the packed sextets give back the three bytes |
| Crypto.TrimGroup | src/stdlib_modules/crypto.rs:246 | trimming the padding of a group's encoding leaves its unpadded characters |
| Crypto.DecodeUnpadded | src/stdlib_modules/crypto.rs:249-271 | an unpadded group decodes back to its bytes |
| Crypto.TrimEncoding | src/stdlib_modules/crypto.rs:246 | trimming the padding of an encoding leaves the unpadded groups |
| Crypto.DecodeUnpaddedBytes | src/stdlib_modules/crypto.rs:249-271 | the unpadded groups decode back to the bytes |
| Crypto.Base64RoundTrip | src/stdlib_modules/crypto.rs:214-274 | decoding an encoding gives back the bytes |
| Crypto.Md5From | src/stdlib_modules/crypto.rs:195-198 | the wrapping hash stays a 64-bit value |
| Crypto.Md5Digest | src/stdlib_modules/crypto.rs:193-200 | the digest is 16 hex digits spelling the 64-bit hash |
| Crypto.SimpleMd5 | src/stdlib_modules/crypto.rs:193-200 | the loop computes `Md5Digest` |
| Crypto.Md5IsBase31 | src/stdlib_modules/crypto.rs:195-198 | the hash is the bytes read as a base-31 number, modulo 2^64 |
| Crypto.Md5FromAppend | src/stdlib_modules/crypto.rs:196-198 | hashing a concatenation continues from the hash of the first part |
| Crypto.ShaDigest | src/stdlib_modules/crypto.rs:202-212 | the digest is 16 hex digits spelling the 64-bit state |
| Crypto.SimpleSha256 | src/stdlib_modules/crypto.rs:202-212 | the loop computes `ShaDigest` |
| Crypto.ShaFromAppend | src/stdlib_modules/crypto.rs:205-210 | the state after a concatenation continues from the state after the first part |
| Crypto.OneString | src/stdlib_modules/crypto.rs:23-36 | the builtins need one argument and it must be a string, with their own messages |
| Crypto.Md5Hash | src/stdlib_modules/crypto.rs:23-36 | `md5_hash` digests the UTF-8 bytes of its string |
| Crypto.Sha256Hash | src/stdlib_modules/crypto.rs:38-51 | `sha256_hash` digests the UTF-8 bytes of its string |
| Crypto.Base64Encode | src/stdlib_modules/crypto.rs:54-66 | `base64_encode` encodes the UTF-8 bytes of its string |
| Crypto.Base64Decode | src/stdlib_modules/crypto.rs:68-87 | `base64_decode` decodes, wraps a decode error and rejects bytes that are not UTF-8 |
| Crypto.HexEncode | src/stdlib_modules/crypto.rs:90-103 | `hex_encode` writes the UTF-8 bytes of its string in hex |
| Crypto.HexDecode | src/stdlib_modules/crypto.rs:106-133 | `hex_decode` decodes pairs and rejects bytes that are not UTF-8 |
| Crypto.Base64BuiltinRoundTrip | src/stdlib_modules/crypto.rs:54-87 | `base64_decode(base64_encode(s)) == s` for every string |
| Crypto.HexBuiltinRoundTrip | src/stdlib_modules/crypto.rs:90-133 | `hex_decode(hex_encode(s)) == s` for every string |
| CryptoRandom.NextSeed | src/stdlib_modules/crypto.rs:282 | the seed update wraps to 64 bits |
| CryptoRandom.Draw | src/stdlib_modules/crypto.rs:283 | a draw is the new seed shifted right by 16, below 2^48 |
| CryptoRandom.Seeds | src/stdlib_modules/crypto.rs:280-285 | the seed after several draws stays a 64-bit value |
| CryptoRandom.AsU64TwosComplement | src/stdlib_modules/crypto.rs:296 | `seed as u64` keeps a non-negative seed and adds 2^64 to a negative one |
| CryptoRandom.SetSeed | src/stdlib_modules/crypto.rs:288-302 | `set_random_seed` succeeds exactly on one integer, stores it as `u64` and returns null; otherwise the seed is unchanged |
| CryptoRandom.IntBounds | src/stdlib_modules/crypto.rs:137-152 | `random_int` bounds default to 0..100, one argument is the maximum, two are both; other arguments are errors |
| CryptoRandom.RandomIntFrom | src/stdlib_modules/crypto.rs:136-159 | `random_int` succeeds exactly when the bounds are valid and `min < max`, and its result is the draw reduced into the range |
| CryptoRandom.RandomFloatFrom | src/stdlib_modules/crypto.rs:162-166 | `random_float` is in `[0, 1)` with at most six decimals and advances the seed once |
| CryptoRandom.AlnumChar | src/stdlib_modules/crypto.rs:178 | each of the 62 alphabet positions is a letter or digit |
| CryptoRandom.Chars | src/stdlib_modules/crypto.rs:181-184 | the loop produces `n` alphanumeric characters and advances the seed `n` times |
| CryptoRandom.CharsAppend | src/stdlib_modules/crypto.rs:181-184 | generating two runs in a row is the same as generating their concatenation |
| CryptoRandom.StringLength | src/stdlib_modules/crypto.rs:169-176 | the length defaults to 10 and otherwise must be an integer |
| CryptoRandom.RandomStringFrom | src/stdlib_modules/crypto.rs:168-189 | `random_string` succeeds exactly when the length is valid, and returns that many characters |
| CryptoRandom.UuidFields | src/stdlib_modules/crypto.rs:309-313 | the five fields are masked to their widths and the fourth carries the variant bits |
| CryptoRandom.UuidText | src/stdlib_modules/crypto.rs:307-314 | the formatted UUID is 36 characters |
| CryptoRandom.UuidFrom | src/stdlib_modules/crypto.rs:305-316 | a UUID is 36 characters and advances the seed five times |
| CryptoRandom.UuidShape | src/stdlib_modules/crypto.rs:307-314 | dashes sit at 8, 13, 18 and 23, the version digit is `4` and the variant digit is one of `8 9 a b` |
| CryptoRandom.UuidFieldsReadBack | src/stdlib_modules/crypto.rs:307-314 | each hex group of the UUID spells its field |
| CryptoRandom.Generator.constructor | src/stdlib_modules/crypto.rs:277 | the seed starts at 1 |
| CryptoRandom.Generator.Next | src/stdlib_modules/crypto.rs:280-285 | `simple_random` updates the seed and returns its draw |
| CryptoRandom.Generator.SetRandomSeed | src/stdlib_modules/crypto.rs:288-302 | the method agrees with `SetSeed` |
| CryptoRandom.Generator.RandomInt | src/stdlib_modules/crypto.rs:136-159 | the method agrees with `RandomIntFrom` |
| CryptoRandom.Generator.RandomFloat | src/stdlib_modules/crypto.rs:162-166 | the method agrees with `RandomFloatFrom` |
| CryptoRandom.Generator.RandomString | src/stdlib_modules/crypto.rs:168-189 | the loop agrees with `RandomStringFrom` |
| CryptoRandom.Generator.GenerateUuid | src/stdlib_modules/crypto.rs:305-316 | the method agrees with `UuidFrom` |
| Net.EncodeByte | src/stdlib_modules/net.rs:197-204 | an unreserved byte is kept as one character, any other becomes `%XX`; the result is ASCII |
| Net.EncodeBytes | src/stdlib_modules/net.rs:195-207 | the encoding is ASCII, as long as the widths say, and never contains `+` |
| Net.Encode | src/stdlib_modules/net.rs:195-207 | the loop over the bytes computes `EncodeText` |
| Net.EncodeBytesStep | src/stdlib_modules/net.rs:196-206 | the encoding is the first byte's followed by the rest's |
| Net.HexByte | src/stdlib_modules/net.rs:218-219 | two hex digits give their byte; `u8::from_str_radix` also accepts a leading `+` and nothing else |
| Net.DecodeBytes | src/stdlib_modules/net.rs:213-226 | the corrected decode loop only appends, and fails only on a missing or invalid escape |
| Net.DecodeText | src/stdlib_modules/net.rs:210-229 | decoding fails only with a missing escape, bad hex or bytes that are not UTF-8 |
| Net.Decode | src/stdlib_modules/net.rs:210-229 | the loop computes the as-written `AsWrittenDecodeText`, which agrees with the corrected decoder on ASCII input |
| Net.DecodeEncodedByte | src/stdlib_modules/net.rs:195-226 | decoding reads back one encoded byte |
| Net.DecodeEncodedBytes | src/stdlib_modules/net.rs:195-226 | decoding reads back encoded bytes |
| Net.DecodeEncode | src/stdlib_modules/net.rs:195-229 | `decode(encode(s)) == s` for every string |
| Net.EncodeUnreserved | src/stdlib_modules/net.rs:198-200 | a text of unreserved ASCII characters encodes to itself |
| Net.PlainStep | src/stdlib_modules/net.rs:225 | an ordinary character appends its bytes |
| Net.PlusStep | src/stdlib_modules/net.rs:224 | `+` decodes to a space |
| Net.EscapeStep | src/stdlib_modules/net.rs:215-222 | `%` and two characters append their byte, or fail with "Invalid hex in URL encoding" |
| Net.DecodePlainBytes | src/stdlib_modules/net.rs:213-226 | text with neither `%` nor `+` decodes to its own bytes |
| Net.DecodePlain | src/stdlib_modules/net.rs:210-229 | text with neither `%` nor `+` decodes to itself |
| Net.EscapeCases | src/stdlib_modules/net.rs:215-224 | `%4` is a missing escape, `%zz` is bad hex, `%+5` is byte 5 and `a+b` is `a b` |
| Net.AsWrittenCharByte | src/stdlib_modules/net.rs:225 | `ch as u8` keeps a character below 256 as its code |
| Net.AsWrittenDecodeBytes | src/stdlib_modules/net.rs:213-226 | the loop as written appends at most one byte per character and fails only on escapes |
| Net.AsWrittenDecodeText | src/stdlib_modules/net.rs:210-229 | the decoder as written fails only with a missing escape, bad hex or bytes that are not UTF-8 |
| Net.AsciiDecodeAgrees | src/stdlib_modules/net.rs:213-226 | on ASCII input the loop as written and the corrected loop agree |
| Net.AsciiDecodeTextAgrees | src/stdlib_modules/net.rs:210-229 | on ASCII input the decoder as written and the corrected decoder agree |
| Net.AsWrittenLosesNonAscii | src/stdlib_modules/net.rs:225 | as written, `é` is rejected as not UTF-8 and `Ā` decodes to NUL; the corrected decoder keeps both |
| Net.UrlEncode | src/stdlib_modules/net.rs:163-175 | `url_encode` needs one string argument and returns ASCII text |
| Net.UrlDecode | src/stdlib_modules/net.rs:177-191 | `url_decode` needs one string argument and wraps a failure as "URL decode failed: ..." |
| Net.UrlRoundTrip | src/stdlib_modules/net.rs:163-191 | `url_decode(url_encode(s)) == s` for every string |
| Benchmark.Fibonacci | benchmark.py:4-8 | `fibonacci(n)` is `n` for `n <= 1` and never negative for `n >= 0` |
| Benchmark.FibonacciGrows | benchmark.py:4-8 | the sequence is positive and non-decreasing from 1 on |
| Benchmark.FibonacciIter | benchmark.py:10-17 | the iterative loop computes the recursive `fibonacci` |
| Benchmark.CoDivisor | benchmark.py:24-25 | a divisor at or above the first `i` with `i * i > n` has a partner divisor below `i` |
| Benchmark.IsPrimeTrial | benchmark.py:19-27 | trial division answers true exactly for primes |
| Benchmark.EvenDoesNotDivideOdd | benchmark.py:22-26 | skipping even divisors of an odd number loses nothing |
| Benchmark.SumNumbers | benchmark.py:29-30 | the sum over an empty range is 0 |
| Benchmark.SumNumbersClosedForm | benchmark.py:29-30 | `sum_numbers(n) == n * (n + 1) / 2` |
| Memory.Acquired | src/memory.rs:162-170 | an acquire hands out the most recently released object when the pool holds one and a new one otherwise; exactly one of the created/reused counters moves |
| Memory.Released | src/memory.rs:172-177 | a released object is kept only while the pool is below capacity; the pool never exceeds its capacity |
| Memory.ReleaseThenAcquire | src/memory.rs:162-177 | releasing into a pool with room and acquiring again hands back the same object and restores the pool |
| Memory.ReleaseIntoFullPool | src/memory.rs:172-177 | releasing into a full pool changes nothing |
| Memory.AcquiredMany | src/memory.rs:162-170 | n acquires hand out n objects and move the two counters by n in total |
| Memory.AcquiresCreateOnlyWhenEmpty | src/memory.rs:162-170 | of n acquires, min(n, pool size) are reused and the rest are created |
| Memory.MemoryPool.constructor | src/memory.rs:152-160 | a new pool is empty with both counters at zero |
| Memory.MemoryPool.Acquire | src/memory.rs:162-170 | returns and leaves the state `Acquired` gives, keeping the pool within capacity |
| Memory.MemoryPool.Release | src/memory.rs:172-177 | leaves the state `Released` gives, keeping the pool within capacity |
| Memory.NewTables | src/memory.rs:204-217 | a new interner holds `true`, `false` and `null` at handles 0, 1, 2, and every table is consistent |
| Memory.Interned | src/memory.rs:219-242 | the handle returned denotes an entry equal to the value; tables stay consistent and entries only grow |
| Memory.InternShares | src/memory.rs:219-242 | interning a scalar a second time returns the same handle and changes nothing |
| Memory.ComplexNotShared | src/memory.rs:238-240 | arrays, objects, big integers and functions get a new entry on every call |
| Memory.SharedIffEqual | src/memory.rs:219-242 | two scalars interned in turn share a handle exactly when they are equal |
| Memory.ValueInterner.constructor | src/memory.rs:204-217 | a new interner has `NewTables`'s tables |
| Memory.ValueInterner.InternValue | src/memory.rs:219-242 | returns the handle and leaves the tables `Interned` gives |
| Memory.ValueSizeAddsHeader | src/memory.rs:747-758 | the manager's size estimate is the generation's plus 24 bytes for strings, arrays and objects |
| Memory.Generation.constructor | src/memory.rs:436-444 | a new generation is empty with size zero |
| Memory.Generation.AddObject | src/memory.rs:446-454 | refused with "Generation capacity exceeded" once the size has reached capacity; otherwise the object is appended and its size charged |
| Memory.GenerationalGC.constructor | src/memory.rs:287-298 | a new collector has an empty young generation of 1 MiB capacity |
| Memory.GenerationalGC.CollectYoungGeneration | src/memory.rs:312-357 | with no roots every young object is freed; the collection counters go up by one; the charged size stays |
| Memory.GenerationalGC.Allocate | src/memory.rs:300-310 | the add either fails at capacity or charges the object; past the 1 MiB threshold the young generation is collected |
| Memory.Incremented | src/memory.rs:480-483 | the address gets one more reference, starting from zero, and every tracked count stays positive |
| Memory.Decremented | src/memory.rs:485-497 | one reference fewer; reports "freed" exactly when the last reference goes, and then stops tracking the address |
| Memory.DecrementUntracked | src/memory.rs:485-497 | decrementing an untracked address changes nothing and frees nothing |
| Memory.DecrementUndoesIncrement | src/memory.rs:480-497 | a decrement undoes an increment, and frees exactly when the increment started tracking |
| Memory.CycleCandidates | src/memory.rs:490-493 | a decrement queues the address as a potential cycle exactly when more than 100 references remain |
| Memory.RefCountManager.constructor | src/memory.rs:471-478 | a new manager tracks nothing |
| Memory.RefCountManager.IncrementRef | src/memory.rs:480-483 | leaves the state `Incremented` gives |
| Memory.RefCountManager.DecrementRef | src/memory.rs:485-497 | returns and leaves what `Decremented` gives |
| Memory.Padding | src/memory.rs:606-611 | the padding is below the alignment and brings the total to a multiple of it |
| Memory.PlacedAccounts | src/memory.rs:602-614 | every byte of the total is a field's own size or padding |
| Memory.DefaultFieldsPack | src/memory.rs:603-604 | fields with no recorded size or alignment take 8 bytes each with no padding |
| Memory.InsertByLength | src/memory.rs:592-595 | inserting one field by name length adds exactly one element |
| Memory.SortByLength | src/memory.rs:592-595 | the sort keeps the number of fields |
| Memory.InsertByLengthOrders | src/memory.rs:592-595 | inserting into a length-ordered list keeps it ordered |
| Memory.InsertByLengthPermutes | src/memory.rs:592-595 | inserting adds exactly the field to the multiset |
| Memory.SortByLengthSorts | src/memory.rs:592-595 | the sorted fields are ordered by name length and are a permutation of the input |
| Memory.LayoutFor | src/memory.rs:586-623 | the order is a permutation of the fields, by length when a pattern is recorded and unchanged otherwise; total = padding + field sizes; cache-line aligned iff the total is a multiple of 64 |
| Memory.DefaultLayout | src/memory.rs:586-623 | with nothing recorded n fields take 8n bytes, no padding, in the given order |
| Memory.MemoryLayoutOptimizer.constructor | src/memory.rs:567-574 | a new optimiser has all of its tables empty |
| Memory.MemoryLayoutOptimizer.ComputeOptimalLayout | src/memory.rs:586-623 | the placement loop returns `LayoutFor` of the recorded tables |
| Memory.MemoryLayoutOptimizer.OptimizeLayout | src/memory.rs:576-584 | returns the cached layout for a known type whatever the fields; otherwise computes, caches and returns it |
| Memory.MemoryLayoutOptimizer.RecordAccess | src/memory.rs:625-643 | the type's sequential or random access count goes up by one, creating its entry at zero first |
| Memory.Charged | src/memory.rs:665-671 | allocation raises total and current usage by the size and the peak to at least the current usage |
| Memory.Credited | src/memory.rs:687-689 | freeing raises the freed total and lowers current usage, stopping at zero |
| Memory.ChargeThenCredit | src/memory.rs:664-697 | freeing what was just allocated restores current usage while the peak keeps the high point |
| Memory.UnoptimizedDiffersOnlyInAlignment | src/memory.rs:782-793 | with nothing recorded the optimiser and the fallback agree on order, padding and size but disagree on the cache-line flag |
| Memory.AdvancedMemoryManager.constructor | src/memory.rs:647-662 | a new manager has all of its counters at zero and fresh components |
| Memory.AdvancedMemoryManager.Charge | src/memory.rs:665-671 | the counters become `Charged` of the old ones |
| Memory.AdvancedMemoryManager.AllocateValue | src/memory.rs:664-684 | charges the value's size; interns it only when interning is on and wanted; with GC on, fails exactly at young capacity; otherwise returns the value |
| Memory.AdvancedMemoryManager.DeallocateValue | src/memory.rs:686-697 | credits the value's size and, with GC on, drops one reference to its address |
| Memory.AdvancedMemoryManager.OptimizeMemoryLayout | src/memory.rs:782-793 | the optimiser's layout when enabled, otherwise the fields as given at 8 bytes each |
| OptimizedVm.CacheHit | src/optimized_vm.rs:74-83 | a call hits exactly when it goes where the last call went; the target becomes the new one and exactly one counter goes up |
| OptimizedVm.RepeatedCallHits | src/optimized_vm.rs:74-83 | a call to the same target as the one before it always hits |
| OptimizedVm.HitsAreRepeats | src/optimized_vm.rs:74-91 | over a run of calls the hits are exactly the repeated targets and every other call is a miss |
| OptimizedVm.CallSiteCache.constructor | src/optimized_vm.rs:66-72 | a new cache has no target and zero counts |
| OptimizedVm.CallSiteCache.Hit | src/optimized_vm.rs:74-83 | returns and leaves what `CacheHit` gives |
| OptimizedVm.LoweringKeepsMeaning | src/optimized_vm.rs:152-208 | an inlined constant load carries exactly the pool's constant, and only integers, floats, strings and booleans are inlined |
| OptimizedVm.Lowered | src/optimized_vm.rs:134-150 | each instruction is lowered into exactly one, with the cache slots made before it |
| OptimizedVm.CallCountMonotone | src/optimized_vm.rs:134-150 | the number of calls, and so of caches, only grows along the code |
| OptimizedVm.CacheSlotsDistinct | src/optimized_vm.rs:134-197 | every call gets its own cache slot, numbered in order and within the caches made |
| OptimizedVm.Peephole | src/optimized_vm.rs:211-248 | the pass keeps the length of the code |
| OptimizedVm.PeepholeAt | src/optimized_vm.rs:211-248 | exactly the adds preceded by two integer constant loads become `AddIntInt`; every other instruction is unchanged |
| OptimizedVm.PeepholeIdempotent | src/optimized_vm.rs:211-248 | a second pass changes nothing |
| OptimizedVm.BuiltinStep | src/optimized_vm.rs:381-423 | each builtin keeps the stack depth on success; only `show` writes output; it underflows exactly on an empty stack |
| OptimizedVm.AddStep | src/optimized_vm.rs:278-313 | the typed adds pop two values and push their sum on the types they were lowered for, and fail with "Type mismatch in optimized add" otherwise |
| OptimizedVm.LocalStep | src/optimized_vm.rs:315-331 | a fast load needs the slot and pushes its value; a fast store needs a value and the slot and writes it |
| OptimizedVm.BranchStep | src/optimized_vm.rs:333-359 | a conditional jump pops the condition and jumps on its truthiness, otherwise falls through |
| OptimizedVm.OptStep | src/optimized_vm.rs:251-379 | one loop iteration: every step is counted and the status is one of continue, fail or panic |
| OptimizedVm.RunFrom | src/optimized_vm.rs:251-379 | the run stops with Ok when the pc leaves the code and ends at the first error |
| OptimizedVm.RunsOn | src/optimized_vm.rs:251-379 | a continuing step hands the rest of the fuel to the next instruction |
| OptimizedVm.RunsOut | src/optimized_vm.rs:251-256 | past the last instruction the run stops with the machine unchanged |
| OptimizedVm.AddIntIntAgreesWithAdd | src/optimized_vm.rs:278-293 | on two integers `AddIntInt` pushes what the base VM's `Add` computes, or panics where it does |
| OptimizedVm.LoadsRun | src/optimized_vm.rs:258-276 | two integer constant loads push both constants in order |
| OptimizedVm.OriginalFails | src/optimized_vm.rs:366-370 | an unoptimised instruction always fails: the single-instruction fallback is not implemented |
| OptimizedVm.FoldedAddRuns | src/optimized_vm.rs:258-293 | after folding, two constant loads and an add run to completion leaving the checked sum |
| OptimizedVm.FoldingRescuesConstantAdd | src/optimized_vm.rs:211-248 | the peephole pass changes behaviour: the folded program yields the sum where the unfolded one fails |
| OptimizedVm.ConditionalJumpsComplement | src/optimized_vm.rs:333-355 | on the same stack exactly one of the two conditional jumps is taken |
| OptimizedVm.OptimizedVM.constructor | src/optimized_vm.rs:123-131 | a new optimised VM has no optimised code and no caches |
| OptimizedVm.OptimizedVM.OptimizeInstructions | src/optimized_vm.rs:134-150 | the code becomes the peephole pass over the lowered instructions, with one cache per call |
| OptimizedVm.OptimizedVM.OptimizeSingleInstruction | src/optimized_vm.rs:152-208 | returns the lowered instruction and adds a cache exactly for a call |
| OptimizedVm.OptimizedVM.PeepholeOptimize | src/optimized_vm.rs:211-248 | the code becomes `Peephole` of the old code |
| OptimizedVm.OptimizedVM.ExecuteBuiltinFast | src/optimized_vm.rs:381-423 | leaves the machine `BuiltinStep` gives |
| OptimizedVm.OptimizedVM.ExecuteAdd | src/optimized_vm.rs:278-313 | leaves the machine `AddStep` gives |
| OptimizedVm.OptimizedVM.ExecuteLocal | src/optimized_vm.rs:315-331 | leaves the machine `LocalStep` gives |
| OptimizedVm.OptimizedVM.ExecuteBranch | src/optimized_vm.rs:333-359 | leaves the machine and pc `BranchStep` gives |
| OptimizedVm.OptimizedVM.ExecuteOne | src/optimized_vm.rs:256-377 | leaves the machine and pc `OptStep` gives |
| OptimizedVm.OptimizedVM.ExecuteOptimized | src/optimized_vm.rs:251-379 | returns and leaves the machine `RunFrom` gives from pc 0 |
| OptimizedVm.OptimizedVM.PopStack | src/optimized_vm.rs:463-465 | popping an empty stack gives nothing and leaves it empty; otherwise the top value is returned and removed |
| Specialized.Wrap | src/specialized_instructions.rs:162-179 | two's-complement wrap into i64: values in range are kept, and a single overshoot moves by exactly 2^64 |
| Specialized.WrapCongruent | src/specialized_instructions.rs:162-179 | wrapping changes a value only by a multiple of 2^64 |
| Specialized.TruncDivInRange | src/specialized_instructions.rs:181-189 | apart from MIN / -1, i64 division truncating toward zero stays in range |
| Specialized.IntResult | src/specialized_instructions.rs:160-189 | the stored integer equals the exact result when that fits in i64, and is congruent to it modulo 2^64 |
| Specialized.ArithmeticStep | src/specialized_instructions.rs:160-204 | the result goes to its register and counts one fast op; division by zero errors and changes nothing; MIN / -1 panics |
| Specialized.ForLoopStep | src/specialized_instructions.rs:207-230 | exits to the break target when the counter has reached the end, otherwise stores the advanced counter and enters the body |
| Specialized.TripsReachEnd | src/specialized_instructions.rs:207-230 | counting up, the body runs the least number of times that carries the counter to the end |
| Specialized.ForLoopUsesOneTrip | src/specialized_instructions.rs:207-230 | each pass exits exactly when no trips are left and otherwise leaves one trip fewer |
| Specialized.TailCallStep | src/specialized_instructions.rs:233-260 | refused with a depth error at the maximum; otherwise the top arguments move in order into the first registers and the depth goes up by one |
| Specialized.Zipped | src/specialized_instructions.rs:263-272 | zip forms as many triples as the shortest register list |
| Specialized.VectorSums | src/specialized_instructions.rs:263-272 | the step over k triples keeps the number of registers; it panics (None) only when a source register is out of range, or when an integer sum overflows i64 or its target is out of range; a triple whose sources are not both Integers leaves the registers as they are. The contents are stated by `VectorSumsKeepOthers` and `VectorSumsAdd` |
| Specialized.VectorPanicsPersist | src/specialized_instructions.rs:263-272 | once a triple panics the whole instruction does |
| Specialized.VectorSumsKeepOthers | src/specialized_instructions.rs:263-272 | a register no target names keeps its value |
| Specialized.VectorSumsAdd | src/specialized_instructions.rs:263-272 | a target no later triple overwrites, reading sources no earlier triple wrote, holds their sum |
| Specialized.Copied | src/specialized_instructions.rs:275-283 | the registers after k steps of the forward copy |
| Specialized.CopyMovesBlock | src/specialized_instructions.rs:275-283 | for non-overlapping ranges within the registers the copy is a block move and nothing else changes |
| Specialized.OverlappingCopySmears | src/specialized_instructions.rs:275-283 | for overlapping ranges copied forward the first value is smeared across the destination |
| Specialized.PredictedJumpStep | src/specialized_instructions.rs:302-316 | true jumps and counts a hit, false falls through and counts a miss, anything else is "Invalid condition type for jump" |
| Specialized.Step | src/specialized_instructions.rs:155-323 | the tail-call depth never goes down within a step; unhandled arms change nothing |
| Specialized.RunSequence | src/specialized_instructions.rs:286-293 | an inlined sequence runs its instructions in order and stops at the first that does not succeed |
| Specialized.StepKeepsDepthBound | src/specialized_instructions.rs:233-293 | no instruction, however deeply inlined, takes the depth past 1000 |
| Specialized.RunKeepsDepthBound | src/specialized_instructions.rs:286-293 | a sequence keeps the depth at most 1000 |
| Specialized.TailCallsUpToLimit | src/specialized_instructions.rs:233-260 | without a reset, a run of tail calls from depth d succeeds exactly when it has at most 1000 - d calls |
| Specialized.SpecializedExecutionContext.constructor | src/specialized_instructions.rs:109-115 | a context holds the given registers and stack, instruction pointer 0 and zero counters |
| Specialized.SpecializedExecutor.constructor | src/specialized_instructions.rs:143-150 | a new executor has depth 0 and a maximum of 1000 |
| Specialized.SpecializedExecutor.ResetTailCallDepth | src/specialized_instructions.rs:331-333 | the depth goes back to zero |
| Specialized.SpecializedExecutor.ExecuteSpecialized | src/specialized_instructions.rs:155-323 | leaves the context and depth `Step` gives |
| Specialized.SpecializedExecutor.ExecuteSequence | src/specialized_instructions.rs:286-293 | leaves what `RunSequence` gives |
| Specialized.SpecializedExecutor.ExecuteArithmetic | src/specialized_instructions.rs:160-204 | leaves what `ArithmeticStep` gives |
| Specialized.SpecializedExecutor.ExecuteForLoop | src/specialized_instructions.rs:207-230 | leaves what `ForLoopStep` gives |
| Specialized.SpecializedExecutor.ExecuteTailCall | src/specialized_instructions.rs:233-260 | leaves what `TailCallStep` gives |
| Specialized.SpecializedExecutor.ExecuteVectorAdd | src/specialized_instructions.rs:263-272 | leaves what `VectorSums` gives over all triples, or panics |
| Specialized.SpecializedExecutor.ExecuteBulkCopy | src/specialized_instructions.rs:275-283 | leaves what `Copied` gives |
| Specialized.SpecializedExecutor.ExecutePredictedJump | src/specialized_instructions.rs:302-316 | leaves what `PredictedJumpStep` gives |
| Specialized.OptimizeSequence | src/specialized_instructions.rs:358-404 | both pattern matchers fail, so the optimised sequence is always empty |
| Jit.LevelFor | src/jit.rs:335-341 | Maximum exactly above 10000 executions, Aggressive exactly above 2000 up to 10000, Basic otherwise |
| Jit.LevelMonotone | src/jit.rs:335-341 | a path executed more often is compiled at a level at least as high |
| Jit.GeneratedCode | src/jit.rs:379-442 | the placeholder code is made only of `nop` bytes (0x90) |
| Jit.CodeDoublesPerLevel | src/jit.rs:379-442 | 32, 64, 128, 256 bytes: each level up doubles the code |
| Jit.Allocated | src/jit.rs:599-607 | allocation adds exactly the code's length to the memory in use |
| Jit.Deallocated | src/jit.rs:609-612 | deallocation subtracts the size, saturating at zero |
| Jit.DeallocateUndoesAllocate | src/jit.rs:599-612 | releasing what was allocated restores the memory in use |
| Jit.JitMemoryManager.constructor | src/jit.rs:589-597 | nothing is in use and the collection threshold is 1 MiB |
| Jit.JitMemoryManager.AllocateExecutable | src/jit.rs:599-607 | the memory in use becomes `Allocated` of the old one |
| Jit.JitMemoryManager.Deallocate | src/jit.rs:609-612 | the memory in use becomes `Deallocated` of the old one |
| Jit.MoreAggressive | src/jit.rs:532-539 | one step up the ladder, saturating at Experimental |
| Jit.MoreConservative | src/jit.rs:541-548 | one step down the ladder, saturating at Conservative |
| Jit.LadderSteps | src/jit.rs:532-548 | the two steps undo each other away from the ends, and each moves exactly one rung or stays at its end |
| Jit.PerformanceScore | src/jit.rs:519-530 | the score is non-negative, and positive exactly when the count and the time are |
| Jit.ZeroBaselineOnlyDescends | src/jit.rs:493-517 | with the baseline left at 0.0 an analysis only ever steps down, exactly when time was recorded |
| Jit.AdaptiveOptimizer.constructor | src/jit.rs:493-505 | the strategy starts at Balanced with a baseline of 0.0 |
| Jit.AdaptiveOptimizer.AdjustStrategyMoreAggressive | src/jit.rs:532-539 | the strategy becomes `MoreAggressive` of the old one |
| Jit.AdaptiveOptimizer.AdjustStrategyMoreConservative | src/jit.rs:541-548 | the strategy becomes `MoreConservative` of the old one |
| Jit.AdaptiveOptimizer.AnalyzeAndOptimize | src/jit.rs:507-517 | the strategy becomes `Analyzed` of the old one: up below 90% of the baseline, down above 110% |
| Jit.CompiledPath | src/jit.rs:328-376 | compiling a registered path records a function at the level its count selects, marks the path compiled and charges the code's length |
| Jit.Compilation | src/jit.rs:328-334 | compiling an address without a hot path fails with "Hot path not found" |
| Jit.Counted | src/jit.rs:272-277 | one more execution and its time are recorded for the address |
| Jit.Detected | src/jit.rs:279-318 | at 100 executions an address gains a hot path |
| Jit.CompiledIfDue | src/jit.rs:285-292 | from 1000 executions an uncompiled hot path is compiled, adding exactly that function |
| Jit.AnalyzedIfDue | src/jit.rs:294-297 | from 10000 executions only the strategy may change |
| Jit.Profiled | src/jit.rs:271-298 | the count goes up by one, hot paths and compiled functions are only added, and an address counted 100 times has a hot path |
| Jit.ExecutedIfCompiled | src/jit.rs:445-455 | a compiled address yields a value and counts one more execution; nothing else changes |
| Jit.CountingKeepsPaths | src/jit.rs:271-298 | counting keeps the path clauses of the profiling invariant |
| Jit.DetectionRestoresInvariant | src/jit.rs:279-318 | a hot path is registered at exactly 100 executions |
| Jit.RegisteringKeepsPaths | src/jit.rs:301-318 | a new uncompiled path keeps the invariant's path clauses |
| Jit.CompilationKeepsInvariant | src/jit.rs:328-376 | compiling during profiling keeps the invariant |
| Jit.CompiledPathKeepsInvariant | src/jit.rs:335-373 | a path registered at 100 executions is compiled at Basic into 64 bytes |
| Jit.CompilingKeepsPaths | src/jit.rs:364-373 | compiled functions stay exactly the compiled paths and memory in use stays 64 bytes per function |
| Jit.ProfilingPreservesInvariant | src/jit.rs:271-298 | profiling keeps the invariant |
| Jit.ProfilingCompilesOnlyBasic | src/jit.rs:285-350 | under the invariant every compiled function is Basic with 64 bytes of code |
| Jit.ExecutionPreservesInvariant | src/jit.rs:445-455 | running compiled code keeps the invariant |
| Jit.JitCompiler.constructor | src/jit.rs:256-267 | a new compiler has the initial state |
| Jit.JitCompiler.ProfileInstruction | src/jit.rs:271-298 | leaves the state `Profiled` gives |
| Jit.JitCompiler.DetectIfDue | src/jit.rs:279-283 | leaves the state `Detected` gives |
| Jit.JitCompiler.CompileIfDue | src/jit.rs:285-292 | leaves the state `CompiledIfDue` gives |
| Jit.JitCompiler.AnalyzeIfDue | src/jit.rs:294-297 | leaves the state `AnalyzedIfDue` gives |
| Jit.JitCompiler.DetectHotPath | src/jit.rs:301-318 | registers a ten-instruction uncompiled path recording the current count |
| Jit.JitCompiler.CompileHotPath | src/jit.rs:328-376 | returns and leaves what `Compilation` gives |
| Jit.JitCompiler.ExecuteIfCompiled | src/jit.rs:445-455 | returns and leaves what `ExecutedIfCompiled` gives |
| Jit.ExecuteNative | src/jit.rs:625-658 | raises "Division by zero" exactly for a zero divisor, panics exactly for MIN / -1, and integer results stay in i64 |
| Jit.NativeAgreesWithRegisterExecutor | src/jit.rs:627-645 | native integer arithmetic stores what the register executor stores for the same operands |

## Left out

- Parsing.Parser.ParsePrimary: the `Parser` class and every grammar function use the corrected `primary` (`Parsing.PrimaryAt`). The routine as written (`Parsing.PrimaryAsWrittenAt`, src/parser.rs:547-568) is modelled and its failures are proved, but no parse entry point reaches it. So the modelled parser accepts `(1 + 2) * 3`, `(x) => x` and a big integer literal, which the source rejects. See "## Findings".
- Floating point: `Float` holds an exact real. IEEE rounding is not modelled, so the `as f64` conversions in mixed comparisons are exact here. For example, `Integer(2^53 + 1) == Float(2^53)` is true in the source and false in the model. The lexer reads a float literal as its exact decimal value.
- Ast.FloatText: prints a float with 17 truncated decimal places, where Rust prints the shortest text that reads back, e.g. "0.33333333333333333" here against "0.3333333333333333" in Rust.
- Object key order: objects are maps, and the displayed, listed and stringified keys come in sorted order. The source iterates a `HashMap` (src/value.rs:326-337, src/stdlib_modules/json.rs:364), whose order is unspecified.
- Integer overflow: the checked additions, subtractions and multiplications of the source promote to `BigInteger`. The operations that can still panic are modelled as a `Panic` outcome in the interpreter and a `Panic` status in the VMs. Examples are `BigInt::from_i64(i64::MIN)` during promotion and `i64::MIN % -1`. The pure operator functions require the operands not to panic. Plain, unchecked Rust arithmetic (`a + b` in the optimised VM's typed add, `i.abs()`, `base.pow(..)`, `-value` in `BigInt::from_i64`, `max - min` in `random_int`) is modelled as a debug build runs it, where overflow panics; a release build would wrap instead.
- BigNum.FromI64: requires `i64::MIN < value`, because `-value` overflows for `i64::MIN` (src/bigint.rs:31).
- StdLib.CallFunction: requires that the legacy builtin does not panic: `abs(i64::MIN)`, an overflowing integer `pow`, or a `str_substring` slice that is not at a character boundary.
- CryptoRandom.RandomIntFrom: requires that `max - min` fits in an `i64`, because the subtraction panics otherwise.
- CryptoRandom.RandomStringFrom: requires a non-negative length, because a negative one cast to `usize` asks for an impossibly long string.
- Vm.Execute: a `Call` of a function with a non-empty body ends the run with the status `Delegate`. The source hands such a body to a fresh tree-walking interpreter (src/bytecode.rs:918-941), which this model does not follow.
- Host builtins: the standard library's `host` parameter answers the builtins that touch the console, files, the clock, randomness, Unicode case mapping, string splitting and replacing, and floating-point rounding or roots. These are `print`, `println`, `input`, `str_upper`, `str_lower`, `str_trim`, `str_split`, `str_replace`, `random`, `read_file`, `write_file`, `file_exists`, `now`, `sleep`, `floor`, `ceil`, `round` and `sqrt`. The VM's parameter `pf` stands for Rust's float parsing.
- Values.FlowArray.Sort: the result is proved to be a permutation, and sorted when all elements are of one sortable kind. For mixed kinds the comparator calls unlike values equal, and the order the standard sort then gives is not modelled.
- Errors.ErrorTextIdentifiesKind: for a `Return` error the text shows the value with its display text. The source uses Rust's Debug text, which is not modelled.
- Imports: `import` executes as a no-op. The source's `handle_import` and its helpers (src/interpreter.rs:69-268) take a module path and an import list that the syntax tree's `Import(String)` does not carry. Module functions reach the interpreter through its `Library` parameter.
- Interpreter method calls: `call_method` and `call_lambda_with_params` are functions of the evaluation with no contract of their own. The lemmas speak of whole programs and of the array methods.
- Fuel: the parser, the interpreter and the virtual machines take a step or depth bound. Running out is `Overflow` in the parser, `NoFuel` in the interpreter and `OutOfFuel` in the VMs. It stands for the source's unbounded recursion, stack overflow or non-termination.
- JSON round trip: `JsonProperties.StringifyParse` covers values without floats whose integers are all `i64`. A float is written with Rust's float formatting, which is not modelled, and a big integer is written as its digits and read back as a float.
- hash_string (src/stdlib_modules/crypto.rs:7-21): it uses the standard library's SipHash `DefaultHasher`, which is not part of this model.
- HTTP: `http_get`, `http_post`, `http_put`, `http_delete` and `make_http_request` (src/stdlib_modules/net.rs:8-160) use the network.
- Bytecode VM garbage collection: `maybe_gc`, `collect_garbage`, `mark_roots`, `mark_value` and `sweep_unmarked` (src/bytecode.rs:440-530) work on raw pointers and free nothing the model could observe. Statistics and report printing are left out too.
- Memory manager: `collect_old_generation`, marking from roots, `add_root`, `remove_root` and `should_promote` are left out. Cycle detection (`detect_cycles`, `find_cycle_from`, `dfs_cycle_detection`), `force_gc` and `collect_cycle` are left out. So are the array and object pools of `AdvancedMemoryManager` (`acquire_array`, `release_array`, `acquire_object`, `release_object`, src/memory.rs:699-725) and the `MemoryManagement` trait (src/memory.rs:810). These work on raw pointers and boxed collections.
- Memory statistics: `stats`, `get_stats`, `get_memory_stats`, `estimate_memory_saved`, `calculate_fragmentation_ratio` and the access-pattern ratios are floating point or reporting only.
- Memory.ValueInterner: `should_intern` counts requests by pointer, so the model takes its answer as a parameter.
- Memory.GenerationalGC.CollectYoungGeneration: no root is ever registered within the manager, so every young object is freed. The young generation's size is never lowered, as in the source.
- Optimised VM: `get_execution_stats` and `print_performance_report` are left out as reporting. The helpers of the `VMExtensions` trait (src/optimized_vm.rs:448-503) are modelled inline rather than as members of their own: `set_local`'s bounds error in `OptimizedVm.LocalStep`, `is_truthy` in `OptimizedVm.BranchStep`, and `execute_single_instruction`'s "not implemented" error in `OptimizedVm.OptStep`. `pop_stack` is `OptimizedVm.OptimizedVM.PopStack`; only the plain accessors `push_stack`, `get_local` and `get_constant` have no members of their own.
- Specialised instructions: `get_stats`, `register_patterns` (an empty body), the performance analyser's `record_execution` and `get_performance_report` are left out. They are durations and report strings.
- JIT: execution durations and average times are left out as wall-clock values. Native code pointers and entry points are left out too, and so are `get_stats`, the `JitIntegration` trait (src/jit.rs:662-666), the code pages and free blocks of `JitMemoryManager`, and the tail-call optimiser, optimisation cycle and garbage collection (src/jit.rs:473-620), whose bodies do nothing observable. Execution counters are unbounded rather than `u32`. Floating-point sums and products in the executed instructions are exact reals. `find_hot_path_end` is the start address plus 10, as in the source.
- value.rs: `with_capacity` is only a capacity hint, and the `Display` of `FlowArray` and `FlowObject` (src/value.rs:349-375) is the value display of `Values.ValueText`.
- flowfmt: the command line of `main` (reading the file or standard input, `--check`, `--output`, the exit codes) is I/O. Python's `\w` is read as ASCII letters, digits and `_`.
- benchmark.py: the timing loop and printing at the end of the file use the clock and the console.

## Findings

| source | as written | input that shows it | evidently intended | confidence | as-written member | corrected member |
|---|---|---|---|---|---|---|
| src/bigint.rs:60-65 | `from_string` pushes a leading zero limb, so the number stored is the numeral's value times 10⁹ | "5" is stored as 5000000000 | the number the numeral spells, so that `from_string(display(b)) == b` | not executed | BigNum.FromStringMisreads | BigNum.DisplayRoundTrip |
| src/parser.rs:547-568 | the `(` arm of `primary` advances a second time before the inner expression or lambda, and there is no arm for a `BigInteger` token | "(-1)" parses as 1; "(x) => x" fails; a big integer literal is "Expected expression" | the whole bracketed expression, lambdas after `(`, and big integer literals | not executed | ParsingProperties.GroupingAsWrittenDropsFirstToken | ParsingProperties.GroupingKeepsFirstToken |
| src/stdlib_modules/net.rs:225 | `url_decode` pushes each plain character as `ch as u8`, keeping only its low byte | "é" fails with "Invalid UTF-8 in decoded URL"; "Ā" decodes to NUL | the character's UTF-8 bytes, so that decoding gives back any text | not executed | Net.AsWrittenLosesNonAscii | Net.DecodeEncode |
