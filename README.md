# Mango assembler simulator, modelled in Dafny

This project models the core of the Mango assembler simulator, an 8-bit educational machine written in TypeScript:

- **Memory.** 256 byte cells. Reads and writes are range-checked, and every write is truncated to its low byte.
- **ALU.** Eight byte operations. Each returns a result together with its zero, carry, overflow and negative flags.
- **Opcodes and the instruction table.** The opcode numbering, and the table of mnemonics with their arity (unary, binary).
- **Operand readers.** The line pattern that splits a source line into label, mnemonic and two operands. Then `parseNumber`, `parseRegister`, `parseLabel`, `getValue` and `getArguments`. There are three copies of these readers:
  - the string-tagged copy the assembler uses;
  - the enum-tagged interpreter, with its own `parseInstruction` opcode table;
  - the tokenizer, a near-copy of the enum-tagged interpreter.
- **The two-pass assembler.** The first pass splits the source into lines, binds labels, checks operand counts, selects each opcode from the operand kinds, and appends the code cells. The second pass replaces label names by their offsets.
- **The CPU.** `fetch` loads the opcode at PC into IR. `execute` performs every opcode through MAR/MBR register transfers: MOV, ADD, SUBT, INC, DEC, CMP, the jumps, CALL, RET, PUSH, POP, AND, OR, XOR, SHL, SHR, NOT and HLT.

## How it is modelled

Each source file becomes one module:

| module | file | source |
|---|---|---|
| `Base` | `base.dfy` | shared bytes, results and error kinds |
| `MemoryUnit` | `memory.dfy` | `emulator/memory.ts` |
| `Alu` | `alu.dfy` | `emulator/alu.ts` |
| `Opcodes` | `opcodes.dfy` | `src/emulator/opcodes.ts` |
| `InstructionSet` | `instructions.dfy` | `src/emulator/instructions.ts` |
| `Lexer` | `lexer.dfy` | the line pattern |
| `Operands` | `operands.dfy` | `src/emulator/interpreter.ts` |
| `EnumInterpreter` | `enum_interpreter.dfy` | `emulator/interpreter.ts` |
| `Tokenizer` | `tokenizer.dfy` | `src/emulator/tokenizer.ts` |
| `Assembler` | `assembler.dfy` | `src/emulator/assembler.ts` |
| `Cpu` | `cpu.dfy` | `src/emulator/cpu.ts` |
| `Programs` | `programs.dfy` | whole programs from the repository's unit tests, assembled and run |

**Classes.** The objects the source updates in place are classes:
- `Memory`, over a 256-cell array;
- `Assembler`, with its `code`, `labels` and `mapping` fields;
- `Cpu`, with its registers, flags and a four-cell register array.

**Spec functions.** Each method is proved against a function on values:
- `ReadCell` and `WriteCell` for memory;
- `AddLabelSpec`, `LineStep`, `Pass1`, `Resolve` and `AssembleSpec` for the assembler;
- `FetchSpec`, `Run` and `Step` over the `Machine` datatype for the CPU.

The lemmas then state what those functions mean:
- round trips;
- the effect of each instruction;
- the error cases;
- complete assemblies and runs of small programs.

**Errors.** Every exception the source throws is an `Err` of a `Base.Error` kind.

**Numbers.** Numbers are unbounded integers. The source's truncations are written out: `& 0xFF`, JavaScript's 32-bit shifts, and `>>>`.

**One shared decision table.** The two copies of `parseInstruction` share one decision table, `EnumInterpreter.ParseInstruction`. It follows the source's if-chain case by case.

## Model

| member | source | states |
|---|---|---|
| MemoryUnit.Zeroes | emulator/memory.ts:15-17 | fresh or reset memory is 256 cells, all zero |
| MemoryUnit.CheckRange | emulator/memory.ts:4-8 | an address passes exactly when 0 <= addr < len; otherwise the error is an access violation naming the address |
| MemoryUnit.ReadCell | emulator/memory.ts:19-22 | `read`: the byte at an address inside the memory, otherwise the access violation for that address (ReadAfterWrite and AccessWindow state its meaning) |
| MemoryUnit.WriteCell | emulator/memory.ts:24-27 | `write`: the memory with the one cell replaced by the value's low byte, otherwise the access violation (ReadAfterWrite, AccessWindow) |
| MemoryUnit.ReadAfterWrite | emulator/memory.ts:19-27 | after a write, reading the same address yields the value masked to a byte; every other address reads as before |
| MemoryUnit.AccessWindow | emulator/memory.ts:19-27 | reads and writes succeed exactly for addresses 0..255; a failed write reports its address |
| MemoryUnit.MaskKeepsLowByte | emulator/memory.ts:26 | `& 0xFF` ignores multiples of 256 and keeps bytes; 0x10000 stores 0 and -1 stores 0xFF |
| MemoryUnit.Memory.constructor | emulator/memory.ts:10-13 | a new memory holds 256 zero cells |
| MemoryUnit.Memory.Reset | emulator/memory.ts:15-17 | after the fill loop every cell is zero |
| MemoryUnit.Memory.Read | emulator/memory.ts:19-22 | the result is ReadCell of the cells: the byte there, or the access violation |
| MemoryUnit.Memory.Write | emulator/memory.ts:24-27 | on success the cells become WriteCell of the old cells; on failure nothing changes and the error is the range error |
| Alu.BinaryFlags | emulator/alu.ts:12-23 | every binary operation reports zero iff the byte result is 0 and negative iff it is >= 128; carry is never set; overflow is the shared sign-bit rule |
| Alu.Binary | emulator/alu.ts:12-23 | a binary ALU call: the byte result of SumOf together with the flags BinaryFlags states |
| Alu.SumOf | emulator/alu.ts:36-111 | the byte each operation computes: `+` and `-` modulo 256, the bitwise operations, and the shifts with JavaScript's count masking (AddSubInverse, XorInvolution, AndOrIdentities, ShiftsAreArithmetic) |
| Alu.Not | emulator/alu.ts:25-34 | `not`: the complement and its flags, as NotComplement states |
| Alu.ShiftLeft | emulator/alu.ts:69-78 | `(x << n) & 0xFF` on 32-bit integers (ShiftsAreArithmetic, WideShiftsClear) |
| Alu.ShiftRight | emulator/alu.ts:80-89 | `x >>> n` on 32-bit integers (ShiftsAreArithmetic, WideShiftsClear) |
| Alu.ShiftsAreArithmetic | emulator/alu.ts:69-89 | for counts below 8, SHL gives x * 2^n modulo 256 and SHR gives x / 2^n rounded down |
| Alu.NotComplement | emulator/alu.ts:25-34 | NOT gives 255 - x, zero iff x = 255, negative iff x < 128, never carry or overflow, and is an involution |
| Alu.NotMatchesVector | emulator/alu.ts:26 | `(~x) & 0xFF` equals the 8-bit complement of x |
| Alu.AddOverflowIsSignedOverflow | emulator/alu.ts:91-100 | ADD overflows exactly when the signed sum leaves -128..127; otherwise the result read as signed is that sum |
| Alu.SubOverflowComparesUnnegatedOperands | emulator/alu.ts:102-111 | SUB's overflow compares the sign bits of the operands, not of the negated operand: 1-2 reports overflow without a signed overflow, and 0x80-1 reports none although it overflows |
| Alu.AddSubInverse | emulator/alu.ts:91-111 | subtraction undoes addition and addition undoes subtraction, modulo 256 |
| Alu.SubIsAddOfNegation | emulator/alu.ts:102-111 | x - y is x + (256 - y) modulo 256 |
| Alu.XorInvolution | emulator/alu.ts:58-67 | x xor x is zero, and xor-ing twice with y gives x back |
| Alu.AndOrIdentities | emulator/alu.ts:36-56 | AND with 0xFF and OR with 0 keep x; AND with 0 gives 0; OR with 0xFF gives 0xFF |
| Alu.WideShiftsClear | emulator/alu.ts:69-89 | a shift count whose value modulo 32 is 8 or more clears the byte and sets zero |
| Alu.ShiftCountIsModular | emulator/alu.ts:69-89 | shift counts n and n + 32 give the same result, as JavaScript masks the count |
| Alu.ArithmeticExamples | tests/alu.test.ts:11-86 | the repository's ADD and SUBT examples, with every flag |
| Alu.LogicExamples | tests/alu.test.ts:87-180 | the AND, OR, XOR and NOT examples |
| Alu.ShlExamples | tests/alu.test.ts:181-213 | the SHL examples, including a shift into the sign bit |
| Alu.ShrExamples | tests/alu.test.ts:214-235 | the SHR examples |
| Opcodes.DecodeEncode | src/emulator/opcodes.ts:1-101 | decoding the opcode of every instruction form gives that form back |
| Opcodes.Encode | src/emulator/opcodes.ts:1-101 | the opcode constant of each instruction form; DecodeEncode, EncodeInjective and FamilyLayout state its properties |
| Opcodes.Decode | src/emulator/opcodes.ts:1-101 | the form each opcode selects in the CPU's switch, or none outside 0x00-0x24 and 0x2F-0x4B (EncodeDecode, AssignedCodes) |
| Opcodes.Size | src/emulator/instructions.ts:3-48 | the bytes a form occupies: the opcode and one per operand, matching the table's arity (Assembler.SpellingArity) |
| Opcodes.EncodeDecode | src/emulator/opcodes.ts:1-101 | encoding a decoded opcode gives the opcode back |
| Opcodes.AssignedCodes | src/emulator/opcodes.ts:1-101 | exactly 0x00-0x24 and 0x2F-0x4B are opcodes |
| Opcodes.EncodeInjective | src/emulator/opcodes.ts:1-101 | no two instruction forms share an opcode |
| Opcodes.FamilyLayout | src/emulator/opcodes.ts:14-100 | each operation's four source forms are consecutive (register, address, register address, number); each REGADDR jump or call follows its ADDR form |
| InstructionSet.TableShape | src/emulator/instructions.ts:3-48 | no mnemonic is both unary and binary; exactly HLT and RET take no operand; exactly MOV, ADD, SUBT, CMP, AND, OR, XOR, SHL and SHR take two |
| InstructionSet.Lookup | src/emulator/instructions.ts:3-48 | `InstructionSet[keyword]`: the descriptor of a listed mnemonic, none otherwise (TableShape, TableKeysUpper) |
| InstructionSet.Arity | src/emulator/instructions.ts:3-48 | the operand count a descriptor calls for: 2 if binary, 1 if unary, else 0 (TableShape) |
| InstructionSet.TableKeysUpper | src/emulator/instructions.ts:3-48 | every key is upper case, so only upper-cased mnemonics are found |
| Lexer.LabelEnd | src/emulator/interpreter.ts:21 | the label group: a letter, word characters, then a colon |
| Lexer.InterpretLine | src/emulator/interpreter.ts:21-26 | `interpretLine`: the label, mnemonic and operand groups of the line pattern (RenderRoundTrip and the examples state what it reads) |
| Lexer.SkipSpace | src/emulator/interpreter.ts:21 | `\s*`: the end of the longest run of white space from i |
| Lexer.WordEnd | src/emulator/interpreter.ts:21 | `\w*`: the end of the longest run of word characters from i |
| Lexer.ClosingQuote | src/emulator/interpreter.ts:21 | the lazy `.+?` stops at the first closing quote and never crosses a line terminator |
| Lexer.RenderRoundTrip | src/emulator/interpreter.ts:21-26 | for well-formed label, mnemonic and operands, the line pattern applied to their canonical spelling, optionally followed by a comment, gives those fields back |
| Lexer.IndentedStatementRoundTrip | src/emulator/interpreter.ts:21-26 | white space before an unlabelled statement is skipped: the indented canonical spelling gives the fields back |
| Lexer.IndentedLabelLine | src/emulator/interpreter.ts:21-26 | a label alone on its line, after any white space, is read as that label with no mnemonic and no operands |
| Lexer.LabelledLineExample | src/emulator/interpreter.ts:21-26 | `label: push a, b ;comment` splits into label, mnemonic and two operands; the comment is ignored |
| Lexer.TwoOperandLineExample | src/emulator/interpreter.ts:21-26 | `push a, b` has no label and two operands |
| Lexer.OneOperandLineExample | src/emulator/interpreter.ts:21-26 | `push a` has one operand and no second one |
| Lexer.BracketLineExample | src/emulator/interpreter.ts:21-26 | `push [a], b` keeps the brackets in the operand |
| Lexer.StringLineExample | src/emulator/interpreter.ts:21-26 | `DB "string"` keeps the quotes in the operand |
| Lexer.EmptyLineExample | src/emulator/interpreter.ts:21-26 | an empty line has no group at all |
| Operands.ParseNumber | src/emulator/interpreter.ts:28-69 | in the assembler's copy an accepted literal is a byte 0..255 or, because the range test re-parses the value's decimal spelling, at least 10^21; in the enum-tagged copies it is a byte; a rejected literal fails with a format error naming the input or with "too high" |
| Operands.NotationsRoundTrip | src/emulator/interpreter.ts:28-69 | every natural number printed in each notation (`0x`, `$`, `b`, `o`, `d`, plain) gives, in each copy, exactly the copy's range test on that number: the number itself, or "too high" |
| Operands.RangeCheck | src/emulator/interpreter.ts:58-66 | a literal of value v is accepted by the assembler's copy exactly when 0 <= v <= 255 or v >= 10^21, and by the enum-tagged copies exactly when 0 <= v <= 255 |
| Operands.LeadingDigit | src/emulator/interpreter.ts:58 | the first decimal digit of a positive number, 1..9 |
| Operands.Reparsed | src/emulator/interpreter.ts:58 | `parseInt(value, 10)`: the value itself below 10^21 in magnitude, otherwise the signed leading digit of its exponent spelling |
| Operands.RangeTests | src/emulator/interpreter.ts:58-66 | the assembler's range test passes exactly for 0..255 and for 10^21 and above; the enum-tagged test exactly for 0..255 |
| Operands.ParseNumberCopies | emulator/interpreter.ts:363-401 | the enum-tagged parseNumber is the assembler's, except that a value of 10^21 or more, which the assembler accepts, is refused as too high |
| Operands.ExponentFormExample | src/emulator/interpreter.ts:58-66 | the decimal spelling of 10^21 is accepted by the assembler's copy and refused as too high by the enum-tagged copy |
| Operands.SignedDecimalAt | src/emulator/interpreter.ts:50-54 | a signed decimal, with or without `d`, reads as its signed value |
| Operands.BinaryExamples | src/emulator/interpreter.ts:43-44 | `101b` is 5; `100000000b` is too high |
| Operands.OctalExamples | src/emulator/interpreter.ts:46-47 | `100o` is 64; `400o` is too high |
| Operands.HexExamples | src/emulator/interpreter.ts:38-42 | `0xA4` and `$A4` are 164; `0xFFF` and `$FFF` are too high |
| Operands.DecimalExamples | src/emulator/interpreter.ts:49-52 | `200` and `200d` are 200 |
| Operands.SignedExamples | src/emulator/interpreter.ts:49-66 | `+200` is 200; `-200` is refused as out of range |
| Operands.MalformedExample | src/emulator/interpreter.ts:53-56 | `12x` is a format error |
| Operands.ParseRegisterNames | src/emulator/interpreter.ts:71-87 | a token names register i exactly when its upper-case spelling is A, B, C, D or SP for i = 0..4 |
| Operands.ParseLabelMatchesLabelGroup | src/emulator/interpreter.ts:89-92 | parseLabel accepts exactly the names the line pattern's label group accepts, and returns the name itself |
| Operands.Inner | src/emulator/interpreter.ts:96 | the text between the first and the last character, empty for tokens shorter than two |
| Operands.CharCodes | src/emulator/interpreter.ts:111-117 | `charCodeAt` over the text: its UTF-16 code units in order, one for a character below 0x10000 and a surrogate pair above; at least one unit per character |
| Operands.Utf16 | src/emulator/interpreter.ts:111-117 | one character's code units: itself below 0x10000, otherwise a high surrogate followed by a low surrogate |
| Operands.CharCodesRoundTrip | src/emulator/interpreter.ts:111-117 | the code units of any text are well-formed UTF-16 and decode back to the text |
| Operands.FromUtf16RoundTrip | src/emulator/interpreter.ts:111-117 | every well-formed UTF-16 sequence is the code units of its decoding |
| Operands.SingleUnitCodes | src/emulator/interpreter.ts:118-123 | a text has exactly one code unit exactly when it is one character below 0x10000 that is no surrogate |
| Operands.SurrogatePairExample | src/emulator/interpreter.ts:111-117 | U+1F600 gives the two units 0xD83D and 0xDE00 |
| Operands.ParseRegister | src/emulator/interpreter.ts:71-87 | `parseRegister`: the register index of A, B, C, D or SP in any case, none otherwise (ParseRegisterNames) |
| Operands.RegisterNameReads | src/emulator/interpreter.ts:71-87 | the name of each register 0..4 reads back as that register |
| Operands.ParseLabel | src/emulator/interpreter.ts:89-92 | `parseLabel`: the token itself when it has the label shape (ParseLabelMatchesLabelGroup) |
| Operands.GetValue | src/emulator/interpreter.ts:94-139 | `getValue` for a copy: the kind and value of an operand token, or the first error (GetValueWellFormed, GetValueRoundTrip, GetValueCopies) |
| Operands.GetArguments | src/emulator/interpreter.ts:141-171 | `getArguments`: the operand-count check against the arity, then one classified operand per required operand (GetArgumentsArity) |
| Operands.GetValueWellFormed | src/emulator/interpreter.ts:94-139 | every operand the assembler's copy classifies is well formed: registers 0..4, numbers that are bytes or at least 10^21, label names that are not register names, a character as one UTF-16 unit that is no surrogate, a string as well-formed UTF-16 |
| Operands.GetValueRoundTrip | src/emulator/interpreter.ts:94-139 | every well-formed operand is classified back from its canonical token |
| Operands.GetValueCopies | emulator/interpreter.ts:426-471 | the enum-tagged getValue gives the assembler's result, except for a number of 10^21 or more, which it refuses as too high |
| Operands.NumeralOperandAt | src/emulator/interpreter.ts:94-139 | a decimal byte, bare or bracketed, is a number or an address with that value |
| Operands.DecimalIsNumber | src/emulator/interpreter.ts:71-92 | a decimal numeral is neither a register nor a label |
| Operands.HexLiteralExample | src/emulator/interpreter.ts:28-92 | `0x64` is 100, not a register and not a label |
| Operands.GetValueBracketExamples | src/emulator/interpreter.ts:96-110 | `[a]` is a register address, `[0x64]` a numeric address, `[x]` a label address |
| Operands.GetValueQuotedExamples | src/emulator/interpreter.ts:111-123 | `"ab"` is a string of codes, `'a'` a character, `'ab'` is refused as too long, and so is a quoted U+1F600, which is two UTF-16 units |
| Operands.GetValueBareExamples | src/emulator/interpreter.ts:124-137 | `a` is a register, `0x64` a number, and a label is a number-kind name |
| Operands.GetArgumentsArity | src/emulator/interpreter.ts:141-171 | for a listed mnemonic the count error arises exactly when the operands present do not fit the arity; otherwise one classified operand per required operand, or the first classification error |
| EnumInterpreter.TypeCode | emulator/interpreter.ts:12-21 | each operand kind has a tag distinct from None and Opcode |
| EnumInterpreter.TypeCodeRoundTrip | emulator/interpreter.ts:12-21 | every tag reads back as its kind; None and Opcode stand for no kind |
| EnumInterpreter.EnumGetValue | emulator/interpreter.ts:426-471 | `getValue` with numeric tags and the enum-tagged range test (EnumGetValueAgrees) |
| EnumInterpreter.EnumGetArguments | emulator/interpreter.ts:473-500 | `getArguments` with both operands starting as the None placeholder (EnumGetArgumentsAgrees) |
| EnumInterpreter.EnumGetValueAgrees | emulator/interpreter.ts:363-471 | where the assembler's getValue fails the enum one fails with the same error; where both succeed they have the same kind and payload; the enum one fails where the assembler's succeeds exactly for a number of 10^21 or more, which it refuses as too high |
| EnumInterpreter.EnumGetArgumentsAgrees | emulator/interpreter.ts:473-500 | the enum getArguments is the shared one with the enum-tagged range test, numeric tags, and absent operands filled by the None placeholder |
| EnumInterpreter.ParseInstructionAgrees | emulator/interpreter.ts:73-349 | apart from SUBT and DB, parseInstruction gives the assembler's opcode for every mnemonic and operand kinds, and the same error where the assembler fails |
| EnumInterpreter.ParseInstruction | emulator/interpreter.ts:73-349 | `parseInstruction`'s if-chain: the opcode for the mnemonic and the operand kinds, or the unsupported-operands or invalid-instruction error (ParseInstructionAgrees, SubtCollapses, DbIsHalt, InvalidKeywords) |
| EnumInterpreter.AgreeMov | emulator/interpreter.ts:98-121 | MOV's eight forms and its refusals agree with the assembler |
| EnumInterpreter.AgreeArith | emulator/interpreter.ts:122-134 | the register-destination operations other than SUBT agree with the assembler |
| EnumInterpreter.AgreeCmp | emulator/interpreter.ts:163-176 | CMP agrees with the assembler |
| EnumInterpreter.AgreeRegisterOnly | emulator/interpreter.ts:148-162 | INC, DEC, POP and NOT agree with the assembler |
| EnumInterpreter.AgreeJump | emulator/interpreter.ts:177-240 | every jump agrees with the assembler |
| EnumInterpreter.AgreeCall | emulator/interpreter.ts:262-270 | CALL agrees with the assembler |
| EnumInterpreter.AgreePush | emulator/interpreter.ts:241-253 | PUSH agrees with the assembler |
| EnumInterpreter.AgreeUnknown | emulator/interpreter.ts:346-348 | a word with no case is an invalid instruction in both tables |
| EnumInterpreter.SubtCollapses | emulator/interpreter.ts:135-147 | every SUBT form the assembler accepts becomes SUBT_NUM_FROM_REG, which the CPU runs as a subtraction of an immediate |
| EnumInterpreter.SubtExample | emulator/interpreter.ts:135-147 | `SUBT A, B` gives 0x10, not 0x0D |
| EnumInterpreter.DbIsHalt | emulator/interpreter.ts:77-95 | DB falls through to HLT's case and yields NONE |
| EnumInterpreter.InvalidKeywords | emulator/interpreter.ts:73-349 | parseInstruction reports an invalid instruction exactly for unlisted words, MUL and DIV |
| Tokenizer.TokenCode | src/emulator/tokenizer.ts:12-20 | each operand kind has a token number above Opcode |
| Tokenizer.TokenCodeRoundTrip | src/emulator/tokenizer.ts:12-20 | every token reads back as its kind; Opcode stands for no kind |
| Tokenizer.TokenGetValue | src/emulator/tokenizer.ts:425-470 | `getValue` with Token tags and the enum-tagged range test |
| Tokenizer.TokenGetArguments | src/emulator/tokenizer.ts:472-499 | `getArguments` with operands the descriptor does not call for left undefined (TokenGetArgumentsAgrees) |
| Tokenizer.TokenParseInstruction | src/emulator/tokenizer.ts:72-349 | `parseInstruction` on the kinds the Token tags show (CopiesAgree, JumpOperands, CallOperands, SubtTable) |
| Tokenizer.TokenGetArgumentsAgrees | src/emulator/tokenizer.ts:472-499 | the tokenizer's getArguments is the shared one with the enum-tagged range test, Token tags, and absent operands left undefined |
| Tokenizer.KindsSeen | src/emulator/tokenizer.ts:44-71 | the type tests see the same kind through Token tags as through enum tags |
| Tokenizer.CopiesAgree | src/emulator/tokenizer.ts:72-349 | the tokenizer and the enum interpreter choose the same opcode or error for every line |
| Tokenizer.JumpOperands | src/emulator/tokenizer.ts:176-237 | a jump is accepted exactly for a number or a register address; a bracketed address is refused |
| Tokenizer.CallOperands | src/emulator/tokenizer.ts:261-268 | CALL is accepted exactly for a number or a register address |
| Tokenizer.SubtTable | src/emulator/tokenizer.ts:134-145 | SUBT is accepted exactly for a register and a source kind, and always yields SUBT_NUM_FROM_REG |
| Assembler.LineEnd | src/emulator/assembler.ts:47 | the first line feed at or after i, or the end |
| Assembler.SplitLines | src/emulator/assembler.ts:47 | a split has at least one line |
| Assembler.JoinSplit | src/emulator/assembler.ts:47 | joining the split lines with line feeds gives the source back |
| Assembler.SplitHasNoFeeds | src/emulator/assembler.ts:47 | no split line contains a line feed |
| Assembler.SplitJoin | src/emulator/assembler.ts:47 | lines without line feeds are recovered by splitting their join |
| Assembler.SpellingSelects | src/emulator/assembler.ts:78-401 | every instruction form is selected by its own mnemonic and operand kinds, which the table gives the form's arity |
| Assembler.SelectInstr | src/emulator/assembler.ts:78-401 | the opcode switch: the form for the mnemonic and operand kinds, or the unsupported-operands or invalid-instruction error (SelectInstrIsSpelling, SelectedIsSpelled, InvalidMnemonics) |
| Assembler.EmitInstruction | src/emulator/assembler.ts:78-401 | the cells one line appends: DB's data, or the opcode and its operand cells (EmitLayout, DataSizes) |
| Assembler.AddLabelSpec | src/emulator/assembler.ts:25-36 | `addLabel` on values: the duplicate and register-name errors, or the label bound to the code length (AddLabelRules) |
| Assembler.LineStep | src/emulator/assembler.ts:63-75 | one line of the first pass: its label, then its cells and its mapping entry, or its error (LineStepGrows) |
| Assembler.Pass1 | src/emulator/assembler.ts:50-404 | the first pass over the first n lines, stopping at the first error (Pass1Grows, Pass1Stops) |
| Assembler.Resolve | src/emulator/assembler.ts:406-416 | the second pass: every name replaced by its label's offset, or the first undefined label (ResolveAll, ResolveFirstError) |
| Assembler.AssembleSpec | src/emulator/assembler.ts:38-433 | `assemble` on values: split, analyse, both passes; the result or the first error (Assembler.Assembler.Assemble, Programs) |
| Assembler.SpellingArity | src/emulator/instructions.ts:3-48 | the table's arity of each form's mnemonic matches the form's size |
| Assembler.SelectInstrIsSpelling | src/emulator/assembler.ts:78-401 | on operands shaped by getArguments, the switch selects form i exactly when i is spelt with that mnemonic and those kinds |
| Assembler.SelectedIsSpelled | src/emulator/assembler.ts:78-401 | whatever the switch selects is spelt with the mnemonic and kinds it was given |
| Assembler.SelectedMov | src/emulator/assembler.ts:106-128 | MOV's selection is the form spelt with those kinds |
| Assembler.SelectedArith | src/emulator/assembler.ts:132-161 | ADD/SUBT/AND/OR/XOR/SHL/SHR select the form spelt with those kinds |
| Assembler.SelectedCmp | src/emulator/assembler.ts:181-195 | CMP selects the form spelt with those kinds |
| Assembler.SelectedRegisterOnly | src/emulator/assembler.ts:162-179 | INC, DEC, POP and NOT select their register form |
| Assembler.SelectedJump | src/emulator/assembler.ts:197-273 | each jump selects its ADDR or REGADDR form |
| Assembler.SelectedCall | src/emulator/assembler.ts:300-310 | CALL selects its ADDR or REGADDR form |
| Assembler.SelectedPush | src/emulator/assembler.ts:275-289 | PUSH selects the form of its source kind |
| Assembler.SelectedNullary | src/emulator/assembler.ts:100-104 | HLT and RET always select their form |
| Assembler.MovSelects | src/emulator/assembler.ts:106-128 | each MOV form is chosen by its destination and source kinds |
| Assembler.ArithSelects | src/emulator/assembler.ts:132-161 | each operation's form is chosen by a register destination and its source kind |
| Assembler.JumpSelects | src/emulator/assembler.ts:197-273 | a number selects a jump's ADDR form, a register address its REGADDR form |
| Assembler.InvalidMnemonics | src/emulator/assembler.ts:400-401 | "Invalid instruction" arises exactly for mnemonics outside the table and for MUL, DIV and DB |
| Assembler.EmitLayout | src/emulator/assembler.ts:78-401 | an emitted instruction starts with the opcode that decodes to the selected form, then holds one cell per operand in order, and its length is 1 plus the mnemonic's arity |
| Assembler.DataSizes | src/emulator/assembler.ts:81-97 | DB accepts exactly numbers, characters and strings: one cell for a number or character, one per character code of a string |
| Assembler.AddLabelRules | src/emulator/assembler.ts:25-36 | a label is accepted exactly when it is unbound and is not A, B, C or D in any case; it then denotes the current code length and nothing else changes; SP is accepted |
| Assembler.AnalyseLinesAt | src/emulator/assembler.ts:50-55 | the analysis of the lines holds each line's own analysis at its index |
| Assembler.Pass1Stops | src/emulator/assembler.ts:50-404 | the first failing line ends the first pass with its error |
| Assembler.LineStepGrows | src/emulator/assembler.ts:63-75 | one line keeps labels and mapping inside the code, only appends, binds its label to the offset of its first cell and maps that offset to its line |
| Assembler.Pass1Grows | src/emulator/assembler.ts:50-404 | the first pass only appends, and every prefix of it succeeded with a prefix of the code |
| Assembler.ResolveAll | src/emulator/assembler.ts:406-416 | when every name is bound, the second pass succeeds and replaces each cell by its value or its label's offset |
| Assembler.ResolveFirstError | src/emulator/assembler.ts:406-416 | the first unbound name in code order is the one reported |
| Assembler.Assembler.constructor | src/emulator/assembler.ts:11-16 | a new assembler has empty code, labels and mapping |
| Assembler.Assembler.Reset | src/emulator/assembler.ts:18-23 | reset empties code, labels and mapping |
| Assembler.Assembler.AddLabel | src/emulator/assembler.ts:25-36 | the new state is AddLabelSpec of the old, or the old state and its error |
| Assembler.Assembler.Append | src/emulator/assembler.ts:126 | pushing the cells one by one appends them to the code and changes nothing else |
| Assembler.Assembler.AssembleLine | src/emulator/assembler.ts:52-402 | one loop iteration performs LineStep on the line's analysis |
| Assembler.Assembler.FirstPass | src/emulator/assembler.ts:50-404 | the loop yields Pass1 of all lines: the image, or the first error |
| Assembler.Assembler.SecondPass | src/emulator/assembler.ts:406-416 | the in-place loop yields Resolve of the code; labels and mapping are unchanged; on success every cell is a number |
| Assembler.Assembler.Assemble | src/emulator/assembler.ts:38-433 | assemble succeeds exactly when AssembleSpec does, with the same code, labels and mapping, and otherwise fails with its error |
| Cpu.Cpu.constructor | src/emulator/cpu.ts:26-72 | a new CPU over a memory is in the power-on state: PC 0, SP 231, registers and flags clear |
| Cpu.Cpu.Reset | src/emulator/cpu.ts:78-101 | reset restores the power-on state and leaves memory alone |
| Cpu.Cpu.Fetch | src/emulator/cpu.ts:177-181 | fetch performs FetchSpec: IR receives the byte at PC, or the access violation |
| Cpu.Cpu.FetchAddrOperand | src/emulator/cpu.ts:122-131 | PC moves on by one and MBR receives the byte there |
| Cpu.Cpu.FetchMemory | src/emulator/cpu.ts:133-140 | MBR receives the byte at the address MBR held |
| Cpu.Cpu.FetchMemoryFrom | src/emulator/cpu.ts:142-149 | MBR receives the byte at the address in the register MBR named |
| Cpu.Cpu.PushToStack | src/emulator/cpu.ts:151-162 | the address after the operand is stored at SP, SP moves down and PC moves on |
| Cpu.Cpu.PerformOperation | src/emulator/cpu.ts:168-175 | zero, overflow and negative take the ALU's flags; carry is untouched; the result is the ALU's byte |
| Cpu.Cpu.ExecuteMovToRegister | src/emulator/cpu.ts:192-312 | the MOV forms into a register perform RunMov |
| Cpu.Cpu.ExecuteMovToMemory | src/emulator/cpu.ts:210-352 | the MOV forms into memory perform RunMov |
| Cpu.Cpu.ExecuteMov | src/emulator/cpu.ts:192-352 | the eight MOV opcodes perform RunMov |
| Cpu.Cpu.ExecuteArith | src/emulator/cpu.ts:356-506 | ADD, SUBT, AND, OR, XOR, SHL and SHR perform RunArith |
| Cpu.Cpu.ExecuteCmp | src/emulator/cpu.ts:534-607 | CMP performs RunCmp |
| Cpu.Cpu.ExecuteUnary | src/emulator/cpu.ts:508-531 | INC, DEC and NOT perform RunUnary |
| Cpu.Cpu.ExecuteJump | src/emulator/cpu.ts:610-798 | the jumps perform RunJump, the corrected not-taken branch |
| Cpu.Cpu.ExecuteCall | src/emulator/cpu.ts:801-838 | CALL performs RunCall |
| Cpu.Cpu.ExecuteRet | src/emulator/cpu.ts:840-850 | RET performs RunRet |
| Cpu.Cpu.ExecutePush | src/emulator/cpu.ts:854-920 | PUSH performs RunPush |
| Cpu.Cpu.ExecutePop | src/emulator/cpu.ts:922-939 | POP performs RunPop |
| Cpu.Cpu.Execute | src/emulator/cpu.ts:183-1332 | execute performs Step: the decoded instruction's run and whether to go on, or the invalid-opcode or access error |
| Cpu.MovToRegisterEffect | src/emulator/cpu.ts:192-312 | a MOV into a register writes the source's value into the named register, moves PC by 3, and changes nothing else |
| Cpu.MovToMemoryEffect | src/emulator/cpu.ts:210-352 | a MOV into memory writes one cell at the decoded address, moves PC by 3, and changes nothing else |
| Cpu.ArithEffect | src/emulator/cpu.ts:356-506 | the destination register receives the ALU result of its own value and the source; zero, overflow and negative follow the ALU; PC moves by 3 |
| Cpu.AluOperandsMeaning | src/emulator/cpu.ts:356-372 | the ALU's operands are the destination register named by the first operand byte, its value, and the value the second byte denotes |
| Cpu.CmpEffect | src/emulator/cpu.ts:534-607 | CMP sets the flags of the subtraction, writes no register, and moves PC by 3 |
| Cpu.UnaryEffect | src/emulator/cpu.ts:508-531 | INC, DEC and NOT rewrite the named register with add 1, subtract 1 or complement, set the flags, and move PC by 2 |
| Cpu.JumpEffect | src/emulator/cpu.ts:610-798 | a jump changes only PC: to its destination when the condition holds, otherwise past its operand |
| Cpu.PushEffect | src/emulator/cpu.ts:854-920 | PUSH stores its value at SP, moves SP down by 1 and PC by 2 |
| Cpu.PopEffect | src/emulator/cpu.ts:922-939 | POP moves SP up by 1 and loads the cell there into the named register |
| Cpu.CallEffect | src/emulator/cpu.ts:801-838 | CALL stores the address after itself at SP, moves SP down, and jumps |
| Cpu.RetEffect | src/emulator/cpu.ts:840-850 | RET moves SP up by 1 and continues at the address stored there |
| Cpu.StepRuns | src/emulator/cpu.ts:183-1332 | a successful step is the run of the decoded instruction, and it goes on unless that was HLT |
| Cpu.FetchSpec | src/emulator/cpu.ts:177-181 | `fetch` on values: IR receives the byte at PC, or the access violation (Cpu.Cpu.Fetch) |
| Cpu.Step | src/emulator/cpu.ts:183-1332 | `execute` on values: the run of the decoded form and whether to go on, or the invalid-opcode error (StepRuns, StepPc, InvalidOpcodes) |
| Cpu.Run | src/emulator/cpu.ts:183-1332 | the effect of each instruction form on the machine (RunPc, RunKeeps, RunErrors) |
| Cpu.RunMov | src/emulator/cpu.ts:192-352 | the eight MOV forms (MovToRegisterEffect, MovToMemoryEffect, MovErrors) |
| Cpu.RunArith | src/emulator/cpu.ts:356-506 | ADD, SUBT, AND, OR, XOR, SHL and SHR on a register (ArithEffect, AluOperandsMeaning) |
| Cpu.RunCmp | src/emulator/cpu.ts:534-607 | CMP's flags (CmpEffect) |
| Cpu.RunUnary | src/emulator/cpu.ts:508-531 | INC, DEC and NOT on a register (UnaryEffect) |
| Cpu.RunJump | src/emulator/cpu.ts:610-798 | the jumps, with the not-taken branch continuing at PC + 2 (JumpEffect, AboveGap) |
| Cpu.RunJumpAsWritten | src/emulator/cpu.ts:637-647 | the jumps as the source writes them, the not-taken branch leaving PC on the operand (JumpAsWrittenFallsShort) |
| Cpu.RunCall | src/emulator/cpu.ts:801-838 | CALL (CallEffect, CallThenRet) |
| Cpu.RunRet | src/emulator/cpu.ts:840-850 | RET (RetEffect, CallThenRet) |
| Cpu.RunPush | src/emulator/cpu.ts:854-920 | PUSH (PushEffect, PushThenPop) |
| Cpu.RunPop | src/emulator/cpu.ts:922-939 | POP (PopEffect, PushThenPop) |
| Cpu.RunPc | src/emulator/cpu.ts:183-1332 | HLT only sets halt; sequential instructions move PC by their size; a jump moves PC past itself or to its target; RET to the popped address |
| Cpu.RunKeeps | src/emulator/cpu.ts:183-1332 | no instruction writes carry or IR; halt is set only by HLT; the register and memory sizes never change |
| Cpu.RunErrors | src/emulator/cpu.ts:183-1332 | an instruction only fails with a memory access violation or a bad register number |
| Cpu.MovErrors | src/emulator/cpu.ts:192-352 | a MOV only fails with an access violation or a bad register number |
| Cpu.AluErrors | src/emulator/cpu.ts:356-506 | operand fetches only fail with an access violation or a bad register number |
| Cpu.InvalidOpcodes | src/emulator/cpu.ts:1327-1329 | "Invalid op code" arises exactly for IR outside 0x00-0x24 and 0x2F-0x4B |
| Cpu.HaltStops | src/emulator/cpu.ts:188-190 | HLT sets the halt flag and stops; nothing else changes |
| Cpu.StepPc | src/emulator/cpu.ts:183-1332 | after a successful step PC is placed as RunPc says, carry and IR are kept, and the machine goes on unless it halted |
| Cpu.AboveGap | src/emulator/cpu.ts:745-798 | with zero set and carry clear neither JA nor JNA is taken: JNA is not the complement of JA |
| Cpu.CallThenRet | src/emulator/cpu.ts:801-850 | a RET that finds the stack as CALL left it returns to the address after the CALL, with SP restored |
| Cpu.PushThenPop | src/emulator/cpu.ts:854-939 | a POP right after a PUSH loads the pushed value, restores SP and leaves memory as the PUSH left it |
| Cpu.JumpAsWrittenFallsShort | src/emulator/cpu.ts:637-647 | the not-taken jump as written leaves PC on the operand byte, one short of the corrected PC + 2 |
| Cpu.JumpNotTakenExample | tests/cpu.test.ts:444-454 | JC at 0 with carry clear: as written PC becomes 1, the corrected branch gives the expected 2 |
| Programs.MovLine | tests/instructions.test.ts:102-106 | `MOV A, 10` analyses to the cells MOV_NUM_TO_REG, 0, 10 |
| Programs.MovProgram | tests/instructions.test.ts:102-106 | `MOV A, 10` assembles to [6, 0, 10], with no labels and line 0 at offset 0 |
| Programs.Loaded | emulator/memory.ts:10-17 | the code at address 0, zeros after it, 256 cells |
| Programs.MovRuns | tests/cpu.test.ts:144-154 | from reset, fetch loads MOV_NUM_TO_REG and one step puts 10 in A and PC at 3 |
| Programs.StringLine | tests/assembler.test.ts:43-46 | `x: DB "mango"` binds x and emits the five character codes |
| Programs.ReferenceLine | tests/assembler.test.ts:43-46 | `MOV C, x` emits MOV_NUM_TO_REG, 2 and a pending reference to x |
| Programs.MangoProgram | tests/assembler.test.ts:43-46 | the labelled string program assembles to [109, 97, 110, 103, 111, 6, 2, 0] with x at 0 |
| Programs.ImmediateTargetRefused | tests/instructions.test.ts:119-123 | `MOV 0, A` is refused as unsupported operands |
| Programs.MissingOperandRefused | tests/instructions.test.ts:119-120 | `MOV A` is refused for a missing operand |
| Programs.LabelJumpProgram | tests/program.test.ts:1294-1304 | the indented `JMP start`, `HLT`, `start:` program assembles to [JMP_ADDR, 3, NONE] with start bound to 3, past the HLT: the label is resolved in the second pass |
| Programs.LabelJumpRuns | tests/program.test.ts:1294-1304 | run from reset, the jump skips the HLT and lands on offset 3, whose zero cell is HLT's opcode: the machine stops with PC 3, as the test expects |

## Left out

- `emulator/machine.ts` is not modelled. It is a stub that only wires the assembler, the memory and the CPU together. `Programs` plays that role for whole programs.
- `settle`, `pop_from_stack` and `status` are not modelled. They are a logging stub, an empty method and an unused register.
- The `errors` array of the assembler is not modelled: it is never written.
- Exception messages are not modelled. Each exception is an error kind with the offending value, where the source has one.
- `Cpu.RunErrors`: a register number of 4 or more in the instruction stream is modelled as a `BadRegister` fault. In the source, a write through the Uint8Array is silently dropped, and a read yields `undefined`, which then propagates.
- The state after a fault is not modelled. The source leaves a partly updated CPU or assembler behind when it throws, and the model only reports the error.
- PC and SP are unbounded integers. The source's numbers can run past 255 and below 0 in the same way. The memory range check is what faults, and the model has the same fault.
- `Operands.ParseNumber` accepts only well-formed digit strings: an optional sign, then at least one digit of the base. JavaScript's `parseInt` also accepts a valid prefix followed by junk, and gives NaN otherwise. Both of those are modelled as a format error.
- `Operands.ParseNumber`: literals are read as exact integers. JavaScript reads them as doubles, so a literal above 2^53 loses precision, and one just below 10^21 can round up to 10^21 and then be accepted by the assembler's range test.
- The lexer reads a line as Unicode characters, where JavaScript's pattern (without the `u` flag) reads UTF-16 code units. The tokens found are the same: a character above 0xFFFF, or either of its surrogates, is never white space, a word character, a quote, a bracket or a line terminator. `Operands.CharCodes` then counts code units, as `charCodeAt` does.
- `Cpu.Cpu.Execute`: MAR and MBR after an instruction are not specified. They are transfer registers that each instruction sets before it reads them.
- `Cpu.Cpu.ExecuteMov`: MAR and MBR afterwards are not specified, as for `Cpu.Cpu.Execute`.
- `Cpu.Cpu.ExecuteMovToRegister`: MAR and MBR afterwards are not specified, as for `Cpu.Cpu.Execute`.
- `Cpu.Cpu.ExecuteMovToMemory`: MAR and MBR afterwards are not specified, as for `Cpu.Cpu.Execute`.
- `Cpu.Cpu.ExecuteArith`: MAR and MBR afterwards are not specified, as for `Cpu.Cpu.Execute`.
- `Cpu.Cpu.ExecuteCmp`: MAR and MBR afterwards are not specified, as for `Cpu.Cpu.Execute`.
- `Cpu.Cpu.ExecuteUnary`: MAR and MBR afterwards are not specified, as for `Cpu.Cpu.Execute`.
- `Cpu.Cpu.ExecuteJump`: MAR and MBR afterwards are not specified, as for `Cpu.Cpu.Execute`.
- `Cpu.Cpu.ExecuteCall`: MAR and MBR afterwards are not specified, as for `Cpu.Cpu.Execute`.
- `Cpu.Cpu.ExecuteRet`: MAR and MBR afterwards are not specified, as for `Cpu.Cpu.Execute`.
- `Cpu.Cpu.ExecutePush`: MAR and MBR afterwards are not specified, as for `Cpu.Cpu.Execute`.
- `Cpu.Cpu.ExecutePop`: MAR and MBR afterwards are not specified, as for `Cpu.Cpu.Execute`.
- `Operands.GetValue`: for a quoted character with nothing between the quotes it reports an empty-character error, where the source yields NaN. The line pattern never produces such a token.
- The line pattern is modelled by a hand-written lexer (`Lexer.InterpretLine`), not by a regular-expression engine. Its comment group is not modelled: no caller reads it. `tokenize` in `src/emulator/tokenizer.ts:501-510` is the same pattern application as `interpretLine`, so it is modelled by `Lexer.InterpretLine` too.
- The assembler records a line's mapping entry before the opcode switch, so a line that then fails has already written it. After an error the assembler's state is not part of the model.
- Labels live in a plain object in the source. Names such as `toString` or `constructor` would be taken as already bound, and the model's map does not reproduce that.
- `Memory` uses a fixed-length byte array. The source's `Array<number>` can hold only the masked bytes its `write` stores.

## Findings

| source | as written | input that shows it | evidently intended | confidence | as-written member | corrected member |
|---|---|---|---|---|---|---|
| src/emulator/cpu.ts:637-647 | the not-taken branch of every jump is `this.pc = this.pc++`, which assigns the old PC back, so PC stays on the operand byte | JC_ADDR at 0 with carry clear (tests/cpu.test.ts:444-454 expects PC 2) | a jump not taken continues after its operand, at PC + 2 | high; not executed | Cpu.RunJumpAsWritten, Cpu.JumpNotTakenExample | Cpu.RunJump, Cpu.Cpu.ExecuteJump |
| emulator/interpreter.ts:135-147 | the SUBT case of `parseInstruction` returns SUBT_NUM_FROM_REG for every operand form (src/emulator/tokenizer.ts:134-145 is identical) | `SUBT A, B` gives 0x10, which the CPU runs as "subtract the number B's index" | register, address and register-address sources select 0x0D, 0x0E and 0x0F, as the assembler does | high; not executed | EnumInterpreter.ParseInstruction, EnumInterpreter.SubtExample | Assembler.SelectInstr, EnumInterpreter.SubtCollapses |
