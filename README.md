# lui-tool, modelled in Dafny

lui-tool reads and writes the compiled Havok Script (HKS) files that Call of
Duty menus (LUI) ship as. It has two halves, and this project models the core of both.

- The C# half (`src/LuiTool`) reads an HKS file with a cursor-based byte
  reader, disassembles its header, functions, instructions, constants and
  closures, and prints the listing. It can also decompile a function into a
  Lua syntax tree. Instructions are lowered to register assignments and
  `asm_` pseudo-instructions (comparisons and tests stay `asm_test` calls;
  no `if` statement is built). Numeric `for` loops are recovered from
  FORPREP/FORLOOP pairs, and each backward jump folds its target range into a
  block. Registers are then reference-counted, and registers used once are
  inlined. A printer renders the tree as Lua source.
- The C++ half (`src/IW6`, `src/utils/types`) is the IW6 (Ghosts) pipeline.
  Its disassembler reads the binary file into an in-memory record of the
  header, the functions, their instructions, constants and sub-functions; its
  assembler writes such a record back to binary. Neither produces or parses
  an assembly text: the disassembler's `output()` is empty and the text
  assembler is an empty stub. It also has the opcode name table. It also has a
  symbolic-stack decompiler that rewrites register slots per instruction,
  and node printers that render the decompiled tree.

Each source file that changes state step by step is a Dafny class whose
methods are proved against pure functions of the old state: the C# `Reader`,
`Disassembler`, `Source`, `Printer` and the two passes, and the IW6
disassembler, assembler, decompiler and node printer. Code that is pure
expression becomes functions with their own contracts. Lemmas state what the
source promises across calls, such as:

- bit-field round trips and byte-order facts;
- disassembling what the assembler wrote;
- names the resolver maps both ways;
- that the decompiler's fresh variables never repeat and its jumps name their targets;
- that the C# reader accepts the header the IW6 writer emits;
- the shape of the printed text.

Integers are unbounded. Where the source's fixed width matters (uint32
sums, int32 casts, sign-extended reads, sBx bias), the wrap is written out.

## Model

| member | source | states |
|---|---|---|
| HksOp.GetCode | src/LuiTool/HavokScript/Assembly/HksOp.cs:6-9 | the opcode field is bits 25..31, so it is below 128 |
| HksOp.GetArgA | src/LuiTool/HavokScript/Assembly/HksOp.cs:11-14 | A is bits 0..7, below 256 |
| HksOp.GetArgB | src/LuiTool/HavokScript/Assembly/HksOp.cs:16-19 | B is bits 17..24, below 256 |
| HksOp.GetArgC | src/LuiTool/HavokScript/Assembly/HksOp.cs:21-24 | C is bits 8..16, below 512 |
| HksOp.GetArgBx | src/LuiTool/HavokScript/Assembly/HksOp.cs:26-29 | Bx is bits 8..24, below 2^17 |
| HksOp.GetArgsBx | src/LuiTool/HavokScript/Assembly/HksOp.cs:31-34 | sBx is Bx minus 0xFFFF, so it lies in −0xFFFF..0x10000 |
| HksOp.Bit16 | src/LuiTool/HavokScript/Assembly/HksOp.cs:36-39 | bit 16 of the word is 0 or 1 |
| HksOp.GetsZeroIsBit16 | src/LuiTool/HavokScript/Assembly/HksOp.cs:36-39 | C ≥ 0x100 (a constant operand) exactly when bit 16 is set |
| HksOp.DecodeEncodeABC | src/LuiTool/HavokScript/Assembly/HksOp.cs:6-24 | the field getters give back the code, A, B and C a word was built from |
| HksOp.EncodeDecodeABC | src/LuiTool/HavokScript/Assembly/HksOp.cs:6-24 | the four fields together rebuild the whole word: no bit is lost |
| HksOp.BxIsBThenC | src/LuiTool/HavokScript/Assembly/HksOp.cs:16-29 | Bx is B·512 + C |
| HksOp.DecodeEncodeABx | src/LuiTool/HavokScript/Assembly/HksOp.cs:6-29 | the getters give back the code, A and Bx of an ABx word |
| HksOp.EncodeABxIsABC | src/LuiTool/HavokScript/Assembly/HksOp.cs:16-29 | an ABx word is the ABC word with B = Bx / 512 and C = Bx mod 512 |
| Bytes.Pow256 | src/LuiTool/Utils/Reader.cs:40-77 | the number of values a field of k bytes holds is positive |
| Bytes.LittleEndian | src/LuiTool/Utils/Reader.cs:40-77 | the little-endian value of k bytes is below 256^k |
| Bytes.BigEndian | src/LuiTool/Utils/Reader.cs:40-77 | the big-endian value of k bytes is below 256^k |
| Bytes.LittleEndianBytes | src/LuiTool/Utils/Reader.cs:40-77 | writing a number in k little-endian bytes gives k bytes |
| Bytes.LittleEndianOfBytes | src/LuiTool/Utils/Reader.cs:40-77 | reading back the k bytes written for n < 256^k gives n |
| Bytes.BytesOfLittleEndian | src/LuiTool/Utils/Reader.cs:40-77 | writing back the value read from bytes gives the same bytes |
| Bytes.BigEndianIsReversed | src/LuiTool/Utils/Reader.cs:40-77 | a big-endian read is a little-endian read of the reversed bytes |
| Bytes.Reverse | src/LuiTool/Utils/Reader.cs:40-77 | the reversed bytes have element i at position n − 1 − i |
| Bytes.ToSigned | src/LuiTool/Utils/Reader.cs:27-30 | the two's-complement reading of a k-byte value lies in −2^(8k−1)..2^(8k−1) − 1 |
| Bytes.ToUnsigned | src/LuiTool/Utils/Reader.cs:48-51 | the unsigned cast of a signed value is below 256^k |
| Bytes.UnsignedOfSigned | src/LuiTool/Utils/Reader.cs:48-77 | `(ushort)(short)u == u`: the unsigned cast undoes the signed reading |
| Bytes.SignedOfUnsigned | src/LuiTool/Utils/Reader.cs:27-77 | the signed reading undoes the unsigned cast for every value of the signed type |
| Bytes.BytesToChars | src/LuiTool/Utils/Reader.cs:95-100 | one character per byte, with the byte's value |
| Bytes.CharsToBytes | src/IW6/assembler.cpp:69 | a byte string written back byte by byte decodes to the same characters |
| ByteReader.TruncatedRem | src/LuiTool/Utils/Reader.cs:129-135 | C#'s `%` takes the dividend's sign and is smaller than the divisor in magnitude |
| ByteReader.PaddedIsNextMultiple | src/LuiTool/Utils/Reader.cs:129-135 | Pad moves a cursor to the next multiple of the padding, never past it |
| ByteReader.Unsigned | src/LuiTool/Utils/Reader.cs:40-77 | the value of `width` bytes read in either byte order fits in `width` bytes |
| ByteReader.ReadUnsigned | src/LuiTool/Utils/Reader.cs:32-77 | a little-endian field succeeds exactly when its bytes are in the array; the position advances by the width |
| ByteReader.ReadRaw | src/LuiTool/Utils/Reader.cs:102-107 | raw bytes succeed exactly when in the array and give `length` bytes |
| ByteReader.Reader.constructor | src/LuiTool/Utils/Reader.cs:14-20 | a reader starts at cursor 0 with an empty cursor stack |
| ByteReader.Reader.Window | src/LuiTool/Utils/Reader.cs:42-90 | the span under the cursor has exactly the width asked |
| ByteReader.Reader.UnsignedAt | src/LuiTool/Utils/Reader.cs:42-76 | the value under the cursor in the current byte order fits its width |
| ByteReader.Reader.SetLittleEndian | src/LuiTool/Utils/Reader.cs:22-25 | sets the byte order and nothing else |
| ByteReader.Reader.ReadUInt8 | src/LuiTool/Utils/Reader.cs:32-38 | the byte under the cursor and a cursor one further, or out of range with the cursor unmoved |
| ByteReader.Reader.ReadInt8 | src/LuiTool/Utils/Reader.cs:27-30 | the byte read as signed |
| ByteReader.Reader.ReadSigned | src/LuiTool/Utils/Reader.cs:40-72 | a signed value of the width in the current byte order, the cursor advanced by the width |
| ByteReader.Reader.ReadInt16 | src/LuiTool/Utils/Reader.cs:40-46 | two bytes read as signed in the current byte order |
| ByteReader.Reader.ReadUInt16 | src/LuiTool/Utils/Reader.cs:48-51 | the same two bytes read as unsigned |
| ByteReader.Reader.ReadInt32 | src/LuiTool/Utils/Reader.cs:53-59 | four bytes read as signed |
| ByteReader.Reader.ReadUInt32 | src/LuiTool/Utils/Reader.cs:61-64 | four bytes read as unsigned |
| ByteReader.Reader.ReadInt64 | src/LuiTool/Utils/Reader.cs:66-72 | eight bytes read as signed |
| ByteReader.Reader.ReadUInt64 | src/LuiTool/Utils/Reader.cs:74-77 | eight bytes read as unsigned |
| ByteReader.Reader.ReadFloat | src/LuiTool/Utils/Reader.cs:79-85 | four bytes taken as they are, the cursor advanced by four |
| ByteReader.Reader.ReadDouble | src/LuiTool/Utils/Reader.cs:87-93 | eight bytes taken as they are, the cursor advanced by eight |
| ByteReader.Reader.ReadString | src/LuiTool/Utils/Reader.cs:95-100 | `length` bytes as characters, the cursor advanced by `length` |
| ByteReader.Reader.ReadBytes | src/LuiTool/Utils/Reader.cs:102-107 | `length` bytes, the cursor advanced by `length` |
| ByteReader.Reader.Skip | src/LuiTool/Utils/Reader.cs:109-112 | the cursor moves by the offset |
| ByteReader.Reader.Seek | src/LuiTool/Utils/Reader.cs:114-117 | the cursor is set to the position |
| ByteReader.Reader.PushCursor | src/LuiTool/Utils/Reader.cs:119-122 | the cursor is pushed on top of the saved cursors |
| ByteReader.Reader.PopCursor | src/LuiTool/Utils/Reader.cs:124-127 | the top saved cursor is removed and returned; an empty stack is an error |
| ByteReader.Reader.Pad | src/LuiTool/Utils/Reader.cs:129-135 | the cursor moves to where `Padded` says, or fails on a zero padding |
| ByteReader.Reader.GetPosition | src/LuiTool/Utils/Reader.cs:137-140 | the current cursor |
| HksAssembly.TypeName | src/LuiTool/HavokScript/Assembly/HksType.cs:4-19 | the name `ToString` gives a type tag is never empty: the member name, or the number for an unnamed byte |
| HksDisassembler.ReadSignedAt | src/LuiTool/Utils/Reader.cs:53-72 | a signed field succeeds exactly when its bytes are in the data and advances by its width |
| HksDisassembler.ReadText | src/LuiTool/Utils/Reader.cs:95-100 | a text of `length` bytes succeeds exactly when they are in the data and has `length` characters |
| HksDisassembler.ParseFormat | src/LuiTool/HavokScript/Disassembler.cs:51-59 | only format bytes 13 and 14 are accepted, as V13 and V14; any other byte is the "unsupported bytecode format" error |
| HksDisassembler.ParseTypeEntry | src/LuiTool/HavokScript/Disassembler.cs:68-72 | a type entry takes at least its eight bytes of id and length |
| HksDisassembler.TypeEntryLayout | src/LuiTool/HavokScript/Disassembler.cs:68-72 | a type entry is a u32 id, an i32 length and exactly that many bytes of name |
| HksDisassembler.ParseTypeEntries | src/LuiTool/HavokScript/Disassembler.cs:66-73 | the loop adds exactly `count` entries after those already read |
| HksDisassembler.ParseTypeMeta | src/LuiTool/HavokScript/Disassembler.cs:61-76 | the type table has as many entries as its u32 count says |
| HksDisassembler.ParseHeader | src/LuiTool/HavokScript/Disassembler.cs:30-49 | the header is the signature, the version bytes and flags in file order, then the type table |
| HksDisassembler.SizeWidth | src/LuiTool/HavokScript/Disassembler.cs:288-291 | a size field is 4 or 8 bytes wide |
| HksDisassembler.ParseSize | src/LuiTool/HavokScript/Disassembler.cs:288-291 | a size field succeeds exactly when its bytes are present and advances by its width |
| HksDisassembler.EmptyString | src/LuiTool/HavokScript/Disassembler.cs:293-297 | a size of zero is the empty string and consumes only the size field |
| HksDisassembler.StringOfSize | src/LuiTool/HavokScript/Disassembler.cs:293-297 | a size n in 1..2^31 − 1 consumes n bytes and gives the first n − 1 of them, or fails when they run out |
| HksDisassembler.ParseString | src/LuiTool/HavokScript/Disassembler.cs:293-297 | a size field, then that many bytes with the last one dropped; a zero size is the empty string; the size is cut to a signed 32-bit length (proved in `EmptyString` and `StringOfSize`) |
| HksDisassembler.OperandA | src/LuiTool/HavokScript/Disassembler.cs:120-131 | no operand when A is unused, a number or register operand holding field A, and the "internal error" for any other mode |
| HksDisassembler.OperandB | src/LuiTool/HavokScript/Disassembler.cs:135-146 | no operand when B is unused, a number, register or constant operand holding field B, and the "internal error" for any other mode |
| HksDisassembler.OperandC | src/LuiTool/HavokScript/Disassembler.cs:148-160 | like B for field C; R_OR_K gives the constant `C & 0xFF` when sZero is set and register C otherwise |
| HksDisassembler.OperandBx | src/LuiTool/HavokScript/Disassembler.cs:162-173 | in ABx mode: a number for NUMBER and OFFSET, a constant for CONST, each holding Bx, and the "internal error" otherwise (the operand layout is proved in `DecodeInstruction`) |
| HksDisassembler.DecodeInstruction | src/LuiTool/HavokScript/Disassembler.cs:111-180 | an opcode past the table is out of range; a row with an unhandled mode is the "internal error"; otherwise the operands are read per mode (R_OR_K as a constant of C & 0xFF when C ≥ 0x100, sBx for AsBx) |
| HksDisassembler.ParseInstruction | src/LuiTool/HavokScript/Disassembler.cs:111-114 | an instruction takes four bytes and its address is where its word starts |
| HksDisassembler.ParseInstructionList | src/LuiTool/HavokScript/Disassembler.cs:103-106 | `count` instructions take 4·count bytes, instruction i at 4·i past the start |
| HksDisassembler.ParseInstructions | src/LuiTool/HavokScript/Disassembler.cs:96-109 | the instruction section never moves backwards |
| HksDisassembler.InstructionAddresses | src/LuiTool/HavokScript/Disassembler.cs:96-109 | after the size and the padding to 4, the instructions are 4-byte aligned words at consecutive addresses |
| HksDisassembler.ParseConstant | src/LuiTool/HavokScript/Disassembler.cs:187-230 | a constant's tag is its first byte, and only nil, boolean, light userdata, number, string and ui64 are read; any other tag is "type not implemented: " and its name |
| HksDisassembler.ConstantWidth | src/LuiTool/HavokScript/Disassembler.cs:192-228 | a constant other than a string takes its tag byte and its payload width exactly |
| HksDisassembler.ParseConstantList | src/LuiTool/HavokScript/Disassembler.cs:187-231 | the loop adds exactly `count` constants after those already read |
| HksDisassembler.ParseConstants | src/LuiTool/HavokScript/Disassembler.cs:182-234 | the constant section has as many constants as its u32 count says |
| HksDisassembler.ParseDebug | src/LuiTool/HavokScript/Disassembler.cs:236-261 | the debug section is a u32 flag, followed by a u32 hash exactly when the flag is 1 |
| HksDisassembler.ParseFunction | src/LuiTool/HavokScript/Disassembler.cs:78-94 | a function record consumes bytes, stays inside the data and has the address it started at |
| HksDisassembler.ParseFunctionSections | src/LuiTool/HavokScript/Disassembler.cs:88-91 | the sections after the counts consume bytes and keep the record's address |
| HksDisassembler.ParseClosures | src/LuiTool/HavokScript/Disassembler.cs:263-274 | the closure section consumes bytes and stays inside the data |
| HksDisassembler.ParseClosureList | src/LuiTool/HavokScript/Disassembler.cs:268-271 | the loop adds exactly `count` nested records after those already read |
| HksDisassembler.ClosureListStep | src/LuiTool/HavokScript/Disassembler.cs:268-271 | one loop step reads one nested record and goes on after it, or fails with that record's error |
| HksDisassembler.FunctionLayout | src/LuiTool/HavokScript/Disassembler.cs:78-94 | a record starts with the upvalue count, parameter count, vararg byte and register count, in that order |
| HksDisassembler.ParseFile | src/LuiTool/HavokScript/Disassembler.cs:18-28 | a file is its header followed by the root function record |
| HksDisassembler.Disassembler.constructor | src/LuiTool/HavokScript/Disassembler.cs:13-16 | a disassembler starts with a fresh reader at cursor 0 and no header |
| HksDisassembler.Disassembler.DisassembleFormat | src/LuiTool/HavokScript/Disassembler.cs:51-59 | reads the format byte as `ParseFormat` says |
| HksDisassembler.Disassembler.DisassembleTypeMeta | src/LuiTool/HavokScript/Disassembler.cs:61-76 | reads the type table as `ParseTypeMeta` says |
| HksDisassembler.Disassembler.DisassembleTypeEntry | src/LuiTool/HavokScript/Disassembler.cs:68-72 | reads one type entry as `ParseTypeEntry` says |
| HksDisassembler.Disassembler.DisassembleHeader | src/LuiTool/HavokScript/Disassembler.cs:30-49 | reads the header as `ParseHeader` says and records it for the later reads |
| HksDisassembler.Disassembler.DisassembleSize | src/LuiTool/HavokScript/Disassembler.cs:288-291 | reads a size field of the width the header gives |
| HksDisassembler.Disassembler.DisassembleString | src/LuiTool/HavokScript/Disassembler.cs:293-297 | reads a string as `ParseString` says |
| HksDisassembler.Disassembler.DisassembleInstruction | src/LuiTool/HavokScript/Disassembler.cs:111-180 | reads and decodes one instruction word |
| HksDisassembler.Disassembler.DisassembleInstructions | src/LuiTool/HavokScript/Disassembler.cs:96-109 | reads the instruction section as `ParseInstructions` says |
| HksDisassembler.Disassembler.InstructionLoop | src/LuiTool/HavokScript/Disassembler.cs:103-106 | the loop reads `count` instruction words from the cursor, as `ParseInstructionList` says, or stops at the first word that fails |
| HksDisassembler.Disassembler.DisassembleConstant | src/LuiTool/HavokScript/Disassembler.cs:189-230 | reads one constant as `ParseConstant` says |
| HksDisassembler.Disassembler.DisassembleConstants | src/LuiTool/HavokScript/Disassembler.cs:182-234 | reads the constant section as `ParseConstants` says |
| HksDisassembler.Disassembler.DisassembleDebug | src/LuiTool/HavokScript/Disassembler.cs:236-261 | skips the debug section as `ParseDebug` says |
| HksDisassembler.Disassembler.DisassembleFunction | src/LuiTool/HavokScript/Disassembler.cs:78-94 | reads a function record as `ParseFunction` says |
| HksDisassembler.Disassembler.DisassembleSections | src/LuiTool/HavokScript/Disassembler.cs:88-91 | reads the sections after the counts as `ParseFunctionSections` says |
| HksDisassembler.Disassembler.DisassembleClosures | src/LuiTool/HavokScript/Disassembler.cs:263-274 | reads the closure section as `ParseClosures` says |
| HksDisassembler.Disassembler.Disassemble | src/LuiTool/HavokScript/Disassembler.cs:18-28 | reads the whole file as `ParseFile` says |
| HksSource.DirectiveIsOneLine | src/LuiTool/HavokScript/Source.cs:28-36 | a directive whose name and value have no line break is exactly one line |
| HksSource.HeaderEndsBlank | src/LuiTool/HavokScript/Source.cs:36 | the header block ends with a blank line |
| HksSource.HeaderShape | src/LuiTool/HavokScript/Source.cs:23-37 | the header block is nine directive lines and a blank line: ten line breaks |
| HksSource.LabelReadsBack | src/LuiTool/HavokScript/Source.cs:41 | a function label is "_id_" and eight hexadecimal digits that read back as the address modulo 2^32 |
| HksSource.ConstantText | src/LuiTool/HavokScript/Source.cs:54-61 | nil prints "nil", a string prints in double quotes, a boolean prints "false" exactly when its byte is 0 |
| HksSource.OperandReadsBack | src/LuiTool/HavokScript/Source.cs:75-86 | an operand's text (`K(v)`, `R(v)` or the number) determines its mode and value |
| HksSource.InstructionLineShape | src/LuiTool/HavokScript/Source.cs:68-92 | an instruction is one line whose operands are separated by n − 1 commas |
| HksSource.InstructionLineCount | src/LuiTool/HavokScript/Source.cs:66-93 | the instruction listing has one line per instruction |
| HksSource.ValueTextHasNoBreak | src/LuiTool/HavokScript/Source.cs:54-61 | a constant value without a line break in its string or number text prints without one |
| HksSource.ConstantTextHasNoBreak | src/LuiTool/HavokScript/Source.cs:54-61 | the same holds for the whole constant text |
| HksSource.ConstantLineIsOneLine | src/LuiTool/HavokScript/Source.cs:63 | each `.constant` directive is one line |
| HksSource.TypeNameHasNoBreak | src/LuiTool/HavokScript/Source.cs:60 | a type name has no line break |
| HksSource.ConstantLineCount | src/LuiTool/HavokScript/Source.cs:50-64 | the constant listing has one line per constant |
| HksSource.HeaderText | src/LuiTool/HavokScript/Source.cs:23-37 | the nine header directives in file order, then a blank line (shape in `HeaderShape`) |
| HksSource.Label | src/LuiTool/HavokScript/Source.cs:41 | "_id_" and the address modulo 2^32 in eight upper-case hexadecimal digits (read back in `LabelReadsBack`) |
| HksSource.ValueText | src/LuiTool/HavokScript/Source.cs:54-61 | the text of a boxed constant value, the empty text for a null value |
| HksSource.ConstantLine | src/LuiTool/HavokScript/Source.cs:63 | ".constant ", the constant's text, " ; ", the index in decimal and a line break (one line by `ConstantLineIsOneLine`) |
| HksSource.ConstantsText | src/LuiTool/HavokScript/Source.cs:50-64 | the constant lines in order, numbered from 0 (counted in `ConstantLineCount`) |
| HksSource.OperandText | src/LuiTool/HavokScript/Source.cs:75-86 | `K(v)` for a constant, `R(v)` for a register, the bare number otherwise (inverted by `ReadOperand` in `OperandReadsBack`) |
| HksSource.InstructionLine | src/LuiTool/HavokScript/Source.cs:68-92 | the mnemonic, a space, the operand texts joined by ", " and a line break (shape in `InstructionLineShape`) |
| HksSource.InstructionsText | src/LuiTool/HavokScript/Source.cs:66-93 | the instruction lines in order (counted in `InstructionLineCount`) |
| HksSource.FunctionHead | src/LuiTool/HavokScript/Source.cs:41-48 | the eight directives: label, upvalue, parameter, vararg and register counts, then the instruction, constant and closure counts |
| HksSource.FunctionText | src/LuiTool/HavokScript/Source.cs:39-101 | a function's directives, constants, instructions, a blank line, then each closure's text in order (written by `Source.DumpFunction`) |
| HksSource.ClosuresText | src/LuiTool/HavokScript/Source.cs:97-100 | the closures' texts in order |
| HksSource.DumpText | src/LuiTool/HavokScript/Source.cs:15-21 | the header text, then the main function's text; the prototype adds nothing (written by `Source.Dump`) |
| HksSource.Source.constructor | src/LuiTool/HavokScript/Source.cs:10-13 | a new listing starts with an empty buffer |
| HksSource.Source.Dump | src/LuiTool/HavokScript/Source.cs:15-21 | appends the header, the root function and its closures, and returns the whole buffer |
| HksSource.Source.DumpHeader | src/LuiTool/HavokScript/Source.cs:23-37 | appends exactly the header block |
| HksSource.Source.DumpFunction | src/LuiTool/HavokScript/Source.cs:39-101 | appends the function's directives, constants, instructions, a blank line, then each closure in order |
| HksSource.Source.DumpBody | src/LuiTool/HavokScript/Source.cs:50-95 | appends the constants, the instructions and the blank line |
| HksSource.Source.DumpHead | src/LuiTool/HavokScript/Source.cs:41-48 | appends the eight function directives |
| HksSource.Source.DumpConstants | src/LuiTool/HavokScript/Source.cs:50-64 | appends one `.constant` line per constant, numbered from 0 |
| HksSource.Source.DumpInstructions | src/LuiTool/HavokScript/Source.cs:66-93 | appends one line per instruction |
| HksSource.Source.DumpClosures | src/LuiTool/HavokScript/Source.cs:97-100 | appends each closure's text in order |
| HksSource.Source.DumpInstruction | src/LuiTool/HavokScript/Source.cs:68-92 | appends the mnemonic, a space, the operands and a line break |
| HksSource.Source.DumpOperands | src/LuiTool/HavokScript/Source.cs:71-90 | appends the operand texts joined by ", " |
| HksSource.Source.DumpPrototype | src/LuiTool/HavokScript/Source.cs:103-106 | appends nothing |
| CodePrinter.Trim | src/LuiTool/HavokScript/Code/Printer.cs:42 | removing the last k characters succeeds exactly when the text has at least k, keeps the flags, and leaves a prefix of the text |
| CodePrinter.Pad | src/LuiTool/HavokScript/Code/Printer.cs:37 | the indent format prints as that many spaces |
| CodePrinter.ReplaceAppend | src/LuiTool/HavokScript/Code/Printer.cs:307 | `Replace` of one character works piece by piece over a concatenation |
| CodePrinter.QuotedEscapes | src/LuiTool/HavokScript/Code/Printer.cs:307 | the two `Replace` passes put one backslash before each backslash and each double quote, and change nothing else |
| CodePrinter.UnescapeEscape | src/LuiTool/HavokScript/Code/Printer.cs:307 | the escaped body reads back as the original string |
| CodePrinter.StringLiteralInjective | src/LuiTool/HavokScript/Code/Printer.cs:304-309 | two string literals print the same exactly when their strings are equal |
| CodePrinter.SuffixedJoin | src/LuiTool/HavokScript/Code/Printer.cs:144-150 | appending each item and a separator gives the items joined by the separator, plus one more separator |
| CodePrinter.ParameterTextJoin | src/LuiTool/HavokScript/Code/Printer.cs:170-179 | the parameter list printed and trimmed is the names joined by ", " |
| CodePrinter.TrimSeparator | src/LuiTool/HavokScript/Code/Printer.cs:150 | removing the separator just appended leaves the text before it |
| CodePrinter.DecoratedAs | src/LuiTool/HavokScript/Code/Printer.cs:19-45 | each list item is followed by its separator; each block line is indented and ends in a line break |
| CodePrinter.JoinedItems | src/LuiTool/HavokScript/Code/Printer.cs:207-231 | a non-empty list of expressions printed with ", " after each item is their texts joined by ", ", plus one ", " |
| CodePrinter.EmitText | src/LuiTool/HavokScript/Code/Printer.cs:19-420 | for every well-formed tree, the visit appends exactly `Text` (the join-based description of the output) and keeps `lvalue` and the indent |
| CodePrinter.EachText | src/LuiTool/HavokScript/Code/Printer.cs:19-45 | a list visit appends each item's text, laid out as the list's layout says |
| CodePrinter.LeafText | src/LuiTool/HavokScript/Code/Printer.cs:269-420 | names, literals, closures, registers, jumps and loop markers append their text |
| CodePrinter.ChunkText | src/LuiTool/HavokScript/Code/Printer.cs:19-26 | a chunk prints each statement followed by a line break |
| CodePrinter.BlockText | src/LuiTool/HavokScript/Code/Printer.cs:28-45 | a block prints each statement on its own line, four spaces deeper, with no line break after the last |
| CodePrinter.DoText | src/LuiTool/HavokScript/Code/Printer.cs:47-53 | "do", a line break, the body, the indent, "end" |
| CodePrinter.WhileText | src/LuiTool/HavokScript/Code/Printer.cs:55-64 | "while", the test, "do", the body, then "end" on its own line |
| CodePrinter.RepeatText | src/LuiTool/HavokScript/Code/Printer.cs:66-74 | "repeat", the body, then "until" and the test on their own line |
| CodePrinter.IfText | src/LuiTool/HavokScript/Code/Printer.cs:76-100 | "if", the test, "then", the block, each else-if, "else" with its block, then "end" on its own line |
| CodePrinter.ElseIfText | src/LuiTool/HavokScript/Code/Printer.cs:102-109 | an indented "elseif", the condition, "then" and the block |
| CodePrinter.ForText | src/LuiTool/HavokScript/Code/Printer.cs:111-131 | "for", variable = start, limit, step, "do", the body, then "end" on its own line |
| CodePrinter.ForInText | src/LuiTool/HavokScript/Code/Printer.cs:133-156 | "for", each name followed by ", ", "in", the expressions joined by ", ", "do", the body, then "end" |
| CodePrinter.FunctionText | src/LuiTool/HavokScript/Code/Printer.cs:158-205 | "function" or "local function", the name, the parameters joined by ", " in parentheses, the body, then "end" |
| CodePrinter.LocalText | src/LuiTool/HavokScript/Code/Printer.cs:207-231 | "local" and the variables joined by ", ", then " = " and the values only when there are values |
| CodePrinter.AssignText | src/LuiTool/HavokScript/Code/Printer.cs:233-253 | the targets with their reference counts, " = ", the values without them (AssignmentStatement and AsmAssign alike) |
| CodePrinter.ReturnText | src/LuiTool/HavokScript/Code/Printer.cs:255-267 | "return" with the expressions joined by ", " written directly after it |
| CodePrinter.CallText | src/LuiTool/HavokScript/Code/Printer.cs:274-287 | the callee, then the arguments joined by ", " in parentheses |
| CodePrinter.BinaryText | src/LuiTool/HavokScript/Code/Printer.cs:316-323 | the left operand, the operator between two spaces, the right operand |
| CodePrinter.UnaryText | src/LuiTool/HavokScript/Code/Printer.cs:325-329 | the operator, then the operand |
| CodePrinter.AccessText | src/LuiTool/HavokScript/Code/Printer.cs:342-348 | the table, ".", the key |
| CodePrinter.TestText | src/LuiTool/HavokScript/Code/Printer.cs:387-392 | "asm_test( ", the expression, " )" |
| CodePrinter.ForPrepText | src/LuiTool/HavokScript/Code/Printer.cs:399-410 | "asm_forprep( ", the four registers joined by ", ", " )" |
| CodePrinter.PrintCodeText | src/LuiTool/HavokScript/Code/Printer.cs:12-17 | a fresh printer's code for a well-formed chunk or statement is its text at indent 0 |
| CodePrinter.AssignedRegister | src/LuiTool/HavokScript/Code/Printer.cs:356-385 | in `R<i> = R<j>` the target prints its reference count and the value does not |
| CodePrinter.ZeroArgumentCall | src/LuiTool/HavokScript/Code/Printer.cs:274-287 | a call without arguments prints the text so far, with the callee, minus its last character, then ")": the trim of ", " is unconditional and takes "(" and one character; with no text at all it fails |
| CodePrinter.EmptyCall | src/LuiTool/HavokScript/Code/Printer.cs:274-287 | with no arguments, "(" is appended after the callee, two characters are trimmed (or the trim fails) and ")" is appended |
| CodePrinter.EachErrStays | src/LuiTool/HavokScript/Code/Printer.cs:19-45 | an error in the first k items of a list is the error of the whole list |
| CodePrinter.Emit | src/LuiTool/HavokScript/Code/Printer.cs:19-420 | the printer state after `n.Accept(this)`, dispatching to the compound, headed, listed and simple kinds, or the exception the visit throws (equal to `Text` on well-formed trees by `EmitText`) |
| CodePrinter.Each | src/LuiTool/HavokScript/Code/Printer.cs:19-45 | a `foreach` over a list: each item in order, laid out by the list's layout, stopping at the first error (`EachText`, `EachErrStays`) |
| CodePrinter.Item | src/LuiTool/HavokScript/Code/Printer.cs:19-45 | one item: what comes before it (the `lvalue` flag, the indent), its visit, then what follows it (`ItemText`) |
| CodePrinter.EmitCompound | src/LuiTool/HavokScript/Code/Printer.cs:19-109 | chunk, block, do, while, repeat, if and else-if, with the block's indent raised by four and its last line break removed (`ChunkText` … `ElseIfText`) |
| CodePrinter.EmitHeaded | src/LuiTool/HavokScript/Code/Printer.cs:111-205 | numeric for, generic for, function and local function, each with its header, body and `end` (`ForText`, `ForInText`, `FunctionText`) |
| CodePrinter.EmitListed | src/LuiTool/HavokScript/Code/Printer.cs:207-287 | local declaration, assignment, return and call, each list written with ", " after every item and the last two characters removed (`LocalText`, `ReturnText`, `CallText`) |
| CodePrinter.EmitAssign | src/LuiTool/HavokScript/Code/Printer.cs:233-253 | the targets with `lvalue` set, " = ", then the values, as both `AssignmentStatement` and `AsmAssign` (lines 365-385) print (`AssignText`) |
| CodePrinter.EmitSimple | src/LuiTool/HavokScript/Code/Printer.cs:269-420 | literals, names, closures, registers, operators, table access and the `asm_` pseudo-instructions (`LeafText`, `BinaryText`, `UnaryText`, `AccessText`, `TestText`, `ForPrepText`) |
| CodePrinter.Quoted | src/LuiTool/HavokScript/Code/Printer.cs:307 | the two `Replace` passes: backslashes doubled, then double quotes escaped (equal to `Escape` by `QuotedEscapes`) |
| CodePrinter.Escape | src/LuiTool/HavokScript/Code/Printer.cs:304-309 | the reference definition of a string literal's body: a backslash before each backslash and each double quote (inverted by `Unescape` in `UnescapeEscape`) |
| CodePrinter.Text | src/LuiTool/HavokScript/Code/Printer.cs:19-420 | the reference text of every node kind, lists joined by their separators, at a given indent and `lvalue` flag (the printer's output by `EmitText`) |
| CodePrinter.ItemText | src/LuiTool/HavokScript/Code/Printer.cs:19-45 | a well-formed item appends its text, with the separator, line end or indent its layout adds |
| CodePrinter.StatementText | src/LuiTool/HavokScript/Code/Printer.cs:19-205 | a well-formed compound or headed statement appends exactly its `Text` |
| CodePrinter.ListedText | src/LuiTool/HavokScript/Code/Printer.cs:207-287 | a well-formed declaration, assignment, return or call appends exactly its `Text` |
| CodePrinter.OperandsText | src/LuiTool/HavokScript/Code/Printer.cs:316-410 | a well-formed binary or unary expression, table access, test or for-prep appends exactly its `Text` |
| CodePrinter.LiteralLeafText | src/LuiTool/HavokScript/Code/Printer.cs:269-314 | `...`, `nil`, a boolean, a number and a name print as themselves |
| CodePrinter.PseudoLeafText | src/LuiTool/HavokScript/Code/Printer.cs:394-420 | a jump and the loop pseudo-instructions print as calls of `asm_` functions |
| CodePrinter.SlotLeafText | src/LuiTool/HavokScript/Code/Printer.cs:351-363 | a closure prints as C and its index; a register as R and its index, followed by its count in parentheses when `lvalue` is set |
| CodePrinter.ValuesText | src/LuiTool/HavokScript/Code/Printer.cs:244-252 | the right-hand side of an assignment is " = " and the values joined by ", " |
| CodePrinter.JoinedTargets | src/LuiTool/HavokScript/Code/Printer.cs:235-241 | the targets of an assignment print with their counts, each followed by ", " |
| CodePrinter.Printer.constructor | src/LuiTool/HavokScript/Code/Printer.cs:12-17 | a new printer has empty text, `lvalue` clear and indent 0 |
| CodePrinter.Printer.Write | src/LuiTool/HavokScript/Code/Printer.cs:24 | `Append` adds the text at the end |
| CodePrinter.Printer.Remove | src/LuiTool/HavokScript/Code/Printer.cs:42 | `Remove(Length - k, k)` drops the last k characters, or fails when there are fewer |
| CodePrinter.Printer.WriteNames | src/LuiTool/HavokScript/Code/Printer.cs:137-141 | appends each name followed by ", " |
| CodePrinter.Printer.Visit | src/LuiTool/HavokScript/Code/Printer.cs:19-420 | `Accept(this)` changes the printer as `Emit` says |
| CodePrinter.Printer.VisitEach | src/LuiTool/HavokScript/Code/Printer.cs:19-45 | a `foreach` over a list changes the printer as `Each` says |
| CodePrinter.Printer.VisitItem | src/LuiTool/HavokScript/Code/Printer.cs:19-45 | one item of a `foreach`, as `Item` says |
| CodePrinter.Printer.StartItem | src/LuiTool/HavokScript/Code/Printer.cs:28-45 | sets `lvalue` before a target and writes the indent before a line, as `ItemStart` says |
| CodePrinter.Printer.EndItem | src/LuiTool/HavokScript/Code/Printer.cs:19-45 | writes ", " or a line break after an item and clears `lvalue` after a target, as `ItemEnd` says |
| CodePrinter.Printer.VisitCompound | src/LuiTool/HavokScript/Code/Printer.cs:19-109 | chunk, block, do, while, repeat, if and else-if visits change the printer as `EmitCompound` says |
| CodePrinter.Printer.VisitStatements | src/LuiTool/HavokScript/Code/Printer.cs:19-45 | chunk and block visits change the printer as `EmitCompound` says |
| CodePrinter.Printer.VisitLoop | src/LuiTool/HavokScript/Code/Printer.cs:47-74 | do, while and repeat visits change the printer as `EmitCompound` says |
| CodePrinter.Printer.VisitIf | src/LuiTool/HavokScript/Code/Printer.cs:76-109 | if and else-if visits change the printer as `EmitCompound` says |
| CodePrinter.Printer.VisitHeaded | src/LuiTool/HavokScript/Code/Printer.cs:111-205 | for, generic for and function visits change the printer as `EmitHeaded` says |
| CodePrinter.Printer.WriteParameters | src/LuiTool/HavokScript/Code/Printer.cs:168-181 | appends "(", the parameters joined by ", ", and ")" with a line break |
| CodePrinter.Printer.VisitListed | src/LuiTool/HavokScript/Code/Printer.cs:207-287 | declaration, return and call visits change the printer as `EmitListed` says |
| CodePrinter.Printer.VisitAssign | src/LuiTool/HavokScript/Code/Printer.cs:233-253 | assignment visits change the printer as `EmitAssign` says |
| CodePrinter.Printer.VisitSimple | src/LuiTool/HavokScript/Code/Printer.cs:269-420 | expression and pseudo-instruction visits change the printer as `EmitSimple` says |
| CodePrinter.Printer.VisitLeaf | src/LuiTool/HavokScript/Code/Printer.cs:269-420 | the kinds that write one piece of text change the printer as `EmitSimple` says |
| CodePrinter.Printer.VisitOperands | src/LuiTool/HavokScript/Code/Printer.cs:316-410 | operators, table access, test and for-prep visits change the printer as `EmitSimple` says |
| CodePrinter.Printer.GetCode | src/LuiTool/HavokScript/Code/Printer.cs:422-425 | the code is the text so far |
| CodePrinter.PrintTree | src/LuiTool/HavokScript/Code/Printer.cs:12-17 | a fresh printer's code for a tree, or the error that stopped it |
| HksDecompiler.Arg | src/LuiTool/HavokScript/Decompiler.cs:62 | `inst.Args[k]` exists exactly when k is below the argument count, and is that argument |
| HksDecompiler.ArgValue | src/LuiTool/HavokScript/Decompiler.cs:62 | `inst.Args[k].Value` exists exactly when k is below the argument count, and is that argument's value |
| HksDecompiler.Registers | src/LuiTool/HavokScript/Decompiler.cs:393-433 | the loops that build register lists give one fresh register per index, first, first + 1, ..., none for a non-positive count |
| HksDecompiler.ConstantLiteral | src/LuiTool/HavokScript/Decompiler.cs:612-628 | for the corrected conversion (see "## Findings"): a constant decompiles exactly when it exists, has one of the four literal types and a payload of that type, and becomes the matching literal |
| HksDecompiler.DecompileConstantAsWritten | src/LuiTool/HavokScript/Decompiler.cs:612-628 | the unboxing casts as written: whatever succeeds is what the corrected conversion gives |
| HksDecompiler.AsWrittenCastsDiffer | src/LuiTool/HavokScript/Decompiler.cs:619-624 | the casts as written differ from the corrected conversion exactly on boolean payloads and integral numbers, where they fail with `InvalidCast` and the corrected one succeeds |
| HksDecompiler.ReadBooleanNeverDecompiles | src/LuiTool/HavokScript/Disassembler.cs:197-199 | every boolean constant the disassembler reads has a byte payload, so `(bool)` throws on it, while the corrected conversion gives the literal of that byte |
| HksDecompiler.ReadIntegralNeverDecompiles | src/LuiTool/HavokScript/Disassembler.cs:203-212 | every number read under an integral header is an int or a long, so `(double)` throws on it, while the corrected conversion gives its value |
| HksDecompiler.TrueConstantCounterexample | src/LuiTool/HavokScript/Decompiler.cs:621 | the constant `true` (payload byte 1) fails as written and is the literal `true` when corrected |
| HksDecompiler.GlobalIdentifier | src/LuiTool/HavokScript/Decompiler.cs:631-641 | a global decompiles exactly when its constant exists and is a string, names that string, and otherwise fails with the "global only support string const" error |
| HksDecompiler.LoadBoolLowering | src/LuiTool/HavokScript/Decompiler.cs:172-185 | LOADBOOL assigns the boolean B ≠ 0 to register A and adds a one-instruction jump exactly when C ≠ 0 |
| HksDecompiler.CompareLowering | src/LuiTool/HavokScript/Decompiler.cs:95-171 | every comparison and TEST appends one `Test`; a comparison's operator is the negated one exactly when A is 1, and TEST wraps its register in "not " exactly when C is 1 |
| HksDecompiler.CompareOperators | src/LuiTool/HavokScript/Decompiler.cs:112-171 | EQ, LT and LE (and their constant-left forms) use ==/~=, </>= and <=/>, A = 1 choosing the second |
| HksDecompiler.ReturnLowering | src/LuiTool/HavokScript/Decompiler.cs:393-408 | RETURN with B > 0 returns the B − 1 registers from A; with B ≤ 0 it appends nothing |
| HksDecompiler.CallLowering | src/LuiTool/HavokScript/Decompiler.cs:409-433 | a call assigns to the C registers from A a call of register A with the B − 1 registers after A as arguments |
| HksDecompiler.CallSlotsDistinct | src/LuiTool/HavokScript/Decompiler.cs:409-433 | the register objects one call creates are pairwise distinct |
| HksDecompiler.SilentLowering | src/LuiTool/HavokScript/Decompiler.cs:186-197 | LOADNIL (whose statement is built and never added), GETFIELD, DATA and opcodes without a case append nothing |
| HksDecompiler.LowerAllErrStays | src/LuiTool/HavokScript/Decompiler.cs:40-43 | the first instruction that fails stops the function with its error |
| HksDecompiler.Drop | src/LuiTool/HavokScript/Decompiler.cs:526-530 | `RemoveAt` shortens the list by one |
| HksDecompiler.FindLocation | src/LuiTool/HavokScript/Decompiler.cs:591-599 | the least index of a statement at the address, or the "location not found" error exactly when there is none |
| HksDecompiler.Collapse | src/LuiTool/HavokScript/Decompiler.cs:546-589 | for-each, repeat-until and while recovery replace end − begin + 1 statements by one block |
| HksDecompiler.ForRewrite | src/LuiTool/HavokScript/Decompiler.cs:518-544 | numeric-for recovery, when it succeeds, leaves at least one statement and at least four fewer |
| HksDecompiler.WithoutFor | src/LuiTool/HavokScript/Decompiler.cs:526-530 | the five removals leave five statements fewer |
| HksDecompiler.WithoutForSlice | src/LuiTool/HavokScript/Decompiler.cs:526-530 | when the FORLOOP follows the prep, the removals leave the prefix, the body and the suffix |
| HksDecompiler.ForRewriteSlice | src/LuiTool/HavokScript/Decompiler.cs:518-544 | when the FORLOOP follows the prep, the `for` takes the place of init to FORLOOP, and its body is what lay between prep and FORLOOP with its own loops recovered |
| HksDecompiler.ForRewriteUnmarked | src/LuiTool/HavokScript/Decompiler.cs:518-544 | a loop body without nested loops is kept as it is |
| HksDecompiler.ScanUnmarked | src/LuiTool/HavokScript/Decompiler.cs:475-516 | the scan passes over statements that are neither a FORLOOP nor a backward jump without changing anything |
| HksDecompiler.LoopsUnmarked | src/LuiTool/HavokScript/Decompiler.cs:475-516 | loop recovery leaves a list without FORLOOPs and backward jumps unchanged |
| HksDecompiler.BackJumpCollapses | src/LuiTool/HavokScript/Decompiler.cs:492-516 | a backward jump that ends a list of ordinary statements folds its target up to itself into one block |
| HksDecompiler.ForLoopRecovered | src/LuiTool/HavokScript/Decompiler.cs:479-490 | a FORLOOP that ends a list of ordinary statements and targets the statement after a prep becomes one `for` over init, limit, step and the body |
| HksDecompiler.CollapseShrinks | src/LuiTool/HavokScript/Decompiler.cs:546-589 | each collapse shortens the list or removes a backward jump, so the rescans end |
| HksDecompiler.DecompileConstant | src/LuiTool/HavokScript/Decompiler.cs:612-628 | the corrected conversion (see "## Findings"): a nil, boolean, number or string literal for the constant at the index; out of range, a payload of the wrong kind or the "internal error: constant" otherwise (`ConstantLiteral`) |
| HksDecompiler.DecompileGlobal | src/LuiTool/HavokScript/Decompiler.cs:631-641 | the identifier a string constant names; out of range, a failed cast or the "global only support string const" error otherwise (`GlobalIdentifier`) |
| HksDecompiler.DecompileRK | src/LuiTool/HavokScript/Decompiler.cs:601-610 | a register operand names a register; any other operand is decompiled as a constant |
| HksDecompiler.Lower | src/LuiTool/HavokScript/Decompiler.cs:56-463 | the statements one instruction appends, operands read in the order the C# reads them, or the error it throws (`LoadBoolLowering`, `CompareLowering`, `ReturnLowering`, `CallLowering`, `SilentLowering`) |
| HksDecompiler.LowerAll | src/LuiTool/HavokScript/Decompiler.cs:40-43 | the statements of all instructions in order, stopping at the first error (`LowerAllErrStays`) |
| HksDecompiler.Scan | src/LuiTool/HavokScript/Decompiler.cs:475-516 | the backward scan of `DecompileLoops` from index i, restarting from the end after each rewrite (`ScanAtForLoop`, `ScanAtFor`, `ScanAtBackJump`, `ScanPast`) |
| HksDecompiler.ScanFor | src/LuiTool/HavokScript/Decompiler.cs:479-490 | at a FORLOOP: its target located, the "bad for prep" error unless a prep precedes it, then the `for` rewrite and the scan again |
| HksDecompiler.ScanJump | src/LuiTool/HavokScript/Decompiler.cs:492-516 | at a backward jump: its target located, the scan diverging when the target lies after it, then the collapse and the scan again |
| HksDecompiler.Loops | src/LuiTool/HavokScript/Decompiler.cs:475-516 | loop recovery over a whole list (`LoopsUnmarked`, `ForLoopRecovered`, `BackJumpCollapses`) |
| HksDecompiler.ScanAtForLoop | src/LuiTool/HavokScript/Decompiler.cs:479-486 | at a FORLOOP whose target is missing, or is not right after a prep, the scan stops with that error |
| HksDecompiler.ScanAtFor | src/LuiTool/HavokScript/Decompiler.cs:479-490 | at a FORLOOP right after its prep the scan goes on from the end of the `for` rewrite, or stops with its error |
| HksDecompiler.ScanAtBackJump | src/LuiTool/HavokScript/Decompiler.cs:492-516 | at a backward jump the scan stops when the target is missing or after the jump, and otherwise goes on from the end of the collapsed list |
| HksDecompiler.ScanPast | src/LuiTool/HavokScript/Decompiler.cs:475-516 | any other statement is passed over |
| HksDecompiler.FunctionOf | src/LuiTool/HavokScript/Decompiler.cs:34-54 | a function statement at the function's address, named by the empty identifier, without parameters, whose body is the lowered instructions with their loops recovered |
| HksDecompiler.DecompileFile | src/LuiTool/HavokScript/Decompiler.cs:18-32 | the main function in a chunk at address 0, then reference counting, then register wrapping (`DecompiledChunk`, `AnnotatedFunction`) |
| HksDecompiler.DecompiledChunk | src/LuiTool/HavokScript/Decompiler.cs:18-32 | the result is a chunk at address 0 with at most the main function's statement, unnamed and without parameters |
| HksDecompiler.AnnotatedFunction | src/LuiTool/HavokScript/Decompiler.cs:26-27 | reference counting keeps the chunk's one function statement and its header |
| HksDecompiler.Decompiler.constructor | src/LuiTool/HavokScript/Decompiler.cs:14-16 | a new decompiler has no constants and no statements |
| HksDecompiler.Decompiler.DecompileInstruction | src/LuiTool/HavokScript/Decompiler.cs:56-463 | appends the instruction's statements, or fails with the lowering's error and appends nothing |
| HksDecompiler.Decompiler.DecompileFunction | src/LuiTool/HavokScript/Decompiler.cs:34-54 | lowers every instruction in order, then recovers loops; the result is `FunctionOf` |
| HksDecompiler.Decompiler.Locate | src/LuiTool/HavokScript/Decompiler.cs:591-599 | the loop finds what `FindLocation` says |
| HksDecompiler.Decompiler.DecompileLoops | src/LuiTool/HavokScript/Decompiler.cs:475-516 | the backward scan with restarts computes `Loops` |
| HksDecompiler.Decompiler.LoopAtFor | src/LuiTool/HavokScript/Decompiler.cs:479-490 | at a FORLOOP: the rewritten list the scan goes on from, shorter and non-empty, or the error the scan stops with |
| HksDecompiler.Decompiler.LoopAtJump | src/LuiTool/HavokScript/Decompiler.cs:492-516 | at a backward jump: the collapsed list the scan goes on from, shorter or with a marker fewer, or the error the scan stops with |
| HksDecompiler.Decompiler.DecompileFor | src/LuiTool/HavokScript/Decompiler.cs:518-544 | the removals, the body loop and the insertion compute `ForRewrite` |
| HksDecompiler.Decompiler.MoveOut | src/LuiTool/HavokScript/Decompiler.cs:534-538 | moving count statements at begin into a new list yields exactly that slice and leaves the rest in order |
| HksDecompiler.Decompiler.CollapseRange | src/LuiTool/HavokScript/Decompiler.cs:546-589 | the body loop and the insertion compute `Collapse` |
| HksDecompiler.Decompiler.Decompile | src/LuiTool/HavokScript/Decompiler.cs:18-32 | the function, then the reference-count pass, then the register-wrapping pass: `DecompileFile` |
| LuaAst.KindsPartitioned | src/LuiTool/HavokScript/Code/Ast.cs:5-144 | `Chunk` and `ElseIfBlock` derive from `Node` only; every other kind is a statement or an expression, never both |
| LuaAst.NewRegister | src/LuiTool/HavokScript/Code/Ast.cs:318-323 | a new register node has the address and index given and reference count 0 |
| LuaAst.Assign | src/LuiTool/HavokScript/Code/Ast.cs:266-273 | the one-target assignment constructor holds exactly that target and that value |
| LuaAst.AssignAll | src/LuiTool/HavokScript/Code/Ast.cs:258-264 | the list-and-value assignment constructor holds the given targets and the one value |
| LuaAst.AsmAssignOne | src/LuiTool/HavokScript/Code/Ast.cs:537-543 | the one-target `AsmAssign` constructor holds exactly that target and that value |
| LuaAst.AsmAssignAll | src/LuiTool/HavokScript/Code/Ast.cs:529-535 | the list-and-value `AsmAssign` constructor holds the given targets and the one value |
| PassRefCounter.RValueIncrements | src/LuiTool/HavokScript/Code/PassRefCounter.cs:125-129 | a register read adds one to the count of the node in its slot, changes nothing else, and fails exactly when the slot is out of range |
| PassRefCounter.LValueBinds | src/LuiTool/HavokScript/Code/PassRefCounter.cs:112-124 | a register target takes the next free slot (the stack grows by one) or an existing slot (the stack keeps its length), and throws otherwise |
| PassRefCounter.FollowsTrans | src/LuiTool/HavokScript/Code/PassRefCounter.cs:17-229 | the walk's invariant (slots only pushed, counts never lost or lowered, the flag restored) composes over consecutive visits |
| PassRefCounter.NodeFollows | src/LuiTool/HavokScript/Code/PassRefCounter.cs:17-229 | every visit keeps that invariant |
| PassRefCounter.ForFollows | src/LuiTool/HavokScript/Code/PassRefCounter.cs:53-64 | the visit of a numeric for keeps it |
| PassRefCounter.PrepFollows | src/LuiTool/HavokScript/Code/PassRefCounter.cs:213-222 | the visit of a loop preparation keeps it |
| PassRefCounter.AssignFollows | src/LuiTool/HavokScript/Code/PassRefCounter.cs:83-96 | the visit of an assignment keeps it (`AsmAssign` alike, lines 189-202) |
| PassRefCounter.CallFollows | src/LuiTool/HavokScript/Code/PassRefCounter.cs:136-144 | the visit of a call keeps it |
| PassRefCounter.PairFollows | src/LuiTool/HavokScript/Code/PassRefCounter.cs:166-187 | the visit of a binary expression or a table access keeps it |
| PassRefCounter.TargetFollows | src/LuiTool/HavokScript/Code/PassRefCounter.cs:92-94 | the visit of one target, with the flag set and cleared after, keeps it |
| PassRefCounter.ListFollows | src/LuiTool/HavokScript/Code/PassRefCounter.cs:19-22 | the visit of a list keeps it |
| PassRefCounter.TargetsFollow | src/LuiTool/HavokScript/Code/PassRefCounter.cs:90-95 | the visit of a target list keeps it |
| PassRefCounter.ListErrStays | src/LuiTool/HavokScript/Code/PassRefCounter.cs:19-22 | the first item that throws stops the list with its error |
| PassRefCounter.TargetsErrStays | src/LuiTool/HavokScript/Code/PassRefCounter.cs:90-95 | the first target that throws stops the list with its error |
| PassRefCounter.ReadBeforeBind | src/LuiTool/HavokScript/Code/PassRefCounter.cs:83-96 | in `R(i) = R(i)` the value is read first, adding one to the node previously in slot i, and only then does the target take the slot |
| PassRefCounter.SingleValue | src/LuiTool/HavokScript/Code/PassRefCounter.cs:85-88 | a one-value list is that value's visit |
| PassRefCounter.SingleTarget | src/LuiTool/HavokScript/Code/PassRefCounter.cs:90-95 | a one-target list is that target's visit with the flag set, then cleared |
| PassRefCounter.QuietKinds | src/LuiTool/HavokScript/Code/PassRefCounter.cs:33-230 | the statements the pass leaves alone (do, while, repeat, if, generic for, local function and declaration, jumps, loop markers) and the leaves change nothing |
| PassRefCounter.Bind | src/LuiTool/HavokScript/Code/PassRefCounter.cs:112-124 | a register target keeps the count its node already has, or starts from the node's own count the first time it is seen |
| PassRefCounter.CountRegister | src/LuiTool/HavokScript/Code/PassRefCounter.cs:110-130 | a target takes the next free slot or an existing one and fails past the end; a value adds one to the count of the node in its slot (`LValueBinds`, `RValueIncrements`) |
| PassRefCounter.CountNode | src/LuiTool/HavokScript/Code/PassRefCounter.cs:17-230 | the state after one node's visit, child by child in the C# order, or the exception it throws (`NodeFollows`, `QuietKinds`) |
| PassRefCounter.CountFor | src/LuiTool/HavokScript/Code/PassRefCounter.cs:53-64 | start, limit and step as values, the variable as a target, then the body (`ForFollows`) |
| PassRefCounter.CountForPrep | src/LuiTool/HavokScript/Code/PassRefCounter.cs:213-222 | the three loop registers as values, then the variable as a target (`PrepFollows`) |
| PassRefCounter.CountAssignment | src/LuiTool/HavokScript/Code/PassRefCounter.cs:83-96 | every value, then every target (`AssignFollows`, `ReadBeforeBind`) |
| PassRefCounter.CountCall | src/LuiTool/HavokScript/Code/PassRefCounter.cs:136-144 | the callee, then each argument (`CallFollows`) |
| PassRefCounter.CountPair | src/LuiTool/HavokScript/Code/PassRefCounter.cs:166-187 | both children in order (`PairFollows`) |
| PassRefCounter.CountTarget | src/LuiTool/HavokScript/Code/PassRefCounter.cs:92-94 | one target with `lvalue` set, cleared afterwards (`TargetFollows`, `SingleTarget`) |
| PassRefCounter.CountList | src/LuiTool/HavokScript/Code/PassRefCounter.cs:19-22 | each node of a list in order, stopping at the first error (`ListFollows`, `ListErrStays`) |
| PassRefCounter.CountTargets | src/LuiTool/HavokScript/Code/PassRefCounter.cs:90-95 | each target of a list in order (`TargetsFollow`, `TargetsErrStays`) |
| PassRefCounter.Annotate | src/LuiTool/HavokScript/Code/PassRefCounter.cs:125-129 | the tree with each register node carrying the count its identity reached, as the in-place `refcount++` leaves it |
| PassRefCounter.RefCount | src/LuiTool/HavokScript/Decompiler.cs:26-27 | the walk from an empty stack, then the counts written into the tree (`AnnotatedFunction`) |
| PassRefCounter.RefCounter.constructor | src/LuiTool/HavokScript/Code/PassRefCounter.cs:11-15 | a new pass has an empty stack and the flag clear |
| PassRefCounter.RefCounter.Visit | src/LuiTool/HavokScript/Code/PassRefCounter.cs:17-230 | `Accept(this)` changes the pass as `CountNode` says, or fails with its error |
| PassRefCounter.RefCounter.VisitExpression | src/LuiTool/HavokScript/Code/PassRefCounter.cs:106-187 | expression visits change the pass as `CountNode` says |
| PassRefCounter.RefCounter.VisitCall | src/LuiTool/HavokScript/Code/PassRefCounter.cs:136-144 | the callee, then each argument, as `CountCall` says |
| PassRefCounter.RefCounter.VisitPair | src/LuiTool/HavokScript/Code/PassRefCounter.cs:166-187 | both children in order, as `CountPair` says |
| PassRefCounter.RefCounter.VisitRegister | src/LuiTool/HavokScript/Code/PassRefCounter.cs:110-130 | the register visit changes the stack and counts as `CountRegister` says |
| PassRefCounter.RefCounter.VisitFor | src/LuiTool/HavokScript/Code/PassRefCounter.cs:53-64 | start, limit, step, the variable as a target, then the body, as `CountFor` says |
| PassRefCounter.RefCounter.VisitForPrep | src/LuiTool/HavokScript/Code/PassRefCounter.cs:213-222 | the three loop registers, then the variable as a target, as `CountForPrep` says |
| PassRefCounter.RefCounter.VisitAssignment | src/LuiTool/HavokScript/Code/PassRefCounter.cs:83-96 | every value, then every target, as `CountAssignment` says |
| PassRefCounter.RefCounter.VisitTarget | src/LuiTool/HavokScript/Code/PassRefCounter.cs:92-94 | one target with the flag set, then cleared, as `CountTarget` says |
| PassRefCounter.RefCounter.VisitList | src/LuiTool/HavokScript/Code/PassRefCounter.cs:19-22 | a `foreach` over a list, as `CountList` says |
| PassRefCounter.RefCounter.VisitTargets | src/LuiTool/HavokScript/Code/PassRefCounter.cs:90-95 | a `foreach` over targets, as `CountTargets` says |
| PassWrapRegister.WriteSlot | src/LuiTool/HavokScript/Code/PassWrapRegister.cs:157-162 | storing in slot i succeeds exactly when i is at most the stack length, appends at the length, replaces below it, and throws above it |
| PassWrapRegister.Lookup | src/LuiTool/HavokScript/Code/PassWrapRegister.cs:251-255 | a register reads the expression in its slot, and fails exactly when the slot is out of range |
| PassWrapRegister.SwapListLength | src/LuiTool/HavokScript/Code/PassWrapRegister.cs:137-140 | swapping a list in place keeps its length |
| PassWrapRegister.WrapListShrinks | src/LuiTool/HavokScript/Code/PassWrapRegister.cs:41-53 | a statement list only loses statements |
| PassWrapRegister.WrapListErrStays | src/LuiTool/HavokScript/Code/PassWrapRegister.cs:41-53 | the first statement that throws stops the list with its error |
| PassWrapRegister.SwapListErrStays | src/LuiTool/HavokScript/Code/PassWrapRegister.cs:137-140 | the first item whose swap throws stops the list with its error |
| PassWrapRegister.LeafSwaps | src/LuiTool/HavokScript/Code/PassWrapRegister.cs:249-259 | swapping a literal returns it and changes no field |
| PassWrapRegister.LiteralAssignment | src/LuiTool/HavokScript/Code/PassWrapRegister.cs:134-174 | in `R(i) = v` the slot takes v and the statement asks for deletion when the target's count is at most 1; otherwise the slot takes the register and the statement stays |
| PassWrapRegister.SingleUseInlined | src/LuiTool/HavokScript/Code/PassWrapRegister.cs:41-53 | a temporary read once is folded into its reader: `R(i) = v; return R(i)` becomes `return v` |
| PassWrapRegister.MultiUseKept | src/LuiTool/HavokScript/Code/PassWrapRegister.cs:41-53 | a temporary read more than once stays, and its reader still names the register |
| PassWrapRegister.SwapSingle | src/LuiTool/HavokScript/Code/PassWrapRegister.cs:137-140 | a one-value list is that value's swap |
| PassWrapRegister.WrapSingle | src/LuiTool/HavokScript/Code/PassWrapRegister.cs:41-53 | a one-statement list is that statement's visit, dropped when it asked for deletion |
| PassWrapRegister.CallAssignmentKept | src/LuiTool/HavokScript/Code/PassWrapRegister.cs:142-147 | an assignment of one call value is kept whole, and the call-assignment flag is raised exactly when there is one target |
| PassWrapRegister.InnerRemovalLeaks | src/LuiTool/HavokScript/Code/PassWrapRegister.cs:76-115 | the deletion flag leaks out of a loop body: when the body's last statement is deleted, the list holding the loop drops the whole loop |
| PassWrapRegister.BodyEmptied | src/LuiTool/HavokScript/Code/PassWrapRegister.cs:41-53 | a block whose only statement is deleted is left empty with the deletion flag still set |
| PassWrapRegister.Swap | src/LuiTool/HavokScript/Code/PassWrapRegister.cs:249-259 | a register becomes the expression in its slot; any other node is visited and kept (`LeafSwaps`) |
| PassWrapRegister.WrapNode | src/LuiTool/HavokScript/Code/PassWrapRegister.cs:19-323 | a node as it reads after the visit, and the fields after it, or the exception the visit throws (`SingleUseInlined`, `MultiUseKept`) |
| PassWrapRegister.WrapFor | src/LuiTool/HavokScript/Code/PassWrapRegister.cs:76-115 | start, limit and step, each unwrapped when it asked for deletion; the variable stored in its slot; then the body (`InnerRemovalLeaks`) |
| PassWrapRegister.WrapPart | src/LuiTool/HavokScript/Code/PassWrapRegister.cs:78-85 | one loop part visited, then unwrapped |
| PassWrapRegister.Unwrap | src/LuiTool/HavokScript/Code/PassWrapRegister.cs:80-85 | a part that asked for deletion gives way to its assignment's first value; the cast or the index fails otherwise |
| PassWrapRegister.WrapAssignment | src/LuiTool/HavokScript/Code/PassWrapRegister.cs:134-174 | values swapped first; a single call value raises the call-assignment flag; a single register target read at most once takes the value into its slot and asks for deletion, one read more often takes itself (`LiteralAssignment`, `CallAssignmentKept`) |
| PassWrapRegister.WrapCall | src/LuiTool/HavokScript/Code/PassWrapRegister.cs:196-205 | the callee visited, then swapped, then each argument swapped |
| PassWrapRegister.SwapList | src/LuiTool/HavokScript/Code/PassWrapRegister.cs:137-140 | each element swapped in place, in order (`SwapListLength`, `SwapListErrStays`) |
| PassWrapRegister.WrapList | src/LuiTool/HavokScript/Code/PassWrapRegister.cs:41-53 | each statement visited with the deletion flag cleared first, and dropped when its visit set the flag (`WrapListShrinks`, `WrapSingle`, `BodyEmptied`) |
| PassWrapRegister.WrapListStep | src/LuiTool/HavokScript/Code/PassWrapRegister.cs:43-52 | one more statement of the list: its rewrite is appended unless it asked to be removed |
| PassWrapRegister.WrapListStepErr | src/LuiTool/HavokScript/Code/PassWrapRegister.cs:43-52 | a statement that throws ends the list with its error |
| PassWrapRegister.RegisterWrapper.constructor | src/LuiTool/HavokScript/Code/PassWrapRegister.cs:12-17 | a new pass has an empty stack and both flags clear |
| PassWrapRegister.RegisterWrapper.Visit | src/LuiTool/HavokScript/Code/PassWrapRegister.cs:19-323 | `Accept(this)` rewrites the node and changes the fields as `WrapNode` says |
| PassWrapRegister.RegisterWrapper.VisitExpression | src/LuiTool/HavokScript/Code/PassWrapRegister.cs:184-247 | expression visits, as `WrapNode` says |
| PassWrapRegister.RegisterWrapper.SwapIn | src/LuiTool/HavokScript/Code/PassWrapRegister.cs:249-259 | `Swap`: a register becomes its slot's expression, anything else is visited and kept |
| PassWrapRegister.RegisterWrapper.ReadSlot | src/LuiTool/HavokScript/Code/PassWrapRegister.cs:254 | `stack[reg.index]`, as `Lookup` says |
| PassWrapRegister.RegisterWrapper.Store | src/LuiTool/HavokScript/Code/PassWrapRegister.cs:157-162 | the three-way store into the slot stack, as `WriteSlot` says, leaving both flags alone |
| PassWrapRegister.RegisterWrapper.VisitFor | src/LuiTool/HavokScript/Code/PassWrapRegister.cs:76-115 | start, limit and step with deleted assignments unwrapped, the variable stored, then the body, as `WrapFor` says |
| PassWrapRegister.RegisterWrapper.VisitPart | src/LuiTool/HavokScript/Code/PassWrapRegister.cs:78-85 | one loop part visited and unwrapped when it asked for deletion, as `WrapPart` says |
| PassWrapRegister.RegisterWrapper.Replace | src/LuiTool/HavokScript/Code/PassWrapRegister.cs:82-84 | a deleted part is replaced by its assignment's first value, or the cast or index fails |
| PassWrapRegister.RegisterWrapper.VisitAssignment | src/LuiTool/HavokScript/Code/PassWrapRegister.cs:134-174 | values swapped, then the call check, then the store, as `WrapAssignment` says (`AsmAssign` alike, lines 262-302) |
| PassWrapRegister.RegisterWrapper.VisitCall | src/LuiTool/HavokScript/Code/PassWrapRegister.cs:196-205 | the callee visited and swapped, then each argument swapped, as `WrapCall` says |
| PassWrapRegister.RegisterWrapper.SwapAll | src/LuiTool/HavokScript/Code/PassWrapRegister.cs:178-181 | each element swapped in place, as `SwapList` says |
| PassWrapRegister.RegisterWrapper.VisitList | src/LuiTool/HavokScript/Code/PassWrapRegister.cs:41-53 | the statement loop with deletion and index step-back, as `WrapList` says |
| IW6.MasksMatchLayout | src/IW6/IW6.hpp:27-43 | each mask is the field its size and position describe |
| IW6.MasksPartitionWord | src/IW6/IW6.hpp:16-43 | OP, B, C and A are pairwise disjoint and cover the 32-bit word, and Bx is B and C together |
| IW6.MaxArgs | src/IW6/IW6.hpp:45-46 | MAXARG_Bx is 2^17 − 1 and MAXARG_sBx, the bias of sBx, is 0xFFFF |
| IW6.EnumeratorsConsecutive | src/IW6/IW6.hpp:55-152 | the opcode enumerators are numbered 0x00, 0x01, ... in declaration order, ending at MAX = 0x5E |
| IW6.EnumeratorsFitOpField | src/IW6/IW6.hpp:55-152 | every enumerator fits the 7-bit OP field |
| IW6Resolver.FindKey | src/IW6/resolver.cpp:27 | the first table entry with the key, or none exactly when no entry has it |
| IW6Resolver.FindName | src/IW6/resolver.cpp:13-19 | the first table entry with the name, or none exactly when no entry has it |
| IW6Resolver.OpcodeName | src/IW6/resolver.cpp:25-36 | the name is non-empty exactly when the opcode is listed, and then it is the listed name; otherwise "" |
| IW6Resolver.IdOf | src/IW6/resolver.cpp:11-23 | a listed name resolves to its entry's opcode, an unlisted one to MAX |
| IW6Resolver.OpcodeId | src/IW6/resolver.cpp:11-23 | the search loop returns `IdOf` |
| IW6Resolver.IdOfName | src/IW6/resolver.cpp:11-36 | looking a listed opcode's name up again gives the opcode back |
| IW6Resolver.NameOfId | src/IW6/resolver.cpp:11-36 | naming the opcode of a listed name gives the name back |
| IW6Resolver.BetweenKeysUnnamed | src/IW6/resolver.cpp:25-36 | an opcode strictly between two neighbouring keys is not listed and is named "" |
| IW6Resolver.SomeEnumeratorsUnnamed | src/IW6/resolver.cpp:38-104 | CALL_C, GETTABLE_N and SETSLOT are enumerators the table leaves out |
| IW6Resolver.UnlistedNameIsMax | src/IW6/resolver.cpp:21-22 | an unlisted name resolves to MAX |
| IW6Resolver.KeysAscending | src/IW6/resolver.cpp:38-104 | the table's 64 keys are listed in ascending order, so none repeats |
| IW6Resolver.NamesDistinct | src/IW6/resolver.cpp:38-104 | no two entries share a name |
| IW6Resolver.NameUnique | src/IW6/resolver.cpp:38-104 | two entries with the same name are the same entry |
| IW6Resolver.NamesNonEmpty | src/IW6/resolver.cpp:38-104 | no listed name is empty, so "" means "not listed" |
| LuiAssembly.NewReg | src/utils/types/assembly.hpp:44 | `reg(index)` has the index, the undefined type and an empty value |
| LuiAssembly.RegTextReadsBack | src/utils/types/assembly.hpp:46-49 | for an index below 2^31 the text is "R(", at least two decimal digits that read back as the index, and ")" |
| LuiAssembly.ConstantText | src/utils/types/assembly.hpp:59-62 | the text is "K(", the value, ")" |
| LuiAssembly.NewInstruction | src/utils/types/assembly.hpp:87-90 | the constructor stores every given field, leaves the text empty and the mode unset |
| IW6Assembler.U32 | src/IW6/assembler.cpp:36 | `write<std::uint32_t>` writes four bytes |
| IW6Assembler.U64 | src/IW6/assembler.cpp:79 | `write<std::uint64_t>` writes eight bytes |
| IW6Assembler.U8 | src/IW6/assembler.cpp:37 | `write<std::uint8_t>` writes one byte, the value modulo 256 |
| IW6Assembler.CString | src/IW6/assembler.cpp:69 | `write_c_string` writes the string's bytes and then one NUL |
| IW6Assembler.TypeTableInOrder | src/IW6/assembler.cpp:49-63 | the static type table has 13 entries and entry i has id i, so the type count written (13) matches it |
| IW6Assembler.WriteTypes | src/IW6/assembler.cpp:65-70 | the type-table loop only appends to the buffer |
| IW6Assembler.WriteHeader | src/IW6/assembler.cpp:34-71 | the header appends at least 18 bytes and keeps what was written |
| IW6Assembler.WriteHeaderFields | src/IW6/assembler.cpp:36-47 | the fixed header fields are exactly 18 bytes |
| IW6Assembler.WriteConstant | src/IW6/assembler.cpp:112-139 | a constant appends its tag byte first; any tag but nil, boolean, number and string fails with "UNKNOWN CONSTANT TYPE" |
| IW6Assembler.WriteConstants | src/IW6/assembler.cpp:95-100 | the constant loop only appends, and fails when the count exceeds the list |
| IW6Assembler.Filler | src/IW6/assembler.cpp:82-87 | the padding is that many 0x5F bytes |
| IW6Assembler.WriteInstructions | src/IW6/assembler.cpp:90-93 | the instruction loop writes four bytes per counted instruction and fails when the count exceeds the list |
| IW6Assembler.WriteFunction | src/IW6/assembler.cpp:73-110 | a function appends at least 33 bytes and keeps what was written |
| IW6Assembler.WriteHead | src/IW6/assembler.cpp:75-87 | the five fields and the padding append at least 21 bytes and end on a multiple of four |
| IW6Assembler.WriteSubFunctions | src/IW6/assembler.cpp:106-109 | the sub-function loop only appends |
| IW6Assembler.WritePrototype | src/IW6/assembler.cpp:141-146 | the trailer is 12 bytes |
| IW6Assembler.WriteFile | src/IW6/assembler.cpp:26-32 | the fixed header, the main function and the 12-byte trailer into a fresh buffer, or the function's error (round trip in `IW6RoundTrip.FileRoundTrip`) |
| IW6Assembler.Assembler.constructor | src/IW6/assembler.cpp:28 | a new assembler has an empty buffer |
| IW6Assembler.Assembler.Output | src/IW6/assembler.cpp:11-19 | `output()` is the bytes written so far |
| IW6Assembler.Assembler.Assemble | src/IW6/assembler.cpp:26-32 | header, main function and trailer, as `WriteFile` says, or the error that stopped it |
| IW6Assembler.Assembler.Write | src/IW6/assembler.cpp:36-47 | `write<T>` appends the value's little-endian bytes |
| IW6Assembler.Assembler.WriteCString | src/IW6/assembler.cpp:69 | `write_c_string` appends `CString` |
| IW6Assembler.Assembler.AssembleHeader | src/IW6/assembler.cpp:34-71 | writes `WriteHeader` |
| IW6Assembler.Assembler.AssembleTypes | src/IW6/assembler.cpp:65-70 | the type loop writes `WriteTypes` |
| IW6Assembler.Assembler.AssemblePrototype | src/IW6/assembler.cpp:141-146 | writes `WritePrototype` |
| IW6Assembler.Assembler.AssembleFunction | src/IW6/assembler.cpp:73-110 | writes `WriteFunction`, or stops with its error |
| IW6Assembler.Assembler.AssembleHead | src/IW6/assembler.cpp:75-87 | writes `WriteHead` |
| IW6Assembler.Assembler.AssembleInstructions | src/IW6/assembler.cpp:90-93 | the loop writes `WriteInstructions`, or stops at the first `at` out of range |
| IW6Assembler.Assembler.AssembleConstants | src/IW6/assembler.cpp:97-100 | the loop writes `WriteConstants`, or stops with its error |
| IW6Assembler.Assembler.AssembleConstant | src/IW6/assembler.cpp:112-139 | `constants.at(index)` out of range fails and writes nothing; otherwise writes `WriteConstant` |
| IW6Assembler.Assembler.AssembleSubFunctions | src/IW6/assembler.cpp:106-109 | the loop writes `WriteSubFunctions`, or stops with its error |
| IW6Disassembler.NulFrom | src/IW6/disassembler.cpp:48 | the first NUL at or after the position, or none exactly when there is none |
| IW6Disassembler.ReadCString | src/IW6/disassembler.cpp:48 | `read_string` returns the bytes before the next NUL and consumes the NUL; with no NUL left it fails |
| IW6Disassembler.ParseTypeInfo | src/IW6/disassembler.cpp:46-50 | a type entry is more than the two u32 fields: id, ignored length, NUL-terminated name |
| IW6Disassembler.ParseTypeInfoList | src/IW6/disassembler.cpp:44-51 | the type loop reads exactly the counted entries, after those already read |
| IW6Disassembler.ParseHeader | src/IW6/disassembler.cpp:29-52 | the magic, format version, size_t width and type count come from their byte offsets, and exactly type-count entries follow |
| IW6Disassembler.DecodeInstruction | src/IW6/disassembler.cpp:102-117 | the decoded fields fit their widths: OP below 0x80, A, B and C below 0x100, Bx below 2^17 |
| IW6Disassembler.DecodeAgreesWithHksOp | src/IW6/disassembler.cpp:106-113 | the C++ and C# readers extract the same opcode, A, B, C, Bx, sBx and sZero from a word |
| IW6Disassembler.OpFieldIsCode | src/IW6/disassembler.cpp:106 | the 0xFF000000 mask shifted by 25 is the 7-bit OP field |
| IW6Disassembler.SignedBxWraps | src/IW6/disassembler.cpp:111 | `bx - 0x10000 + 1` in 32-bit unsigned arithmetic, read as signed, is Bx − 0xFFFF |
| IW6Disassembler.ParseInstructionList | src/IW6/disassembler.cpp:80-83 | the instruction loop reads exactly the counted words, four bytes each |
| IW6Disassembler.PadTo4 | src/IW6/disassembler.cpp:76-78 | the skip lands on the next multiple of four, at most three bytes on |
| IW6Disassembler.ParseConstant | src/IW6/disassembler.cpp:119-147 | the constant's type is its tag byte; a tag above TSTRING fails with "UNKNOWN CONSTANT TYPE" |
| IW6Disassembler.ParseConstantList | src/IW6/disassembler.cpp:87-90 | the constant loop reads exactly the counted constants |
| IW6Disassembler.ParseFunction | src/IW6/disassembler.cpp:68-100 | a function record is read within the data |
| IW6Disassembler.FunctionHead | src/IW6/disassembler.cpp:70-74 | the five fixed fields come from their offsets, the lists start empty |
| IW6Disassembler.ParseFunctionBody | src/IW6/disassembler.cpp:77-99 | the rest of the record keeps the instruction count read before it |
| IW6Disassembler.ParseConstants | src/IW6/disassembler.cpp:85-90 | as many constants as the u32 count says |
| IW6Disassembler.ParseSubFunctions | src/IW6/disassembler.cpp:93-99 | as many sub-functions as the u32 count says |
| IW6Disassembler.ParseFunctionList | src/IW6/disassembler.cpp:95-99 | the sub-function loop reads exactly the counted records |
| IW6Disassembler.FunctionListStep | src/IW6/disassembler.cpp:95-99 | one step of the sub-function loop: the next record, then the rest, or the record's error |
| IW6Disassembler.FunctionWellCounted | src/IW6/disassembler.cpp:68-100 | every record read has counts equal to the lengths of its lists, all the way down |
| IW6Disassembler.FunctionListWellCounted | src/IW6/disassembler.cpp:95-99 | the sub-function loop keeps every record well counted |
| IW6Disassembler.ParsePrototype | src/IW6/disassembler.cpp:61-66 | the trailer succeeds exactly when 12 bytes remain, and ends 12 bytes on |
| IW6Disassembler.ParseFile | src/IW6/disassembler.cpp:18-27 | a file that reads has the header read from offset 0 |
| IW6Disassembler.ByteBuffer.constructor | src/IW6/disassembler.cpp:20 | a new buffer holds the data at position 0 |
| IW6Disassembler.ByteBuffer.Read | src/IW6/disassembler.cpp:31-42 | `read<T>` gives the little-endian value and advances, or fails and stays when the bytes are not there |
| IW6Disassembler.ByteBuffer.ReadString | src/IW6/disassembler.cpp:48 | the scanning loop gives `ReadCString` |
| IW6Disassembler.ByteBuffer.Seek | src/IW6/disassembler.cpp:78 | `seek` moves the position forward by the amount |
| IW6Disassembler.Disassembler.constructor | src/IW6/disassembler.cpp:11-16 | a new reader has an empty buffer and no file |
| IW6Disassembler.Disassembler.Output | src/IW6/disassembler.cpp:11-16 | `output()` is empty |
| IW6Disassembler.Disassembler.Disassemble | src/IW6/disassembler.cpp:18-27 | reads the input from a fresh buffer into the file, as `ParseFile` says, or fails with its error |
| IW6Disassembler.Disassembler.DisassembleHeader | src/IW6/disassembler.cpp:29-52 | reads `ParseHeader` |
| IW6Disassembler.Disassembler.DisassembleTypeInfos | src/IW6/disassembler.cpp:44-51 | the type loop reads `ParseTypeInfoList` |
| IW6Disassembler.Disassembler.DisassembleTypeInfo | src/IW6/disassembler.cpp:46-50 | one entry, `ParseTypeInfo` |
| IW6Disassembler.Disassembler.DisassemblePrototype | src/IW6/disassembler.cpp:61-66 | reads `ParsePrototype` |
| IW6Disassembler.Disassembler.DisassembleInstruction | src/IW6/disassembler.cpp:102-117 | reads one word and decodes it, or fails when four bytes are not there |
| IW6Disassembler.Disassembler.DisassembleConstant | src/IW6/disassembler.cpp:119-147 | reads `ParseConstant` |
| IW6Disassembler.Disassembler.DisassembleFunction | src/IW6/disassembler.cpp:68-100 | reads `ParseFunction`, recursing into sub-functions |
| IW6Disassembler.Disassembler.DisassembleFunctionHead | src/IW6/disassembler.cpp:70-74 | reads the five fields, or fails when 21 bytes are not there |
| IW6Disassembler.Disassembler.DisassembleFunctionBody | src/IW6/disassembler.cpp:77-99 | reads `ParseFunctionBody` |
| IW6Disassembler.Disassembler.DisassembleInstructions | src/IW6/disassembler.cpp:80-83 | the loop reads `ParseInstructionList` |
| IW6Disassembler.Disassembler.DisassembleConstants | src/IW6/disassembler.cpp:85-90 | the count and the loop read `ParseConstants` |
| IW6Disassembler.Disassembler.DisassembleSubFunctions | src/IW6/disassembler.cpp:93-99 | the count and the loop read `ParseSubFunctions` |
| IW6Disassembler.Disassembler.SubFunctionLoop | src/IW6/disassembler.cpp:95-99 | the loop reads `ParseFunctionList`: `count` records in order, or the first one's error |
| IW6Disassembler.Disassembler.NextSubFunction | src/IW6/disassembler.cpp:96-98 | one pass of the loop: the next record and the list read on after it, or the error the list fails with |
| IW6Disassembler.Disassembler.DisassembleOpcode | src/IW6/disassembler.cpp:149-157 | every opcode is reported as unhandled, by its resolver name |
| IW6RoundTrip.FieldReadBack | src/IW6/disassembler.cpp:70-74 | a `k`-byte little-endian field the writer put at the end of `out` reads back as the same value, and the reader moves `k` bytes on |
| IW6RoundTrip.U32ReadBack | src/IW6/assembler.cpp:75 | a 32-bit field written by the assembler reads back by `read<std::uint32_t>` as the value written |
| IW6RoundTrip.U8ReadBack | src/IW6/assembler.cpp:77 | a one-byte field written by the assembler reads back as the value written |
| IW6RoundTrip.U64ReadBack | src/IW6/assembler.cpp:79 | a 64-bit field written by the assembler reads back as the value written |
| IW6RoundTrip.CStringReadBack | src/IW6/disassembler.cpp:139 | a NUL-free string written with its terminating NUL reads back as the same string, and the reader stops one byte past the NUL |
| IW6RoundTrip.InstructionsReadBack | src/IW6/disassembler.cpp:80-83 | the instruction words the writer put out from index `i` on read back as the remaining instructions, when each instruction is the decoding of its own word |
| IW6RoundTrip.ConstantReadBack | src/IW6/disassembler.cpp:119-147 | a nil, boolean ("true"/"false") or NUL-free string constant written by `assemble_constant` reads back as the same type and text |
| IW6RoundTrip.ConstantsReadBack | src/IW6/disassembler.cpp:87-90 | the constants written from index `i` on read back as the remaining constants |
| IW6RoundTrip.HeadOnly | src/IW6/disassembler.cpp:70-74 | the record keeps the five head fields and has every list empty, as the reader has it right after the head |
| IW6RoundTrip.HeadReadBack | src/IW6/disassembler.cpp:70-78 | the five head fields read back, and the reader's padding skip ends exactly where the writer's 0x5F filler ends |
| IW6RoundTrip.FunctionReadBack | src/IW6/disassembler.cpp:68-100 | a function record the assembler can reproduce reads back as itself, the reader ending where the writer ended, wherever in the file it starts |
| IW6RoundTrip.BodyReadBack | src/IW6/disassembler.cpp:80-99 | instructions, constants, debug word and sub-functions read back after the head |
| IW6RoundTrip.SubFunctionsReadBack | src/IW6/disassembler.cpp:95-99 | the sub-functions written from index `i` on read back as the remaining sub-functions |
| IW6RoundTrip.TypeReadBack | src/IW6/disassembler.cpp:46-50 | a type-table entry with a NUL-free name reads back as the same id and name |
| IW6RoundTrip.TypesReadBack | src/IW6/disassembler.cpp:44-51 | the type-table entries written from index `i` on read back as the remaining entries |
| IW6RoundTrip.TypeTableRoundTrips | src/IW6/assembler.cpp:49-63 | every entry of the fixed 13-entry type table has a NUL-free name and fields that fit 32 bits |
| IW6RoundTrip.ByteReadBack | src/IW6/disassembler.cpp:32-41 | a single byte written by the header writer is the byte the reader finds at that position |
| IW6RoundTrip.HeaderFieldsReadBack | src/IW6/disassembler.cpp:31-42 | the signature, the ten one-byte fields and the type count of 13 read back as written by `assemble_header` |
| IW6RoundTrip.HeaderReadBack | src/IW6/assembler.cpp:34-71 | the header the assembler writes reads back as the fixed header: signature, version bytes, format 13 and the 13 type entries in order |
| IW6RoundTrip.InstructionsWritten | src/IW6/assembler.cpp:90-93 | writing the instruction words never fails when the count is the number of instructions |
| IW6RoundTrip.ConstantsWritten | src/IW6/assembler.cpp:97-100 | writing the constants never fails when each is nil, boolean or string |
| IW6RoundTrip.FunctionWritten | src/IW6/assembler.cpp:73-110 | `assemble_function` succeeds on every record it can reproduce |
| IW6RoundTrip.SubFunctionsWritten | src/IW6/assembler.cpp:106-109 | writing the sub-functions from index `i` on never fails when each can be reproduced |
| IW6RoundTrip.FileRoundTrip | src/IW6/disassembler.cpp:18-27 | assembling a file whose main function can be reproduced succeeds, and disassembling the bytes gives back that main function under the fixed header |
| NodeTree.Indented | src/utils/types/nodetree.hpp:145-150 | the indentation text consists of spaces only |
| NodeTree.IndentedWidth | src/utils/types/nodetree.hpp:145-150 | an indent prints as that many spaces up to 99 (the 100-byte buffer keeps at most 99), wider indents print alike, and a smaller indent's text is a prefix of a larger one's |
| NodeTree.ShallowerUndoesDeeper | src/utils/types/nodetree.hpp:497-506 | lowering the unsigned static indent by four after raising it by four restores it, wrap-around included |
| NodeTree.ReturnBare | src/utils/types/nodetree.hpp:397-411 | a return prints as the bare keyword exactly when it returns no value |
| NodeTree.BlockLines | src/utils/types/nodetree.hpp:423-434 | a block of single-line statements prints one newline per statement |
| NodeTree.FunctionFrame | src/utils/types/nodetree.hpp:478-511 | a named function prints a `local function` header and an `end` line at its own indent with its body and nested functions between them one level deeper; "_init_" prints its body and nested functions without a frame |
| NodeTree.ReturnedStep | src/utils/types/nodetree.hpp:402-408 | each pass of the return loop adds a space, the value, and a comma unless the value is the last |
| NodeTree.ReturnedAll | src/utils/types/nodetree.hpp:397-411 | after the loop the return text is "return" followed by the values joined by ", " |
| NodeTree.Text | src/utils/types/nodetree.hpp:140-593 | what `print()` returns for each node kind at a given static indent (`ReturnBare`, `BlockLines`, `FunctionFrame`) |
| NodeTree.ScriptText | src/utils/types/nodetree.hpp:525-528 | a script prints as its main function and a newline |
| NodeTree.InitUnframed | src/utils/types/nodetree.hpp:482-490 | the function named "_init_" prints its block, then each nested function on a new line, with no header and no `end` |
| NodeTree.LocalFunctionFrame | src/utils/types/nodetree.hpp:492-509 | any other function prints its `local function` line at its indent, its body and nested functions four deeper, and `end` at its indent |
| NodeTree.Printer.PrintPair | src/utils/types/nodetree.hpp:254-385 | field, method, call, assignment and the comparisons print their two parts around their operator, indent unchanged |
| NodeTree.Printer.PrintLocalFunction | src/utils/types/nodetree.hpp:492-509 | a function other than "_init_" prints as `Text` says, raising the indent by four for its body and lowering it after |
| NodeTree.Printer.constructor | src/utils/types/nodetree.hpp:144 | the static indent starts at zero |
| NodeTree.Printer.Print | src/utils/types/nodetree.hpp:140-593 | printing a node gives its `Text` at the current indent and leaves the indent as it found it |
| NodeTree.Printer.PrintList | src/utils/types/nodetree.hpp:309-320 | the concatenation and parameter loops give the items' texts joined by the separator, indent unchanged |
| NodeTree.Printer.PrintReturn | src/utils/types/nodetree.hpp:397-411 | the return loop gives the return's `Text`, indent unchanged |
| NodeTree.Printer.PrintBlock | src/utils/types/nodetree.hpp:423-434 | the block loop puts each statement on a new line at the current indent, as `Text` says, indent unchanged |
| NodeTree.Printer.PrintSubFunctions | src/utils/types/nodetree.hpp:486-489 | the nested-function loop puts each nested function on a new line, indent unchanged |
| NodeTree.Printer.PrintFunction | src/utils/types/nodetree.hpp:478-511 | a function prints as `Text` says, raising the indent by four for its body and lowering it again on the way out |
| IW6Decompiler.RunErrStays | src/IW6/decompiler.cpp:66-69 | once an instruction fails, running more instructions gives the same error |
| IW6Decompiler.SubsErrStays | src/IW6/decompiler.cpp:71-75 | once a sub-function fails, decompiling the remaining sub-functions gives the same error |
| IW6Decompiler.BindingsErrStays | src/IW6/decompiler.cpp:436-452 | once binding a result fails, binding more results gives the same error |
| IW6Decompiler.ConstantOf | src/IW6/decompiler.cpp:467-472 | the constant at the index's absolute value, out of range past the list (`ConstantOfAbs`) |
| IW6Decompiler.ConstantNode | src/IW6/decompiler.cpp:149 | `find_constant(...).to_node()`: that constant's node as the constant printer makes it |
| IW6Decompiler.RegisterOrConstant | src/IW6/decompiler.cpp:123-128 | the RK operand: the constant at C when sZero is set, register C otherwise |
| IW6Decompiler.VariableName | src/IW6/decompiler.cpp:474-478 | "var" and the counter after its increment (`VariableNamesDistinct`) |
| IW6Decompiler.JumpLabel | src/IW6/decompiler.cpp:255 | "LOC_" and index + 4 + 4·sBx as 32-bit unsigned hexadecimal (`JumpLabelValue`, `JumpToInstruction`) |
| IW6Decompiler.Comparison | src/IW6/decompiler.cpp:119-144 | `~=` when A is 0, `==` otherwise (`EqAppends`) |
| IW6Decompiler.ConcatItems | src/IW6/decompiler.cpp:325-338 | R(B) .. R(C), none when C + 1 = B, out of range when the unsigned count wraps (`ConcatStores`) |
| IW6Decompiler.Bindings | src/IW6/decompiler.cpp:436-452 | `k` fresh names stored from the base slot on (`BindingsShape`) |
| IW6Decompiler.CallArguments | src/IW6/decompiler.cpp:413-426 | R(A+1) .. R(A+argNum), from R(A+2) for a method callee, none when argNum ≤ 0 (`CallArgumentsShape`) |
| IW6Decompiler.CallEffect | src/IW6/decompiler.cpp:409-458 | the call statement and the frame after `decompile_call` (`CallErrors`, `CallWithoutResults`, `CallWithResults`) |
| IW6Decompiler.CallOf | src/IW6/decompiler.cpp:428-457 | the bare call, or its assignment to the bound result names (`CallOfShape`) |
| IW6Decompiler.SlotEffect | src/IW6/decompiler.cpp:101-402 | the slot-rewriting cases (`SlotEffectFrame`, `MoveCopies`, `LoadBoolStores`, `GetGlobalStores`, `LenStores`, `SelfStores`, `ConcatStores`) |
| IW6Decompiler.StatementEffect | src/IW6/decompiler.cpp:108-393 | the statement-appending cases (`StatementEffectFrame`, `TestAppends`, `EqAppends`, `ReturnAppends`, `JumpAppends`, `NewTableAppends`) |
| IW6Decompiler.InstructionEffect | src/IW6/decompiler.cpp:99-406 | the switch: slot cases, statement cases, empty cases, and the "Unhandled opcode" error for the rest (`CasesDisjoint`, `SkippedKeepsFrame`) |
| IW6Decompiler.InstructionStep | src/IW6/decompiler.cpp:78-406 | `decompile_instruction(func, i)`: the label statement when the index has one, then the switch (`StepFrame`) |
| IW6Decompiler.Run | src/IW6/decompiler.cpp:66-69 | `k` steps in order, stopping at the first error (`RunErrStays`) |
| IW6Decompiler.InstructionsRun | src/IW6/decompiler.cpp:66-69 | the first `k` instructions in order (`RunFrame`) |
| IW6Decompiler.RunStep | src/IW6/decompiler.cpp:66-69 | after `j` instructions ran, instruction `j` takes the run one step further |
| IW6Decompiler.ArgNames | src/IW6/decompiler.cpp:48-53 | "arg0" .. "arg(n−1)" (`ArgNamesShape`) |
| IW6Decompiler.Nils | src/IW6/decompiler.cpp:56-60 | `k` nils (`NilsShape`) |
| IW6Decompiler.InitialStack | src/IW6/decompiler.cpp:42-60 | the parameters unless vararg, then a nil per register from the parameter count on (`InitialStackShape`) |
| IW6Decompiler.ParametersOf | src/IW6/decompiler.cpp:40-54 | a vararg parameter list for varargs flag 2, else the parameter identifiers |
| IW6Decompiler.FunctionResult | src/IW6/decompiler.cpp:36-76 | the function node from the instructions, then each sub-function on the shared counter (`FunctionShape`) |
| IW6Decompiler.SubFunctionResults | src/IW6/decompiler.cpp:71-75 | each sub-function in order, stopping at the first error (`SubFunctionsShape`, `SubsErrStays`) |
| IW6Decompiler.ScriptOf | src/IW6/decompiler.cpp:26-34 | the counter reset to −1 and the main function wrapped in the script (`ScriptShape`) |
| IW6Decompiler.OutputText | src/IW6/decompiler.cpp:11-24 | the banner, then the script printed from indent zero (`OutputShape`) |
| IW6Decompiler.FunctionState.constructor | src/IW6/decompiler.cpp:36-64 | a function starts with an empty stack and an empty block |
| IW6Decompiler.Decompiler.constructor | src/IW6/decompiler.cpp:26-29 | the decompiler holds the constant printer it is given and no script yet |
| IW6Decompiler.Decompiler.GetNewVariable | src/IW6/decompiler.cpp:474-478 | the counter goes up by one and the name is "var" and the new counter value |
| IW6Decompiler.Decompiler.FindConstant | src/IW6/decompiler.cpp:467-472 | the constant at the index's absolute value, out of range when there is none |
| IW6Decompiler.Decompiler.Decompile | src/IW6/decompiler.cpp:26-34 | resets the counter to −1, decompiles the main function and wraps it in the script, or stops at the first error |
| IW6Decompiler.Decompiler.Output | src/IW6/decompiler.cpp:11-24 | the output is the two banner lines followed by the script's printed text |
| IW6Decompiler.Decompiler.DecompileFunction | src/IW6/decompiler.cpp:36-76 | the function node built from the prototype's parameters, its instructions and its sub-functions, with the counter advanced as the steps say |
| IW6Decompiler.Decompiler.SetUp | src/IW6/decompiler.cpp:38-64 | the stack starts with "arg0" … for the parameters (none for a vararg function) and a nil per remaining register, and the parameter list matches |
| IW6Decompiler.Decompiler.DecompileInstructions | src/IW6/decompiler.cpp:66-69 | the loop leaves the stack, statements and counter as running the instructions in order says, or the first error |
| IW6Decompiler.Decompiler.DecompileSubFunctions | src/IW6/decompiler.cpp:71-75 | each sub-function decompiled in order on the shared counter, or the first error |
| IW6Decompiler.Decompiler.DecompileInstruction | src/IW6/decompiler.cpp:78-406 | one instruction: its label if it has one, then its case's effect, or an out-of-range or unhandled-opcode error |
| IW6Decompiler.Decompiler.Store | src/IW6/decompiler.cpp:150 | overwrites one stack slot, out of range when the slot does not exist |
| IW6Decompiler.Decompiler.StoreSlots | src/IW6/decompiler.cpp:101-402 | the slot-rewriting cases (GETFIELD, GETFIELD_R1, GETGLOBAL, GETGLOBAL_MEM, MOVE, SELF, GETTABLE_S, GETTABLE, LOADBOOL, LOADK, LEN, CONCAT, CLOSURE, VARARG) change the stack as `SlotEffect` says, or fail with its error |
| IW6Decompiler.Decompiler.ConcatenateSlots | src/IW6/decompiler.cpp:327-334 | the registers R(B) .. R(C) in order, with the unsigned count wrapping when C < B − 1 |
| IW6Decompiler.Decompiler.AddStatement | src/IW6/decompiler.cpp:108-393 | the statement-appending cases (TEST, TEST_R1, CALL_I, CALL_I_R1, EQ, EQ_BK, RETURN, SETFIELD, SETFIELD_R1, SETGLOBAL, JMP, NEWTABLE) change the stack, the statements and the counter as `StatementEffect` says, or fail with its error |
| IW6Decompiler.Decompiler.ReturnSlots | src/IW6/decompiler.cpp:176-179 | the registers from R(A) up to but not including R(A+B−1) |
| IW6Decompiler.Decompiler.BindResults | src/IW6/decompiler.cpp:436-452 | `k` fresh variables stored from the base slot on, as `Bindings` says |
| IW6Decompiler.Decompiler.ArgumentSlots | src/IW6/decompiler.cpp:416-426 | the argument registers, from R(A+2) for a method callee and R(A+1) otherwise |
| IW6Decompiler.Decompiler.DecompileCall | src/IW6/decompiler.cpp:409-458 | the call statement, bare or assigned to fresh result variables, and the new stack and counter |
| IW6DecompilerProps.FreshNames | src/IW6/decompiler.cpp:474-478 | `k` calls hand out `k` names |
| IW6DecompilerProps.ArgNamesShape | src/IW6/decompiler.cpp:48-53 | parameter `i` is named "arg" followed by `i` in decimal |
| IW6DecompilerProps.NilsShape | src/IW6/decompiler.cpp:56-60 | the remaining registers all start as nil |
| IW6DecompilerProps.InitialStackShape | src/IW6/decompiler.cpp:42-60 | the stack has a slot per register, except that a vararg function has `paramCount` fewer; parameters are vararg exactly when the flags are 2 |
| IW6DecompilerProps.ConstantOfAbs | src/IW6/decompiler.cpp:467-472 | an index and its negation read the same constant, which exists exactly when the absolute value is below the constant count |
| IW6DecompilerProps.FirstVariable | src/IW6/decompiler.cpp:30 | the first name after `decompile` resets the counter is "var0" |
| IW6DecompilerProps.VariableNamesDistinct | src/IW6/decompiler.cpp:474-478 | two counter values never give the same name |
| IW6DecompilerProps.FreshNamesDistinct | src/IW6/decompiler.cpp:474-478 | names handed out from one counter are pairwise different |
| IW6DecompilerProps.MoveCopies | src/IW6/decompiler.cpp:152-156 | MOVE copies R(B) into R(A) and changes nothing else |
| IW6DecompilerProps.LoadBoolStores | src/IW6/decompiler.cpp:205-210 | LOADBOOL stores `true` in R(A) exactly when B is nonzero |
| IW6DecompilerProps.GetGlobalStores | src/IW6/decompiler.cpp:147-151 | GETGLOBAL and GETGLOBAL_MEM store the constant at the absolute value of Bx in R(A) |
| IW6DecompilerProps.LenStores | src/IW6/decompiler.cpp:310-316 | LEN stores the length of R(B) in R(A) |
| IW6DecompilerProps.SelfStores | src/IW6/decompiler.cpp:157-166 | SELF stores the method R(B):K(C) in R(A) and "this" in R(A+1) |
| IW6DecompilerProps.ConcatStores | src/IW6/decompiler.cpp:325-338 | CONCAT stores the list R(B) .. R(C) in R(A), empty when C + 1 = B and out of range when C + 1 < B |
| IW6DecompilerProps.SlotEffectFrame | src/IW6/decompiler.cpp:101-402 | a slot-rewriting case keeps the stack's size, the statements and the counter |
| IW6DecompilerProps.TestAppends | src/IW6/decompiler.cpp:108-113 | TEST appends `if [not] R(A) then`, negated exactly when C is 1 |
| IW6DecompilerProps.EqAppends | src/IW6/decompiler.cpp:119-132 | EQ appends R(B) compared with RK(C), as `~=` when A is 0 and `==` otherwise |
| IW6DecompilerProps.ReturnAppends | src/IW6/decompiler.cpp:167-188 | the last instruction's RETURN, and one with B = 0, append nothing; any other appends the B − 1 values from R(A) |
| IW6DecompilerProps.JumpAppends | src/IW6/decompiler.cpp:253-259 | JMP appends a jump to the label of index + 4 + 4·sBx |
| IW6DecompilerProps.JumpLabelValue | src/IW6/decompiler.cpp:255 | the label is "LOC_" and upper-case hex digits whose value is index + 4 + 4·sBx modulo 2^32 |
| IW6DecompilerProps.JumpToInstruction | src/IW6/decompiler.cpp:255 | the label a jump names is the byte offset of the instruction the jump reaches |
| IW6DecompilerProps.NewTableAppends | src/IW6/decompiler.cpp:292-305 | NEWTABLE stores a fresh variable in R(A) and appends its assignment of `{}` |
| IW6DecompilerProps.BindingsShape | src/IW6/decompiler.cpp:436-452 | binding `k` results stores the next `k` fresh names from the base slot on, advances the counter by `k`, touches nothing else, and fails exactly when the slots run past the stack |
| IW6DecompilerProps.CallArgumentsShape | src/IW6/decompiler.cpp:413-426 | the arguments are R(A+1) .. R(A+argNum), from R(A+2) for a method callee, and none when argNum ≤ 0 |
| IW6DecompilerProps.CallErrors | src/IW6/decompiler.cpp:409-458 | a call fails only on a register out of range |
| IW6DecompilerProps.CallWithoutResults | src/IW6/decompiler.cpp:428-457 | with C − 1 ≤ 0 the statement is the bare call and nothing else changes |
| IW6DecompilerProps.CallWithResults | src/IW6/decompiler.cpp:431-455 | with C − 1 > 0 the call is assigned to fresh variables stored from R(A), or for `ipairs` to two stored in R(A+3) and R(A+4) |
| IW6DecompilerProps.ResultTargets | src/IW6/decompiler.cpp:434-452 | `ipairs` binds two results from R(A+3); any other callee binds C − 1 from R(A) |
| IW6DecompilerProps.CallOfShape | src/IW6/decompiler.cpp:431-455 | with results, the call is assigned to the fresh names stored from the result base, the counter advanced by their number, other slots and the statements unchanged |
| IW6DecompilerProps.CallNeedsCallee | src/IW6/decompiler.cpp:413-430 | a call that succeeds had R(A) and its argument registers |
| IW6DecompilerProps.CasesDisjoint | src/IW6/decompiler.cpp:99-406 | no opcode belongs to two of the three groups of cases |
| IW6DecompilerProps.SkippedKeepsFrame | src/IW6/decompiler.cpp:211-395 | a case with an empty body leaves stack, statements and counter as they were |
| IW6DecompilerProps.StatementEffectFrame | src/IW6/decompiler.cpp:108-393 | the statement-appending cases keep the stack's size, append at most one statement and never lower the counter |
| IW6DecompilerProps.StepFrame | src/IW6/decompiler.cpp:78-406 | an instruction keeps the stack's size, only appends statements and never lowers the counter; its only errors are out of range and an unhandled opcode |
| IW6DecompilerProps.RunFrame | src/IW6/decompiler.cpp:66-69 | running instructions keeps the stack's size, only appends statements and never lowers the counter |
| IW6DecompilerProps.FunctionShape | src/IW6/decompiler.cpp:36-76 | the function node carries the prototype's name and parameters and one function per sub-function in order, and the counter never goes back |
| IW6DecompilerProps.SubFunctionsShape | src/IW6/decompiler.cpp:71-75 | one function per sub-function, in the prototype's order and named after it |
| IW6DecompilerProps.ScriptShape | src/IW6/decompiler.cpp:26-34 | the script holds the main function, named after the main prototype |
| IW6DecompilerProps.OutputShape | src/IW6/decompiler.cpp:11-24 | the output is the two banner lines followed by the script text, ending in a newline |
| CrossReader.AsTypeMeta | src/LuiTool/HavokScript/Disassembler.cs:69-73 | the C# reader keeps all `length` bytes of a type name, so a name the C++ writer wrote comes back with its NUL |
| CrossReader.CStringChars | src/IW6/assembler.cpp:69 | the characters of `write_c_string`'s bytes are the string followed by one NUL |
| CrossReader.SignedLength | src/LuiTool/HavokScript/Disassembler.cs:72 | a length field below 2^31 reads the same signed as unsigned |
| CrossReader.TypeEntryRead | src/IW6/assembler.cpp:65-70 | one type entry the C++ writer puts out is read by the C# reader as the same id and the name with its NUL |
| CrossReader.TypeEntriesRead | src/IW6/assembler.cpp:65-70 | the type entries the C++ writer puts out from index `i` on are read by the C# reader as the remaining entries |
| CrossReader.TypeTableReadable | src/IW6/assembler.cpp:49-63 | every name in the fixed type table has a length the C# reader's signed field accepts |
| CrossReader.TypeMetaRead | src/LuiTool/HavokScript/Disassembler.cs:61-76 | a type count equal to the number of entries written after it reads as exactly those entries |
| CrossReader.WrittenHeaderAccepted | src/IW6/assembler.cpp:34-71 | the C# `DisassembleHeader` accepts the header the C++ assembler writes, as format 13 with every fixed byte as written and the 13 type entries in order, and its size fields are then 8 bytes wide |
| CrossReader.SizeFieldRead | src/IW6/assembler.cpp:79 | under that header the C# size field is the 8-byte instruction count the C++ writer puts out |
| CrossReader.StringRead | src/IW6/assembler.cpp:131-133 | under that header a string constant the C++ writer puts out reads back in C# as the same string, the dropped last byte being the writer's NUL |

## Left out

- Floating point. How a number constant becomes text (`double.ToString` in C#, `%g` in C++) and how `std::stof` parses it are parameters: `num` in the printer, `floatText` in the readers and `floatBits` in the writer. The round trip therefore covers nil, boolean and string constants only.
- IW6RoundTrip.FileRoundTrip: holds for records whose constants are nil, boolean ("true"/"false") or NUL-free strings and whose debug word is 0. A number constant goes through `std::stof` and `%g`. A light-userdata constant is refused by the writer.
- HksDecompiler.DecompileConstant: the unboxing casts `(bool)` and `(double)` (src/LuiTool/HavokScript/Decompiler.cs:621, 623) throw `InvalidCastException` on a boolean payload, boxed as a byte, and on an integral number, boxed as an int or a long. A floating-point number is boxed as a double and converts. `DecompileConstantAsWritten` models the casts as written; the rest of the model uses the corrected `DecompileConstant`, which converts boolean and integral payloads too (see "## Findings").
- ByteReader.Reader.Skip and ByteReader.Reader.Seek: the C# cursor is moved without a range check and may leave the array or go negative (src/LuiTool/Utils/Reader.cs:109-117). The model moves it the same way; only the reads check it. The cursor is an unbounded integer, so the 32-bit `int` overflow of a very large skip is not modelled.
- UTF-8 decoding in the C# `ReadString`. Strings are byte strings, one character per byte, which matches the source for ASCII text.
- Command line and file I/O: `Program.cs` and the C++ `main.cpp` (prompts, directory walking, saving files). Logging (`LOG_INFO`, `LOG_ERROR`) and the empty `debug_print` are not modelled either.
- `utils::byte_buffer` is not part of this model. Its reads and writes are taken to be little-endian and to fail past the end of the data. The writer's fixed 0x1000000-byte capacity is not modelled: writes always append.
- The C# `HksOpCode` enumeration and `HksOpMetaTable` are not part of this model. The opcode numbering is the IW6 `opcode` enumeration. The operand-mode table is a parameter of the C# disassembler.
- Partial results after an exception. When a C# exception or a C++ `DISASSEMBLER_ERROR` stops a run, the model returns only the error, not the objects built so far.
- Object identity. C# registers and C++ nodes are shared references; the model uses values. A register carries an explicit `id` that stands for its object identity. The register-wrapping pass rewrites the tree in place and can share one inlined expression between several readers; the model returns the rewritten tree and does not capture that sharing.
- PassWrapRegister.WrapNode: a callee that is not a register is visited twice. That second visit consumes one unit of `fuel`, and running out gives `FuelExhausted`, which the source has no counterpart for.
- HksDecompiler.Scan: a backward jump whose target comes after the jump itself makes the C# scan restart forever. The model stops with `Diverges` instead.
- IW6Resolver: `opcode_map` is an `std::unordered_map` whose iteration order is unspecified. The model takes the listed order, which gives the same results because keys and names are distinct.
- NodeTree: the `location` string of every node is never read by a printer and is left out. The shared `node::indent` static is a field of `Printer`. A null `shared_ptr` child would crash the source; the model has no null children.
- NodeTree.Indented: an indent of 2^31 or more reaches `%*s` as a negative `int` width. The model prints 99 spaces, as for any indent of 99 or more.
- Register numbers: sums such as A + i are unbounded here. The instruction fields are below 2^17, so the source's 32-bit sums of them do not wrap.
- IW6Decompiler.ConstantOf: an index of −2^31 is negated as an unbounded integer. In C++ that negation overflows.
- IW6Decompiler.VariableName: `var_index` is an unbounded integer, so the `int` overflow after 2^31 names is not modelled.
- IW6Decompiler: `lui::kst::to_node` and `to_literal` are not part of this model and are parameters (`Kst`). The function's `name` and its jump `labels` come from a declaration that is not part of this model and are fields of `Proto`.
- IW6Decompiler.Decompiler.SetUp: `node_parameters::vararg` is left uninitialised for a non-vararg function; the model takes it to be false.
- IW6Decompiler.CallOf and IW6Decompiler.Decompiler.DecompileCall: the call's argument list and its result list are `node_parameters` built with `vararg` uninitialised (src/IW6/decompiler.cpp:414, 434), and the printer reads that flag. The model takes it to be false for both lists.
- IW6Disassembler.DecodeInstruction: the `instruction` constructor is called with eight arguments for its nine parameters. The model stores each argument in the field it is evidently meant for and leaves `index` at 0.
- The C++ sources use names that the shown headers do not declare (`func->flags`, `lui::typeinfo`, `lui::object_type`). The model reads them as the declared `vararg_flags`, `type_info` and `data_type`.
- The C++ `assembler::assemble(std::vector<std::uint8_t>&)` text parser has an empty body and is not modelled. The same holds for the unused `GET_OPCODE`/`GETARG_*` macros in `IW6.hpp`; the model uses the field layout instead.
- CodePrinter.IfText: the C# printer writes "else" and the else block only when `elseBlock` is not null (src/LuiTool/HavokScript/Code/Printer.cs:92-97). The tree type has no null else block, so the model always writes them. The C# decompiler never builds an `IfStatement`, so no decompiled tree takes the missing branch.
- CodePrinter.ForText: the C# printer writes ", " and the step only when `step` is not null (src/LuiTool/HavokScript/Code/Printer.cs:120-124). The tree type has no null step, so the model always writes them. The decompiler's only `for` takes its step from a statement of the list (src/LuiTool/HavokScript/Decompiler.cs:523, 543), which is never null. Both passes visit the step without a null check (src/LuiTool/HavokScript/Code/PassRefCounter.cs:57, src/LuiTool/HavokScript/Code/PassWrapRegister.cs:96), so a null step would throw before printing.
- CodePrinter.FunctionText: the C# printer writes the name only when `name` is not null (src/LuiTool/HavokScript/Code/Printer.cs:162-166). The tree type has no null name, so the model always writes it. The decompiler names every function by an empty identifier (src/LuiTool/HavokScript/Decompiler.cs:37), never by null.

## Findings

| source | as written | input that shows it | evidently intended | confidence | as-written member | corrected member |
|---|---|---|---|---|---|---|
| src/LuiTool/HavokScript/Decompiler.cs:621 | `(bool)k.Value` unboxes a payload that the disassembler boxed as a `byte` (src/LuiTool/HavokScript/Disassembler.cs:198), so it throws `InvalidCastException` for every boolean constant | a function with the constant `true`: tag TBOOLEAN, payload byte 1, read as a constant operand | the boolean literal `payload != 0` | high, not executed | HksDecompiler.DecompileConstantAsWritten (HksDecompiler.TrueConstantCounterexample, HksDecompiler.ReadBooleanNeverDecompiles) | HksDecompiler.DecompileConstant (HksDecompiler.ConstantLiteral) |
| src/LuiTool/HavokScript/Decompiler.cs:623 | `(double)k.Value` unboxes a payload that an integral-number header boxes as an `int` or a `long` (src/LuiTool/HavokScript/Disassembler.cs:210), so it throws for every number of such a file | a file whose header's number type is integral, with any number constant read as a constant operand | the number literal of the integer's value | high, not executed | HksDecompiler.DecompileConstantAsWritten (HksDecompiler.ReadIntegralNeverDecompiles, HksDecompiler.AsWrittenCastsDiffer) | HksDecompiler.DecompileConstant (HksDecompiler.ConstantLiteral) |
