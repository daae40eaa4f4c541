/**
 * The decoded form of a Havok Script bytecode file as the C# tool chain holds
 * it (src/LuiTool/HavokScript/Assembly): header, type table, functions,
 * instructions with their operands, and constants.
 *
 * The operand-mode table `HksOpMetaTable.OpMeta` and the `HksOpCode`,
 * `HksEndianness` and `HksNumberType` enumerations are not part of this
 * model: the table is a parameter of the disassembler, opcodes stay numbers,
 * and endianness and number type stay the bytes that were read.
 */
module HksAssembly {

  import opened Common
  import opened Bytes

  datatype Format = V13 | V14

  datatype TypeMeta = TypeMeta(id: nat, name: string)

  datatype Header = Header(
    signature: nat,
    luaVersion: nat,
    format: Format,
    endianness: nat,
    sizeofInt: nat,
    sizeofSizeT: nat,
    sizeofInstruction: nat,
    sizeofNumber: nat,
    integralFlag: nat,
    buildFlags: nat,
    referencedMode: nat,
    typeMeta: seq<TypeMeta>)

  /** `HksOpArgMode`: how an operand is to be read. */
  datatype ArgMode = NUMBER | REG | CONST

  datatype OpArg = OpArg(mode: ArgMode, value: int)

  datatype Instruction = Instruction(address: int, code: nat, args: seq<OpArg>)

  /** `HksOpMode`: the field layout of an instruction word. */
  datatype OpMode = ABC | ABx | AsBx

  /** `HksOpArgModeA`; `OtherA` stands for any member the disassembler does not handle. */
  datatype ModeA = UnusedA | NumberA | RegA | OtherA

  /** `HksOpArgModeB`; `OtherB` stands for any member the disassembler does not handle. */
  datatype ModeB = UnusedB | NumberB | RegB | ConstB | OffsetB | OtherB

  /** `HksOpArgModeC`; `OtherC` stands for any member the disassembler does not handle. */
  datatype ModeC = UnusedC | NumberC | RegC | ConstC | RegOrConstC | OtherC

  /** One row of the operand-mode table. */
  datatype OpMeta = OpMeta(opMode: OpMode, a: ModeA, b: ModeB, c: ModeC)

  // `HksType`, a byte.
  const TNIL: nat := 0
  const TBOOLEAN: nat := 1
  const TLIGHTUSERDATA: nat := 2
  const TNUMBER: nat := 3
  const TSTRING: nat := 4
  const TTABLE: nat := 5
  const TFUNCTION: nat := 6
  const TUSERDATA: nat := 7
  const TTHREAD: nat := 8
  const TIFUNCTION: nat := 9
  const TCFUNCTION: nat := 10
  const TUI64: nat := 11
  const TSTRUCT: nat := 12

  /** `HksType.ToString()`: the member name, or the number for a byte that names no member. */
  function TypeName(tag: nat): (s: string)
    ensures |s| >= 1
  {
    if tag == TNIL then "TNIL"
    else if tag == TBOOLEAN then "TBOOLEAN"
    else if tag == TLIGHTUSERDATA then "TLIGHTUSERDATA"
    else if tag == TNUMBER then "TNUMBER"
    else if tag == TSTRING then "TSTRING"
    else if tag == TTABLE then "TTABLE"
    else if tag == TFUNCTION then "TFUNCTION"
    else if tag == TUSERDATA then "TUSERDATA"
    else if tag == TTHREAD then "TTHREAD"
    else if tag == TIFUNCTION then "TIFUNCTION"
    else if tag == TCFUNCTION then "TCFUNCTION"
    else if tag == TUI64 then "TUI64"
    else if tag == TSTRUCT then "TSTRUCT"
    else Decimal(tag)
  }

  /**
   * The payload of a constant. A floating-point number is kept as the bytes
   * it was read from; an integral number as its value.
   */
  datatype ConstValue =
    | NilValue
    | ByteValue(b: nat)
    | SizeValue(n: nat)
    | FloatBytes(bytes: seq<Byte>)
    | IntValue(i: int)
    | StringValue(s: string)
    | UI64Value(n: nat)

  datatype Constant = Constant(tag: nat, value: ConstValue)

  /** `HksFunction`; its `Debug` part is always empty and is left out. */
  datatype Function = Function(
    address: int,
    upvalCount: nat,
    paramCount: nat,
    varArgFlags: nat,
    regCount: nat,
    instructions: seq<Instruction>,
    constants: seq<Constant>,
    closures: seq<Function>)

  /** `HksFile`; its prototype part is always empty and is left out. */
  datatype File = File(header: Header, main: Function)
}
