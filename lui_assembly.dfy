/**
 * The decoded form of a bytecode file as the C++ tool chain holds it
 * (src/utils/types/assembly.hpp): value types for registers, constants,
 * type-table entries, instructions, functions, the header and the file, with
 * the two text conversions they define.
 *
 * Fields the source declares as `std::uint32_t`, `std::uint8_t` or
 * `std::uint64_t` are natural numbers here; every writer of them truncates
 * to the field's width explicitly.
 */
module LuiAssembly {

  import opened Common
  import opened Bytes

  // `enum class data_type`, numbered in declaration order.
  const TNIL: nat := 0
  const TBOOLEAN: nat := 1
  const TLIGHTUSERDATA: nat := 2
  const TNUMBER: nat := 3
  const TSTRING: nat := 4
  const TTABLE: nat := 5
  const TFUNCTION: nat := 6
  const TUSERDATA: nat := 7
  const TTHREAD: nat := 8
  const TIFUNCTION: nat := 9
  const TCFUNCTION: nat := 10
  const TUI64: nat := 11
  const TSTRUCT: nat := 12
  const TUNDEFINED: nat := 13

  /** `instruction_mode` */
  datatype InstructionMode = Unset | ABC | ABx | AsBx

  datatype Reg = Reg(index: nat, dataType: nat, value: string)

  /** `reg(index)`: a register of undefined type and empty value. */
  function NewReg(index: nat): (r: Reg)
    ensures r.index == index && r.dataType == TUNDEFINED && r.value == ""
  {
    Reg(index, TUNDEFINED, "")
  }

  /**
   * `"%02d"` of a 32-bit index: the value `%d` sees is the index read as a
   * signed 32-bit number, and a single digit gets a leading zero.
   */
  function TwoDigits(index: nat): string
  {
    var v := ToSigned(index % 0x1_0000_0000, 4);
    if 0 <= v < 10 then "0" + Decimal(v) else SignedDecimal(v)
  }

  /** `operator std::string` of `reg`: "R(" + the padded index + ")". */
  function RegText(r: Reg): string
  {
    "R(" + TwoDigits(r.index) + ")"
  }

  /**
   * The register text is "R(", at least two decimal digits that read back as
   * the index, and ")", for every index below 2^31.
   */
  lemma RegTextReadsBack(r: Reg)
    requires r.index < 0x8000_0000
    ensures var t := RegText(r);
      && |t| >= 5 && t[..2] == "R(" && t[|t| - 1] == ')'
      && DigitsValue(t[2..|t| - 1]) == r.index
      && forall k :: 2 <= k < |t| - 1 ==> IsDigit(t[k])
  {
    assert r.index % 0x1_0000_0000 == r.index;
    var t := RegText(r);
    var d := TwoDigits(r.index);
    assert t[2..|t| - 1] == d;
    DecimalValue(r.index);
    if r.index < 10 {
      assert d == "0" + Decimal(r.index);
      assert d[1..] == Decimal(r.index);
      LeadingZeroValue(Decimal(r.index));
    }
  }

  /** The constant of the C++ model: a type tag and the value as text. */
  datatype Constant = Constant(dataType: nat, value: ByteString)

  /** `operator std::string` of `constant`. */
  function ConstantText(k: Constant): (t: string)
    ensures |t| == |k.value| + 3 && t[..2] == "K(" && t[|t| - 1] == ')' && t[2..|t| - 1] == k.value
  {
    "K(" + k.value + ")"
  }

  datatype TypeInfo = TypeInfo(id: nat, name: ByteString)

  /** `instruction`. The listing fields `index` and `data` are not filled in by any code of this model. */
  datatype Instruction = Instruction(
    index: nat,
    value: nat,
    data: string,
    mode: InstructionMode,
    op: nat,
    a: nat,
    b: nat,
    c: nat,
    bx: nat,
    sbx: int,
    szero: bool)

  /** The `instruction` constructor: every given field stored, no text, mode unset. */
  function NewInstruction(index: nat, value: nat, op: nat, a: nat, b: nat, c: nat, bx: nat, sbx: int, szero: bool)
    : (i: Instruction)
    ensures i.index == index && i.value == value && i.op == op && i.a == a && i.b == b && i.c == c
    ensures i.bx == bx && i.sbx == sbx && i.szero == szero
    ensures i.mode == Unset && i.data == ""
  {
    Instruction(index, value, "", Unset, op, a, b, c, bx, sbx, szero)
  }

  datatype Function = Function(
    upvalCount: nat,
    paramCount: nat,
    varargFlags: nat,
    registerCount: nat,
    instructionCount: nat,
    instructions: seq<Instruction>,
    constantCount: nat,
    constants: seq<Constant>,
    debug: nat,
    subFuncCount: nat,
    subFuncs: seq<Function>)

  datatype Header = Header(
    magic: nat,
    luaVersion: nat,
    formatVersion: nat,
    endianness: nat,
    sizeOfInt: nat,
    sizeOfSizeT: nat,
    sizeOfInstruction: nat,
    sizeOfLuaNumber: nat,
    integralFlag: nat,
    buildFlags: nat,
    referencedMode: nat,
    typeCount: nat,
    types: seq<TypeInfo>)

  datatype File = File(header: Header, main: Function)
}
