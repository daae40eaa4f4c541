/**
 * The C# reader of the binary bytecode format
 * (src/LuiTool/HavokScript/Disassembler.cs).
 *
 * The file layout is first given as pure functions from a byte sequence and a
 * position to the decoded value and the position after it (`Parse*`); the
 * `Disassembler` class then reads with a `Reader` cursor, field by field and
 * loop by loop as the source does, and each of its methods is proved to
 * agree with the corresponding function.
 */
module HksDisassembler {

  import opened Common
  import opened Bytes
  import opened ByteReader
  import opened HksOp
  import opened HksAssembly

  /**
   * `HksNumberType.FLOAT`: an integral flag of 0 marks floating-point numbers
   * (the enumeration itself is not part of this model).
   */
  const NUMBER_TYPE_FLOAT: nat := 0

  // ---------------------------------------------------------------------------
  // Fields. The disassembler never changes the reader's byte order, so every
  // number is little-endian.

  function ReadSignedAt(data: seq<Byte>, pos: int, width: nat): (r: Result<Parsed<int>>)
    requires width >= 1
    ensures r.Ok? <==> InBounds(data, pos, width)
    ensures r.Ok? ==> r.value.next == pos + width
    ensures r.Err? ==> r.error == OutOfRange
  {
    if InBounds(data, pos, width) then Ok(Parsed(ToSigned(Unsigned(data, true, pos, width), width), pos + width)) else Err(OutOfRange)
  }

  /** `length` bytes read as characters. */
  function ReadText(data: seq<Byte>, pos: int, length: int): (r: Result<Parsed<string>>)
    ensures r.Ok? <==> InBounds(data, pos, length)
    ensures r.Ok? ==> r.value.next == pos + length && |r.value.value| == length
    ensures r.Err? ==> r.error == OutOfRange
  {
    if InBounds(data, pos, length) then Ok(Parsed(BytesToChars(data[pos..pos + length]), pos + length)) else Err(OutOfRange)
  }

  // ---------------------------------------------------------------------------
  // Header

  /** The format byte: 13 and 14 are the two supported versions, anything else is refused. */
  function ParseFormat(data: seq<Byte>, pos: int): (r: Result<Parsed<Format>>)
    ensures r.Ok? <==> InBounds(data, pos, 1) && (data[pos] == 13 || data[pos] == 14)
    ensures r.Ok? ==> r.value.next == pos + 1 && (r.value.value == V13 <==> data[pos] == 13)
    ensures InBounds(data, pos, 1) && data[pos] != 13 && data[pos] != 14 ==>
      r == Err(DisassembleError("unsupported bytecode format"))
  {
    var b :- ReadUnsigned(data, pos, 1);
    if b.value == 13 then Ok(Parsed(V13, b.next))
    else if b.value == 14 then Ok(Parsed(V14, b.next))
    else Err(DisassembleError("unsupported bytecode format"))
  }

  /** One type-table entry: a u32 id, an i32 length, and that many bytes of name. */
  function ParseTypeEntry(data: seq<Byte>, pos: int): (r: Result<Parsed<TypeMeta>>)
    ensures r.Ok? ==> r.value.next >= pos + 8
  {
    var id :- ReadUnsigned(data, pos, 4);
    var length :- ReadSignedAt(data, id.next, 4);
    var name :- ReadText(data, length.next, length.value);
    Ok(Parsed(TypeMeta(id.value, name.value), name.next))
  }

  /** A type entry is its id, then a non-negative i32 length, then exactly that many bytes of name. */
  lemma TypeEntryLayout(data: seq<Byte>, pos: int)
    requires ParseTypeEntry(data, pos).Ok?
    ensures InBounds(data, pos, 8)
    ensures var length := ToSigned(Unsigned(data, true, pos + 4, 4), 4);
      var e := ParseTypeEntry(data, pos).value;
      && length >= 0 && e.next == pos + 8 + length
      && e.value == TypeMeta(Unsigned(data, true, pos, 4), BytesToChars(data[pos + 8..pos + 8 + length]))
  {
  }

  /** The remaining `count` entries of the type table from `pos`, after the entries `acc` already read. */
  function ParseTypeEntries(data: seq<Byte>, pos: int, count: nat, acc: seq<TypeMeta>): (r: Result<Parsed<seq<TypeMeta>>>)
    ensures r.Ok? ==> |r.value.value| == |acc| + count && r.value.value[..|acc|] == acc
    ensures r.Ok? ==> r.value.next >= pos
    decreases count
  {
    if count == 0 then Ok(Parsed(acc, pos))
    else
      var entry :- ParseTypeEntry(data, pos);
      ParseTypeEntries(data, entry.next, count - 1, acc + [entry.value])
  }

  /** The type table: a u32 count, then exactly that many entries. */
  function ParseTypeMeta(data: seq<Byte>, pos: int): (r: Result<Parsed<seq<TypeMeta>>>)
    ensures r.Ok? ==> ReadUnsigned(data, pos, 4).Ok? && |r.value.value| == ReadUnsigned(data, pos, 4).value.value
    ensures r.Ok? ==> r.value.next >= pos + 4
  {
    var count :- ReadUnsigned(data, pos, 4);
    ParseTypeEntries(data, count.next, count.value, [])
  }

  /**
   * The header: a u32 signature, the Lua version byte, the format byte (an
   * unsupported one stops the read), eight more single bytes, then the type
   * table.
   */
  function ParseHeader(data: seq<Byte>, pos: int): (r: Result<Parsed<Header>>)
    ensures r.Ok? ==> InBounds(data, pos, 14) && ParseTypeMeta(data, pos + 14).Ok?
    ensures r.Ok? ==> var h := r.value.value;
      && h.signature == LittleEndian(data[pos..pos + 4])
      && h.luaVersion == data[pos + 4]
      && (h.format == V13 <==> data[pos + 5] == 13)
      && h.endianness == data[pos + 6]
      && h.sizeofInt == data[pos + 7]
      && h.sizeofSizeT == data[pos + 8]
      && h.sizeofInstruction == data[pos + 9]
      && h.sizeofNumber == data[pos + 10]
      && h.integralFlag == data[pos + 11]
      && h.buildFlags == data[pos + 12]
      && h.referencedMode == data[pos + 13]
      && Parsed(h.typeMeta, r.value.next) == ParseTypeMeta(data, pos + 14).value
  {
    if !InBounds(data, pos, 5) then Err(OutOfRange)
    else
      var format :- ParseFormat(data, pos + 5);
      if !InBounds(data, pos, 14) then Err(OutOfRange)
      else
        var types :- ParseTypeMeta(data, pos + 14);
        Ok(Parsed(Header(Unsigned(data, true, pos, 4), data[pos + 4], format.value, data[pos + 6], data[pos + 7],
                         data[pos + 8], data[pos + 9], data[pos + 10], data[pos + 11],
                         data[pos + 12], data[pos + 13], types.value), types.next))
  }

  // ---------------------------------------------------------------------------
  // Sizes and strings

  /** The width of a size field: 4 bytes when `size_t` is 4 bytes wide, else 8. */
  function SizeWidth(hdr: Header): (w: nat)
    ensures w == 4 || w == 8
  {
    if hdr.sizeofSizeT == 4 then 4 else 8
  }

  function ParseSize(hdr: Header, data: seq<Byte>, pos: int): (r: Result<Parsed<nat>>)
    ensures r.Ok? <==> InBounds(data, pos, SizeWidth(hdr))
    ensures r.Ok? ==> r.value.next == pos + SizeWidth(hdr)
  {
    ReadUnsigned(data, pos, SizeWidth(hdr))
  }

  /**
   * A string: a size field, then `size` bytes whose last character is
   * dropped. The size is cut to a signed 32-bit length, so a size that is
   * not zero but whose length is not positive fails.
   */
  function ParseString(hdr: Header, data: seq<Byte>, pos: int): (r: Result<Parsed<string>>)
  {
    var size :- ParseSize(hdr, data, pos);
    if size.value == 0 then Ok(Parsed("", size.next))
    else
      var length := ToSigned(size.value % Pow256(4), 4);
      var text :- ReadText(data, size.next, length);
      if length - 1 < 0 then Err(OutOfRange)
      else Ok(Parsed(text.value[..length - 1], text.next))
  }

  /** A zero size gives the empty string and consumes only the size field. */
  lemma EmptyString(hdr: Header, data: seq<Byte>, pos: int)
    requires ParseSize(hdr, data, pos).Ok? && ParseSize(hdr, data, pos).value.value == 0
    ensures ParseString(hdr, data, pos) == Ok(Parsed("", pos + SizeWidth(hdr)))
  {
  }

  /**
   * A size n with 0 < n < 2^31 consumes n bytes after the size field and
   * gives their first n - 1 bytes as characters; it fails when the bytes run out.
   */
  lemma StringOfSize(hdr: Header, data: seq<Byte>, pos: int)
    requires ParseSize(hdr, data, pos).Ok?
    requires 0 < ParseSize(hdr, data, pos).value.value < 0x8000_0000
    ensures var n := ParseSize(hdr, data, pos).value.value;
      var start := pos + SizeWidth(hdr);
      && (ParseString(hdr, data, pos).Ok? <==> start + n <= |data|)
      && (ParseString(hdr, data, pos).Ok? ==>
            ParseString(hdr, data, pos).value == Parsed(BytesToChars(data[start..start + n - 1]), start + n))
  {
    var n := ParseSize(hdr, data, pos).value.value;
    var start := pos + SizeWidth(hdr);
    assert Pow256(4) == 0x1_0000_0000;
    DivMod(n, Pow256(4), 0, n);
    assert ToSigned(n % Pow256(4), 4) == n;
    if start + n <= |data| {
      assert BytesToChars(data[start..start + n])[..n - 1] == BytesToChars(data[start..start + n - 1]);
    }
  }

  // ---------------------------------------------------------------------------
  // Instructions

  /** Operand modes the disassembler knows how to read for this table row. */
  predicate MetaSupported(m: OpMeta)
  {
    && m.a != OtherA
    && (m.opMode == ABC ==> m.b in {UnusedB, NumberB, RegB, ConstB} && m.c != OtherC)
    && (m.opMode == ABx ==> m.b in {NumberB, OffsetB, ConstB})
  }

  /** Number of operands an instruction of this row carries. */
  function ArgCount(m: OpMeta): nat
  {
    (if m.a == UnusedA then 0 else 1)
    + (match m.opMode
       case ABC => (if m.b == UnusedB then 0 else 1) + (if m.c == UnusedC then 0 else 1)
       case ABx => 1
       case AsBx => 1)
  }

  function OperandA(m: ModeA, raw: Word): Result<seq<OpArg>>
  {
    match m
    case UnusedA => Ok([])
    case NumberA => Ok([OpArg(NUMBER, GetArgA(raw))])
    case RegA => Ok([OpArg(REG, GetArgA(raw))])
    case OtherA => Err(DisassembleError("internal error"))
  }

  function OperandB(m: ModeB, raw: Word): Result<seq<OpArg>>
  {
    match m
    case UnusedB => Ok([])
    case NumberB => Ok([OpArg(NUMBER, GetArgB(raw))])
    case RegB => Ok([OpArg(REG, GetArgB(raw))])
    case ConstB => Ok([OpArg(CONST, GetArgB(raw))])
    case _ => Err(DisassembleError("internal error"))
  }

  function OperandC(m: ModeC, raw: Word): Result<seq<OpArg>>
  {
    match m
    case UnusedC => Ok([])
    case NumberC => Ok([OpArg(NUMBER, GetArgC(raw))])
    case RegC => Ok([OpArg(REG, GetArgC(raw))])
    case ConstC => Ok([OpArg(CONST, GetArgC(raw))])
    case RegOrConstC =>
      if GetsZero(raw) then Ok([OpArg(CONST, GetArgC(raw) % 0x100)]) else Ok([OpArg(REG, GetArgC(raw))])
    case OtherC => Err(DisassembleError("internal error"))
  }

  function OperandBx(m: ModeB, raw: Word): Result<seq<OpArg>>
  {
    match m
    case NumberB => Ok([OpArg(NUMBER, GetArgBx(raw))])
    case OffsetB => Ok([OpArg(NUMBER, GetArgBx(raw))])
    case ConstB => Ok([OpArg(CONST, GetArgBx(raw))])
    case _ => Err(DisassembleError("internal error"))
  }

  /**
   * One instruction word at `addr`. The opcode selects a row of the operand
   * table; an opcode past the end of the table fails. A comes first when it
   * is used; ABC adds B and C when they are used, ABx adds one Bx operand, and
   * AsBx one number, the signed sBx.
   */
  function DecodeInstruction(meta: seq<OpMeta>, addr: int, raw: Word): (r: Result<Instruction>)
    ensures GetCode(raw) >= |meta| ==> r == Err(OutOfRange)
    ensures r.Ok? <==> GetCode(raw) < |meta| && MetaSupported(meta[GetCode(raw)])
    ensures r.Ok? ==> var m := meta[GetCode(raw)];
      && r.value.address == addr && r.value.code == GetCode(raw)
      && |r.value.args| == ArgCount(m)
      && (m.a == NumberA ==> r.value.args[0] == OpArg(NUMBER, GetArgA(raw)))
      && (m.a == RegA ==> r.value.args[0] == OpArg(REG, GetArgA(raw)))
      && (m.opMode == AsBx ==> r.value.args[|r.value.args| - 1] == OpArg(NUMBER, GetArgsBx(raw)))
      && (m.opMode == ABx ==>
            r.value.args[|r.value.args| - 1] == OpArg(if m.b == ConstB then CONST else NUMBER, GetArgBx(raw)))
      && (m.opMode == ABC && m.c == RegOrConstC ==>
            r.value.args[|r.value.args| - 1] ==
              (if GetArgC(raw) >= 0x100 then OpArg(CONST, GetArgC(raw) - 0x100) else OpArg(REG, GetArgC(raw))))
  {
    var code := GetCode(raw);
    if code >= |meta| then Err(OutOfRange)
    else
      var m := meta[code];
      var a :- OperandA(m.a, raw);
      var rest :- match m.opMode
        case ABC =>
          (var b :- OperandB(m.b, raw);
           var c :- OperandC(m.c, raw);
           Ok(b + c))
        case ABx => OperandBx(m.b, raw)
        case AsBx => Ok([OpArg(NUMBER, GetArgsBx(raw))]);
      Ok(Instruction(addr, code, a + rest))
  }

  /** One instruction word read at `pos` and decoded with `pos` as its address. */
  function ParseInstruction(meta: seq<OpMeta>, data: seq<Byte>, pos: int): (r: Result<Parsed<Instruction>>)
    ensures r.Ok? ==> r.value.next == pos + 4 && r.value.value.address == pos
  {
    var raw :- ReadUnsigned(data, pos, 4);
    var inst :- DecodeInstruction(meta, pos, raw.value);
    Ok(Parsed(inst, raw.next))
  }

  /** The remaining `count` instruction words from `pos`, after the instructions `acc` already read. */
  function ParseInstructionList(meta: seq<OpMeta>, data: seq<Byte>, pos: int, count: nat, acc: seq<Instruction>)
    : (r: Result<Parsed<seq<Instruction>>>)
    ensures r.Ok? ==> |r.value.value| == |acc| + count && r.value.value[..|acc|] == acc
    ensures r.Ok? ==> r.value.next == pos + 4 * count
    ensures r.Ok? ==> forall i :: |acc| <= i < |r.value.value| ==> r.value.value[i].address == pos + 4 * (i - |acc|)
    decreases count
  {
    if count == 0 then Ok(Parsed(acc, pos))
    else
      var inst :- ParseInstruction(meta, data, pos);
      ParseInstructionList(meta, data, inst.next, count - 1, acc + [inst.value])
  }

  /** The instruction section: a size field holding the count, padding to a multiple of 4, then the words. */
  function ParseInstructions(meta: seq<OpMeta>, hdr: Header, data: seq<Byte>, pos: int): (r: Result<Parsed<seq<Instruction>>>)
    requires pos >= 0
    ensures r.Ok? ==> r.value.next >= pos
  {
    var count :- ParseSize(hdr, data, pos);
    var start :- Padded(count.next, 4);
    PaddedIsNextMultiple(count.next, 4);
    ParseInstructionList(meta, data, start, count.value, [])
  }

  /**
   * The instruction words start at the first multiple of 4 after the count,
   * one per counted instruction, and each instruction's address is the
   * position of its word.
   */
  lemma InstructionAddresses(meta: seq<OpMeta>, hdr: Header, data: seq<Byte>, pos: int)
    requires pos >= 0 && ParseInstructions(meta, hdr, data, pos).Ok?
    ensures var insts := ParseInstructions(meta, hdr, data, pos).value.value;
      var countEnd := pos + SizeWidth(hdr);
      exists start ::
        && countEnd <= start < countEnd + 4 && start % 4 == 0
        && |insts| == ParseSize(hdr, data, pos).value.value
        && ParseInstructions(meta, hdr, data, pos).value.next == start + 4 * |insts|
        && forall i :: 0 <= i < |insts| ==> insts[i].address == start + 4 * i
  {
    var countEnd := pos + SizeWidth(hdr);
    PaddedIsNextMultiple(countEnd, 4);
    var start := Padded(countEnd, 4).value;
    var insts := ParseInstructions(meta, hdr, data, pos).value.value;
    assert forall i :: 0 <= i < |insts| ==> insts[i].address == start + 4 * i;
  }

  // ---------------------------------------------------------------------------
  // Constants, debug information and closures

  /** One constant: a tag byte, then a payload whose form depends on the tag. */
  function ParseConstant(hdr: Header, data: seq<Byte>, pos: int): (r: Result<Parsed<Constant>>)
    ensures r.Ok? ==> InBounds(data, pos, 1) && r.value.next > pos && r.value.value.tag == data[pos]
    ensures r.Ok? ==> r.value.value.tag in {TNIL, TBOOLEAN, TLIGHTUSERDATA, TNUMBER, TSTRING, TUI64}
    ensures InBounds(data, pos, 1) && !(data[pos] in {TNIL, TBOOLEAN, TLIGHTUSERDATA, TNUMBER, TSTRING, TUI64}) ==>
      r == Err(DisassembleError("type not implemented: " + TypeName(data[pos])))
  {
    var tag :- ReadUnsigned(data, pos, 1);
    var t, p := tag.value, tag.next;
    if t == TNIL then Ok(Parsed(Constant(t, NilValue), p))
    else if t == TBOOLEAN then
      var b :- ReadUnsigned(data, p, 1);
      Ok(Parsed(Constant(t, ByteValue(b.value)), b.next))
    else if t == TLIGHTUSERDATA then
      var n :- ParseSize(hdr, data, p);
      Ok(Parsed(Constant(t, SizeValue(n.value)), n.next))
    else if t == TNUMBER then
      var width := if hdr.sizeofNumber == 4 then 4 else 8;
      if hdr.integralFlag == NUMBER_TYPE_FLOAT then
        var bs :- ReadRaw(data, p, width);
        Ok(Parsed(Constant(t, FloatBytes(bs.value)), bs.next))
      else
        var i :- ReadSignedAt(data, p, width);
        Ok(Parsed(Constant(t, IntValue(i.value)), i.next))
    else if t == TSTRING then
      var s :- ParseString(hdr, data, p);
      Ok(Parsed(Constant(t, StringValue(s.value)), s.next))
    else if t == TUI64 then
      var n :- ReadUnsigned(data, p, 8);
      Ok(Parsed(Constant(t, UI64Value(n.value)), n.next))
    else Err(DisassembleError("type not implemented: " + TypeName(t)))
  }

  /** Bytes a constant's payload occupies, for every tag but TSTRING, whose payload length depends on its content. */
  function PayloadWidth(hdr: Header, tag: nat): nat
  {
    if tag == TBOOLEAN then 1
    else if tag == TLIGHTUSERDATA then SizeWidth(hdr)
    else if tag == TNUMBER then (if hdr.sizeofNumber == 4 then 4 else 8)
    else if tag == TUI64 then 8
    else 0
  }

  /** A constant that is not a string occupies its tag byte and its payload width, and nothing else. */
  lemma ConstantWidth(hdr: Header, data: seq<Byte>, pos: int)
    requires ParseConstant(hdr, data, pos).Ok? && data[pos] != TSTRING
    ensures ParseConstant(hdr, data, pos).value.next == pos + 1 + PayloadWidth(hdr, data[pos])
  {
  }

  /** The remaining `count` constants from `pos`, after the constants `acc` already read. */
  function ParseConstantList(hdr: Header, data: seq<Byte>, pos: int, count: nat, acc: seq<Constant>)
    : (r: Result<Parsed<seq<Constant>>>)
    ensures r.Ok? ==> |r.value.value| == |acc| + count && r.value.value[..|acc|] == acc
    ensures r.Ok? ==> r.value.next >= pos
    decreases count
  {
    if count == 0 then Ok(Parsed(acc, pos))
    else
      var c :- ParseConstant(hdr, data, pos);
      ParseConstantList(hdr, data, c.next, count - 1, acc + [c.value])
  }

  /** The constant section: a u32 count, then exactly that many constants. */
  function ParseConstants(hdr: Header, data: seq<Byte>, pos: int): (r: Result<Parsed<seq<Constant>>>)
    ensures r.Ok? ==> ReadUnsigned(data, pos, 4).Ok? && |r.value.value| == ReadUnsigned(data, pos, 4).value.value
    ensures r.Ok? ==> r.value.next >= pos + 4
  {
    var count :- ReadUnsigned(data, pos, 4);
    ParseConstantList(hdr, data, count.next, count.value, [])
  }

  /** The debug section: a u32 flag, and a u32 hash after it exactly when the flag is 1. Gives the position after it. */
  function ParseDebug(data: seq<Byte>, pos: int): (r: Result<int>)
    ensures r.Ok? <==> InBounds(data, pos, 4) && (Unsigned(data, true, pos, 4) == 1 ==> InBounds(data, pos, 8))
    ensures r.Ok? ==> r.value == pos + (if Unsigned(data, true, pos, 4) == 1 then 8 else 4)
  {
    var flag :- ReadUnsigned(data, pos, 4);
    if flag.value == 1 then
      var hash :- ReadUnsigned(data, flag.next, 4);
      Ok(hash.next)
    else Ok(flag.next)
  }

  /**
   * A function record: u32 upvalue count, u32 parameter count, the vararg
   * byte, u32 register count, the instructions, the constants, the debug
   * section and the closures. The function's address is the position it
   * starts at.
   */
  function ParseFunction(meta: seq<OpMeta>, hdr: Header, data: seq<Byte>, pos: int): (r: Result<Parsed<Function>>)
    requires pos >= 0
    ensures r.Ok? ==> pos < r.value.next <= |data|
    ensures r.Ok? ==> r.value.value.address == pos
    decreases |data| - pos, 0
  {
    var upvals :- ReadUnsigned(data, pos, 4);
    var params :- ReadUnsigned(data, upvals.next, 4);
    var varArg :- ReadUnsigned(data, params.next, 1);
    var regs :- ReadUnsigned(data, varArg.next, 4);
    ParseFunctionSections(meta, hdr, data, regs.next, Function(pos, upvals.value, params.value, varArg.value, regs.value, [], [], []))
  }

  /** The sections of a function record after its counts, filled into `f`. */
  function ParseFunctionSections(meta: seq<OpMeta>, hdr: Header, data: seq<Byte>, pos: int, f: Function)
    : (r: Result<Parsed<Function>>)
    requires 0 <= pos <= |data|
    ensures r.Ok? ==> pos < r.value.next <= |data| && r.value.value.address == f.address
    decreases |data| - pos, 3
  {
    var insts :- ParseInstructions(meta, hdr, data, pos);
    var consts :- ParseConstants(hdr, data, insts.next);
    var debugEnd :- ParseDebug(data, consts.next);
    var closures :- ParseClosures(meta, hdr, data, debugEnd);
    Ok(Parsed(f.(instructions := insts.value, constants := consts.value, closures := closures.value), closures.next))
  }

  /** The closure section: a u32 count, then exactly that many nested function records. */
  function ParseClosures(meta: seq<OpMeta>, hdr: Header, data: seq<Byte>, pos: int): (r: Result<Parsed<seq<Function>>>)
    requires pos >= 0
    ensures r.Ok? ==> pos < r.value.next <= |data|
    decreases |data| - pos, 2
  {
    var count :- ReadUnsigned(data, pos, 4);
    ParseClosureList(meta, hdr, data, count.next, count.value, [])
  }

  /** The remaining `count` nested function records from `pos`, after the records `acc` already read. */
  function ParseClosureList(meta: seq<OpMeta>, hdr: Header, data: seq<Byte>, pos: int, count: nat, acc: seq<Function>)
    : (r: Result<Parsed<seq<Function>>>)
    requires 0 <= pos <= |data|
    ensures r.Ok? ==> |r.value.value| == |acc| + count && r.value.value[..|acc|] == acc
    ensures r.Ok? ==> pos <= r.value.next <= |data|
    decreases |data| - pos, 1
  {
    if count == 0 then Ok(Parsed(acc, pos))
    else
      var f :- ParseFunction(meta, hdr, data, pos);
      ParseClosureList(meta, hdr, data, f.next, count - 1, acc + [f.value])
  }

  /** One step of the closure list: the next record, then the rest. */
  lemma ClosureListStep(meta: seq<OpMeta>, hdr: Header, data: seq<Byte>, pos: int, count: nat, acc: seq<Function>)
    requires 0 <= pos <= |data| && count > 0
    ensures ParseFunction(meta, hdr, data, pos).Err? ==>
      ParseClosureList(meta, hdr, data, pos, count, acc) == Err(ParseFunction(meta, hdr, data, pos).error)
    ensures ParseFunction(meta, hdr, data, pos).Ok? ==>
      var f := ParseFunction(meta, hdr, data, pos).value;
      ParseClosureList(meta, hdr, data, pos, count, acc) == ParseClosureList(meta, hdr, data, f.next, count - 1, acc + [f.value])
  {
  }

  /**
   * The fixed part of a function record: three u32 counts around the vararg
   * byte, then the instruction section at offset 13.
   */
  lemma FunctionLayout(meta: seq<OpMeta>, hdr: Header, data: seq<Byte>, pos: int)
    requires pos >= 0 && ParseFunction(meta, hdr, data, pos).Ok?
    ensures InBounds(data, pos, 13)
    ensures var f := ParseFunction(meta, hdr, data, pos).value.value;
      && f.upvalCount == Unsigned(data, true, pos, 4)
      && f.paramCount == Unsigned(data, true, pos + 4, 4)
      && f.varArgFlags == data[pos + 8]
      && f.regCount == Unsigned(data, true, pos + 9, 4)
      && ParseInstructions(meta, hdr, data, pos + 13).Ok?
      && f.instructions == ParseInstructions(meta, hdr, data, pos + 13).value.value
  {
  }

  /** A whole file from `pos`: the header, then the root function record. The prototype section reads nothing. */
  function ParseFile(meta: seq<OpMeta>, data: seq<Byte>, pos: int): (r: Result<Parsed<File>>)
    requires pos >= 0
    ensures r.Ok? ==> ParseHeader(data, pos).Ok? && r.value.value.header == ParseHeader(data, pos).value.value
  {
    var hdr :- ParseHeader(data, pos);
    var f :- ParseFunction(meta, hdr.value, data, hdr.next);
    Ok(Parsed(File(hdr.value, f.value), f.next))
  }

  // ---------------------------------------------------------------------------
  // The reader-driven disassembler

  class Disassembler {
    const reader: Reader
    /** `HksOpMetaTable.OpMeta`, indexed by opcode. */
    const opMeta: seq<OpMeta>
    /** Set once the header has been read; the function record reads consult it. */
    var header: Option<Header>

    predicate Valid()
      reads this, reader
    {
      reader.littleEndian && reader.cursor >= 0
    }

    constructor (data: seq<Byte>, opMeta: seq<OpMeta>)
      ensures fresh(reader) && reader.data == data && reader.cursor == 0 && reader.cursorStack == []
      ensures this.opMeta == opMeta && header == None
      ensures Valid()
    {
      reader := new Reader(data, true);
      this.opMeta := opMeta;
      header := None;
    }

    method DisassembleFormat() returns (r: Result<Format>)
      requires Valid()
      modifies reader`cursor
      ensures Valid()
      ensures Agrees(r, ParseFormat(reader.data, old(reader.cursor)), reader.cursor)
    {
      var b :- reader.ReadUInt8();
      if b == 13 {
        r := Ok(V13);
      } else if b == 14 {
        r := Ok(V14);
      } else {
        r := Err(DisassembleError("unsupported bytecode format"));
      }
    }

    method DisassembleTypeMeta() returns (r: Result<seq<TypeMeta>>)
      requires Valid()
      modifies reader`cursor
      ensures Valid()
      ensures Agrees(r, ParseTypeMeta(reader.data, old(reader.cursor)), reader.cursor)
    {
      var count :- reader.ReadUInt32();
      var types: seq<TypeMeta> := [];
      var i: nat := 0;
      while i < count
        invariant i <= count
        invariant Valid()
        invariant ParseTypeMeta(reader.data, old(reader.cursor)) == ParseTypeEntries(reader.data, reader.cursor, count - i, types)
      {
        var entry :- DisassembleTypeEntry();
        types := types + [entry];
        i := i + 1;
      }
      r := Ok(types);
    }

    /** The body of the type-table loop: an id, a length, and the name. */
    method DisassembleTypeEntry() returns (r: Result<TypeMeta>)
      requires Valid()
      modifies reader`cursor
      ensures Valid()
      ensures Agrees(r, ParseTypeEntry(reader.data, old(reader.cursor)), reader.cursor)
    {
      var id :- reader.ReadUInt32();
      var length :- reader.ReadInt32();
      var name :- reader.ReadString(length);
      r := Ok(TypeMeta(id, name));
    }

    method DisassembleHeader() returns (r: Result<Header>)
      requires Valid()
      modifies this`header, reader`cursor
      ensures Valid()
      ensures Agrees(r, ParseHeader(reader.data, old(reader.cursor)), reader.cursor)
      ensures header == (if r.Ok? then Some(r.value) else old(header))
    {
      var signature :- reader.ReadUInt32();
      var luaVersion :- reader.ReadUInt8();
      var format :- DisassembleFormat();
      var endianness :- reader.ReadUInt8();
      var sizeofInt :- reader.ReadUInt8();
      var sizeofSizeT :- reader.ReadUInt8();
      var sizeofInstruction :- reader.ReadUInt8();
      var sizeofNumber :- reader.ReadUInt8();
      var integralFlag :- reader.ReadUInt8();
      var buildFlags :- reader.ReadUInt8();
      var referencedMode :- reader.ReadUInt8();
      var types :- DisassembleTypeMeta();
      var h := Header(signature, luaVersion, format, endianness, sizeofInt, sizeofSizeT, sizeofInstruction,
                      sizeofNumber, integralFlag, buildFlags, referencedMode, types);
      header := Some(h);
      r := Ok(h);
    }

    method DisassembleSize() returns (r: Result<nat>)
      requires Valid() && header.Some?
      modifies reader`cursor
      ensures Valid()
      ensures Agrees(r, ParseSize(header.value, reader.data, old(reader.cursor)), reader.cursor)
    {
      if header.value.sizeofSizeT == 4 {
        r := reader.ReadUInt32();
      } else {
        r := reader.ReadUInt64();
      }
    }

    method DisassembleString() returns (r: Result<string>)
      requires Valid() && header.Some?
      modifies reader`cursor
      ensures Valid()
      ensures Agrees(r, ParseString(header.value, reader.data, old(reader.cursor)), reader.cursor)
    {
      var size :- DisassembleSize();
      if size == 0 {
        return Ok("");
      }
      var length := ToSigned(size % Pow256(4), 4);
      var text :- reader.ReadString(length);
      if length - 1 < 0 {
        return Err(OutOfRange);
      }
      r := Ok(text[..length - 1]);
    }

    method DisassembleInstruction() returns (r: Result<Instruction>)
      requires Valid()
      modifies reader`cursor
      ensures Valid()
      ensures Agrees(r, ParseInstruction(opMeta, reader.data, old(reader.cursor)), reader.cursor)
    {
      var addr := reader.GetPosition();
      var raw :- reader.ReadUInt32();
      r := DecodeInstruction(opMeta, addr, raw);
    }

    method DisassembleInstructions() returns (r: Result<seq<Instruction>>)
      requires Valid() && header.Some?
      modifies reader`cursor
      ensures Valid()
      ensures Agrees(r, ParseInstructions(opMeta, header.value, reader.data, old(reader.cursor)), reader.cursor)
    {
      var count :- DisassembleSize();
      var padded := reader.Pad(4);
      PaddedIsNextMultiple(reader.cursor, 4);
      r := InstructionLoop(count);
    }

    /** The `for` loop over the counted instruction words, from the current cursor. */
    method InstructionLoop(count: nat) returns (r: Result<seq<Instruction>>)
      requires Valid()
      modifies reader`cursor
      ensures Valid()
      ensures Agrees(r, ParseInstructionList(opMeta, reader.data, old(reader.cursor), count, []), reader.cursor)
    {
      var insts: seq<Instruction> := [];
      var i: nat := 0;
      while i < count
        invariant i <= count
        invariant Valid()
        invariant ParseInstructionList(opMeta, reader.data, old(reader.cursor), count, [])
               == ParseInstructionList(opMeta, reader.data, reader.cursor, count - i, insts)
      {
        ghost var at := reader.cursor;
        var inst := DisassembleInstruction();
        if inst.Err? {
          assert ParseInstructionList(opMeta, reader.data, at, count - i, insts) == Err(inst.error);
          return Err(inst.error);
        }
        assert ParseInstructionList(opMeta, reader.data, at, count - i, insts)
            == ParseInstructionList(opMeta, reader.data, reader.cursor, count - i - 1, insts + [inst.value]);
        insts := insts + [inst.value];
        i := i + 1;
      }
      r := Ok(insts);
    }

    /** The body of the constant loop: a tag byte and its payload. */
    method DisassembleConstant() returns (r: Result<Constant>)
      requires Valid() && header.Some?
      modifies reader`cursor
      ensures Valid()
      ensures Agrees(r, ParseConstant(header.value, reader.data, old(reader.cursor)), reader.cursor)
    {
      var t :- reader.ReadUInt8();
      var value;
      if t == TNIL {
        value := NilValue;
      } else if t == TBOOLEAN {
        var b :- reader.ReadUInt8();
        value := ByteValue(b);
      } else if t == TLIGHTUSERDATA {
        var n :- DisassembleSize();
        value := SizeValue(n);
      } else if t == TNUMBER {
        if header.value.integralFlag == NUMBER_TYPE_FLOAT {
          var bs;
          if header.value.sizeofNumber == 4 {
            bs :- reader.ReadFloat();
          } else {
            bs :- reader.ReadDouble();
          }
          value := FloatBytes(bs);
        } else {
          var i;
          if header.value.sizeofNumber == 4 {
            i :- reader.ReadInt32();
          } else {
            i :- reader.ReadInt64();
          }
          value := IntValue(i);
        }
      } else if t == TSTRING {
        var s :- DisassembleString();
        value := StringValue(s);
      } else if t == TUI64 {
        var n :- reader.ReadUInt64();
        value := UI64Value(n);
      } else {
        return Err(DisassembleError("type not implemented: " + TypeName(t)));
      }
      r := Ok(Constant(t, value));
    }

    method DisassembleConstants() returns (r: Result<seq<Constant>>)
      requires Valid() && header.Some?
      modifies reader`cursor
      ensures Valid()
      ensures Agrees(r, ParseConstants(header.value, reader.data, old(reader.cursor)), reader.cursor)
    {
      var count :- reader.ReadUInt32();
      var consts: seq<Constant> := [];
      var i: nat := 0;
      while i < count
        invariant i <= count
        invariant Valid()
        invariant ParseConstants(header.value, reader.data, old(reader.cursor))
               == ParseConstantList(header.value, reader.data, reader.cursor, count - i, consts)
      {
        var c :- DisassembleConstant();
        consts := consts + [c];
        i := i + 1;
      }
      r := Ok(consts);
    }

    method DisassembleDebug() returns (r: Outcome)
      requires Valid()
      modifies reader`cursor
      ensures Valid()
      ensures var s := ParseDebug(reader.data, old(reader.cursor));
        (s.Ok? ==> r == Pass && reader.cursor == s.value) && (s.Err? ==> r == Fail(s.error))
    {
      var hasDebugInfo := reader.ReadUInt32();
      if hasDebugInfo.Err? {
        return Fail(hasDebugInfo.error);
      }
      if hasDebugInfo.value == 1 {
        var hash := reader.ReadUInt32();
        if hash.Err? {
          return Fail(hash.error);
        }
      }
      r := Pass;
    }

    method DisassembleFunction() returns (r: Result<Function>)
      requires Valid() && header.Some?
      modifies reader`cursor
      ensures Valid()
      ensures Agrees(r, ParseFunction(opMeta, header.value, reader.data, old(reader.cursor)), reader.cursor)
      decreases |reader.data| - reader.cursor, 0
    {
      var addr := reader.GetPosition();
      var upvals :- reader.ReadUInt32();
      var params :- reader.ReadUInt32();
      var varArg :- reader.ReadUInt8();
      var regs :- reader.ReadUInt32();
      r := DisassembleSections(Function(addr, upvals, params, varArg, regs, [], [], []));
    }

    /** The rest of a function record after its counts: instructions, constants, debug section and closures. */
    method DisassembleSections(f: Function) returns (r: Result<Function>)
      requires Valid() && header.Some? && reader.cursor <= |reader.data|
      modifies reader`cursor
      ensures Valid()
      ensures Agrees(r, ParseFunctionSections(opMeta, header.value, reader.data, old(reader.cursor), f), reader.cursor)
      decreases |reader.data| - reader.cursor, 3
    {
      var insts :- DisassembleInstructions();
      var consts :- DisassembleConstants();
      var debug := DisassembleDebug();
      if debug.Fail? {
        return Err(debug.error);
      }
      var closures :- DisassembleClosures();
      r := Ok(f.(instructions := insts, constants := consts, closures := closures));
    }

    method DisassembleClosures() returns (r: Result<seq<Function>>)
      requires Valid() && header.Some?
      modifies reader`cursor
      ensures Valid()
      ensures Agrees(r, ParseClosures(opMeta, header.value, reader.data, old(reader.cursor)), reader.cursor)
      decreases |reader.data| - reader.cursor, 2
    {
      ghost var spec := ParseClosures(opMeta, header.value, reader.data, reader.cursor);
      var count :- reader.ReadUInt32();
      var closures: seq<Function> := [];
      var i: nat := 0;
      assert spec == ParseClosureList(opMeta, header.value, reader.data, reader.cursor, count, []);
      while i < count
        invariant i <= count
        invariant Valid()
        invariant old(reader.cursor) < reader.cursor
        invariant reader.cursor <= |reader.data|
        invariant spec == ParseClosureList(opMeta, header.value, reader.data, reader.cursor, count - i, closures)
      {
        ClosureListStep(opMeta, header.value, reader.data, reader.cursor, count - i, closures);
        var f :- DisassembleFunction();
        closures := closures + [f];
        i := i + 1;
      }
      r := Ok(closures);
    }

    /** Reads the header and then the root function record from the cursor. */
    method Disassemble() returns (r: Result<File>)
      requires Valid()
      modifies this`header, reader`cursor
      ensures Valid()
      ensures Agrees(r, ParseFile(opMeta, reader.data, old(reader.cursor)), reader.cursor)
    {
      var hdr :- DisassembleHeader();
      var f :- DisassembleFunction();
      r := Ok(File(hdr, f));
    }
  }
}
