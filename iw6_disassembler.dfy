/**
 * The C++ reader of the binary bytecode format (src/IW6/disassembler.cpp).
 *
 * `utils::byte_buffer` is not part of this model. Its reads are taken to be
 * little-endian and to fail with OutOfRange past the end of the data;
 * `read_string` takes the bytes up to the next NUL and consumes the NUL;
 * `seek(n)` moves the position forward by n.
 *
 * As for the C# reader, the layout is first given as pure functions from the
 * data and a position (`Parse*`); the `Disassembler` class then reads field
 * by field and loop by loop, and each method is proved to agree with its
 * function.
 */
module IW6Disassembler {

  import opened Common
  import opened Bytes
  import opened ByteReader
  import HksOp
  import opened IW6
  import IW6Resolver
  import opened LuiAssembly

  /** The first NUL byte at or after `from`, if there is one. */
  function NulFrom(data: seq<Byte>, from: nat): (k: Option<nat>)
    ensures k.Some? ==> from <= k.value < |data| && data[k.value] == 0
    ensures k.Some? ==> forall j :: from <= j < k.value ==> data[j] != 0
    ensures k.None? ==> forall j :: from <= j < |data| ==> data[j] != 0
    decreases |data| - from
  {
    if from >= |data| then None
    else if data[from] == 0 then Some(from)
    else NulFrom(data, from + 1)
  }

  /** `read_string`: the bytes before the next NUL, as text; the NUL is consumed too. */
  function ReadCString(data: seq<Byte>, pos: int): (r: Result<Parsed<ByteString>>)
    ensures r.Ok? ==> 0 <= pos < r.value.next <= |data| && data[r.value.next - 1] == 0
    ensures r.Ok? ==> |r.value.value| == r.value.next - 1 - pos
    ensures r.Ok? ==> forall j :: pos <= j < r.value.next - 1 ==> data[j] != 0
    ensures r.Err? ==> r.error == OutOfRange
  {
    if pos < 0 then Err(OutOfRange)
    else match NulFrom(data, pos)
      case None => Err(OutOfRange)
      case Some(k) => Ok(Parsed(BytesToChars(data[pos..k]), k + 1))
  }

  // ---------------------------------------------------------------------------
  // Header

  /**
   * One type-table entry: u32 id, a u32 length that is read and ignored, and
   * a NUL-terminated name.
   */
  function ParseTypeInfo(data: seq<Byte>, pos: int): (r: Result<Parsed<TypeInfo>>)
    ensures r.Ok? ==> pos + 8 < r.value.next <= |data|
  {
    if !InBounds(data, pos, 8) then Err(OutOfRange)
    else
      var name :- ReadCString(data, pos + 8);
      Ok(Parsed(TypeInfo(Unsigned(data, true, pos, 4), name.value), name.next))
  }

  /** The remaining `count` type-table entries from `pos`, after the entries `acc` already read. */
  function ParseTypeInfoList(data: seq<Byte>, pos: int, count: nat, acc: seq<TypeInfo>): (r: Result<Parsed<seq<TypeInfo>>>)
    ensures r.Ok? ==> |r.value.value| == |acc| + count && r.value.value[..|acc|] == acc
    ensures r.Ok? ==> pos <= r.value.next && (count == 0 || r.value.next <= |data|)
    decreases count
  {
    if count == 0 then Ok(Parsed(acc, pos))
    else
      var t :- ParseTypeInfo(data, pos);
      ParseTypeInfoList(data, t.next, count - 1, acc + [t.value])
  }

  /**
   * `disassemble_header`: 18 fixed bytes (a u32 magic, ten single bytes and a
   * u32 type count) followed by exactly that many type-table entries.
   */
  function ParseHeader(data: seq<Byte>, pos: int): (r: Result<Parsed<Header>>)
    ensures r.Ok? ==> InBounds(data, pos, 18) && r.value.value.magic == Unsigned(data, true, pos, 4)
    ensures r.Ok? ==> r.value.value.formatVersion == data[pos + 5] && r.value.value.sizeOfSizeT == data[pos + 8]
    ensures r.Ok? ==> r.value.value.typeCount == Unsigned(data, true, pos + 14, 4)
    ensures r.Ok? ==> |r.value.value.types| == r.value.value.typeCount
    ensures r.Ok? ==> pos + 18 <= r.value.next <= |data|
  {
    if !InBounds(data, pos, 18) then Err(OutOfRange)
    else
      var typeCount := Unsigned(data, true, pos + 14, 4);
      var types :- ParseTypeInfoList(data, pos + 18, typeCount, []);
      Ok(Parsed(Header(Unsigned(data, true, pos, 4), data[pos + 4], data[pos + 5], data[pos + 6], data[pos + 7],
        data[pos + 8], data[pos + 9], data[pos + 10], data[pos + 11], data[pos + 12], data[pos + 13],
        typeCount, types.value), types.next))
  }

  // ---------------------------------------------------------------------------
  // Instructions

  /**
   * `disassemble_instruction`'s field extraction. OP is `(value & 0xFF000000) >> 25`;
   * A, B, C and Bx are the fields the C# reader extracts; sBx is
   * `bx - 0x10000 + 1` computed in 32-bit unsigned arithmetic and then read
   * as a signed 32-bit number; a C of 0x100 or more loses its top bit and
   * sets `szero`. The `instruction` constructor is called with eight arguments
   * for its nine parameters; the model stores them in the fields they are
   * evidently meant for and leaves `index` 0.
   */
  function DecodeInstruction(value: HksOp.Word): (i: Instruction)
    ensures i.value == value && i.mode == Unset
    ensures i.op < 0x80 && i.a < 0x100 && i.b < 0x100 && i.c < 0x100 && i.bx < 0x2_0000
  {
    var op := ((value / 0x100_0000) % 0x100) / 2;
    var c := HksOp.GetArgC(value);
    var bx := HksOp.GetArgBx(value);
    var sbx := ToSigned((bx + 0x1_0000_0000 - 0x1_0000 + 1) % 0x1_0000_0000, 4);
    NewInstruction(0, value, op, HksOp.GetArgA(value), HksOp.GetArgB(value),
      if c >= 0x100 then c - 0x100 else c, bx, sbx, c >= 0x100)
  }

  /**
   * Both tool chains read the same fields from a word: the 0xFF000000 mask
   * shifted by 25 is the 7-bit opcode field, sBx is Bx - 0xFFFF (the 32-bit
   * wrap-around cancels out), and `szero` is bit 16, the C# `GetsZero`, with C
   * keeping the low eight bits.
   */
  lemma DecodeAgreesWithHksOp(value: HksOp.Word)
    ensures var i := DecodeInstruction(value);
      && i.op == HksOp.GetCode(value)
      && i.a == HksOp.GetArgA(value) && i.b == HksOp.GetArgB(value) && i.bx == HksOp.GetArgBx(value)
      && i.sbx == HksOp.GetArgsBx(value)
      && (i.szero <==> HksOp.GetsZero(value))
      && (i.szero <==> HksOp.Bit16(value) == 1)
      && i.c == HksOp.GetArgC(value) % 0x100
  {
    OpFieldIsCode(value);
    SignedBxWraps(HksOp.GetArgBx(value));
    HksOp.GetsZeroIsBit16(value);
    var c := HksOp.GetArgC(value);
    if c >= 0x100 {
      DivMod(c, 0x100, 1, c - 0x100);
    } else {
      DivMod(c, 0x100, 0, c);
    }
  }

  /** The top byte halved is the top seven bits. */
  lemma OpFieldIsCode(value: HksOp.Word)
    ensures ((value / 0x100_0000) % 0x100) / 2 == HksOp.GetCode(value)
  {
    var top := value / 0x100_0000;
    assert top % 0x100 == top;
    DivMod(value, 0x200_0000, top / 2, (top % 2) * 0x100_0000 + value % 0x100_0000);
  }

  /** `bx - 0x10000 + 1` in 32-bit arithmetic, read back as signed, is Bx - 0xFFFF. */
  lemma SignedBxWraps(bx: nat)
    requires bx < 0x2_0000
    ensures ToSigned((bx + 0x1_0000_0000 - 0x1_0000 + 1) % 0x1_0000_0000, 4) == bx - 0xFFFF
  {
    if bx >= 0xFFFF {
      assert (bx + 0x1_0000_0000 - 0x1_0000 + 1) % 0x1_0000_0000 == bx - 0xFFFF;
    } else {
      assert (bx + 0x1_0000_0000 - 0x1_0000 + 1) % 0x1_0000_0000 == bx + 0x1_0000_0000 - 0xFFFF;
    }
  }

  /** The remaining `count` instruction words from `pos`, after the instructions `acc` already read. */
  function ParseInstructionList(data: seq<Byte>, pos: int, count: nat, acc: seq<Instruction>)
    : (r: Result<Parsed<seq<Instruction>>>)
    ensures r.Ok? ==> |r.value.value| == |acc| + count && r.value.value[..|acc|] == acc
    ensures r.Ok? ==> r.value.next == pos + 4 * count
    decreases count
  {
    if count == 0 then Ok(Parsed(acc, pos))
    else
      var w :- ReadUnsigned(data, pos, 4);
      ParseInstructionList(data, w.next, count - 1, acc + [DecodeInstruction(w.value)])
  }

  /**
   * Where the instruction words start after the count field ends at `pos`:
   * `pad = 4 - pos % 4` bytes are skipped when that is 1, 2 or 3.
   */
  function PadTo4(pos: nat): (p: nat)
    ensures pos <= p < pos + 4 && p % 4 == 0
  {
    var pad := 4 - pos % 4;
    if 0 < pad < 4 then pos + pad else pos
  }

  // ---------------------------------------------------------------------------
  // Constants

  /**
   * One constant: a tag byte, then by tag nothing (nil), one byte read as
   * "true"/"false" (boolean), a u64 printed with "%lld" (light user data), a
   * 4-byte float printed with "%g" (number), an ignored u64 length and a
   * NUL-terminated string (string). Any other tag is an error. The "%g" text is
   * `floatText`, a parameter: floating point is not part of this model.
   */
  function ParseConstant(floatText: seq<Byte> -> ByteString, data: seq<Byte>, pos: int): (r: Result<Parsed<Constant>>)
    ensures r.Ok? ==> InBounds(data, pos, 1) && r.value.value.dataType == data[pos] && r.value.next > pos
    ensures InBounds(data, pos, 1) && data[pos] > TSTRING ==> r == Err(DisassembleError("UNKNOWN CONSTANT TYPE"))
  {
    var tag :- ReadUnsigned(data, pos, 1);
    var t := tag.value;
    var p := tag.next;
    if t == TNIL then Ok(Parsed(Constant(t, ""), p))
    else if t == TBOOLEAN then
      var b :- ReadUnsigned(data, p, 1);
      Ok(Parsed(Constant(t, if b.value != 0 then "true" else "false"), b.next))
    else if t == TLIGHTUSERDATA then
      var n :- ReadUnsigned(data, p, 8);
      Ok(Parsed(Constant(t, SignedDecimal(ToSigned(n.value, 8))), n.next))
    else if t == TNUMBER then
      var f :- ReadRaw(data, p, 4);
      Ok(Parsed(Constant(t, floatText(f.value)), f.next))
    else if t == TSTRING then
      var length :- ReadUnsigned(data, p, 8);
      var s :- ReadCString(data, length.next);
      Ok(Parsed(Constant(t, s.value), s.next))
    else Err(DisassembleError("UNKNOWN CONSTANT TYPE"))
  }

  /** The remaining `count` constants from `pos`, after the constants `acc` already read. */
  function ParseConstantList(floatText: seq<Byte> -> ByteString, data: seq<Byte>, pos: int, count: nat, acc: seq<Constant>)
    : (r: Result<Parsed<seq<Constant>>>)
    ensures r.Ok? ==> |r.value.value| == |acc| + count && r.value.value[..|acc|] == acc
    ensures r.Ok? ==> r.value.next >= pos
    decreases count
  {
    if count == 0 then Ok(Parsed(acc, pos))
    else
      var k :- ParseConstant(floatText, data, pos);
      ParseConstantList(floatText, data, k.next, count - 1, acc + [k.value])
  }

  // ---------------------------------------------------------------------------
  // Functions

  /**
   * A function record whose three counts are the lengths of the lists read
   * after them, and every sub-function likewise.
   */
  predicate WellCounted(f: Function)
    decreases f
  {
    && f.instructionCount == |f.instructions|
    && f.constantCount == |f.constants|
    && f.subFuncCount == |f.subFuncs|
    && forall g :: g in f.subFuncs ==> WellCounted(g)
  }

  /**
   * `disassemble_function`: 21 fixed bytes (u32 upvalue count, u32 parameter
   * count, the flags byte, u32 register count and a u64 instruction count),
   * then the padding, then the rest of the record.
   */
  function ParseFunction(floatText: seq<Byte> -> ByteString, data: seq<Byte>, pos: int): (r: Result<Parsed<Function>>)
    requires 0 <= pos <= |data|
    ensures r.Ok? ==> pos < r.value.next <= |data|
    decreases |data| - pos, 0
  {
    var start := PadTo4(pos + 21);
    // Seeking past the end leaves nothing to read: the constant count after it cannot be read.
    if !InBounds(data, pos, 21) || start > |data| then Err(OutOfRange)
    else ParseFunctionBody(floatText, data, start, FunctionHead(data, pos))
  }

  /** The 21 fixed bytes of a function record, as a record whose lists are still empty. */
  function FunctionHead(data: seq<Byte>, pos: int): (f: Function)
    requires InBounds(data, pos, 21)
    ensures f.varargFlags == data[pos + 8] && f.instructionCount == Unsigned(data, true, pos + 13, 8)
    ensures f.instructions == [] && f.constants == [] && f.subFuncs == []
  {
    Function(Unsigned(data, true, pos, 4), Unsigned(data, true, pos + 4, 4), data[pos + 8],
      Unsigned(data, true, pos + 9, 4), Unsigned(data, true, pos + 13, 8), [], 0, [], 0, 0, [])
  }

  /**
   * The rest of a function record from the first instruction word: the
   * instructions, the constant section, a u32 debug word and the
   * sub-function section.
   */
  function ParseFunctionBody(floatText: seq<Byte> -> ByteString, data: seq<Byte>, pos: int, f: Function)
    : (r: Result<Parsed<Function>>)
    requires 0 <= pos <= |data|
    ensures r.Ok? ==> pos < r.value.next <= |data|
    ensures r.Ok? ==> r.value.value.instructionCount == f.instructionCount
    decreases |data| - pos, 3
  {
    var insts :- ParseInstructionList(data, pos, f.instructionCount, []);
    var consts :- ParseConstants(floatText, data, insts.next);
    var debug :- ReadUnsigned(data, consts.next, 4);
    var subs :- ParseSubFunctions(floatText, data, debug.next);
    Ok(Parsed(f.(instructions := insts.value, constantCount := |consts.value|, constants := consts.value,
      debug := debug.value, subFuncCount := |subs.value|, subFuncs := subs.value), subs.next))
  }

  /** The constant section: a u32 count, then exactly that many constants. */
  function ParseConstants(floatText: seq<Byte> -> ByteString, data: seq<Byte>, pos: int): (r: Result<Parsed<seq<Constant>>>)
    ensures r.Ok? ==> ReadUnsigned(data, pos, 4).Ok? && |r.value.value| == ReadUnsigned(data, pos, 4).value.value
    ensures r.Ok? ==> r.value.next >= pos + 4
  {
    var count :- ReadUnsigned(data, pos, 4);
    ParseConstantList(floatText, data, count.next, count.value, [])
  }

  /** The sub-function section: a u32 count, then exactly that many function records. */
  function ParseSubFunctions(floatText: seq<Byte> -> ByteString, data: seq<Byte>, pos: int): (r: Result<Parsed<seq<Function>>>)
    requires pos >= 0
    ensures r.Ok? ==> ReadUnsigned(data, pos, 4).Ok? && |r.value.value| == ReadUnsigned(data, pos, 4).value.value
    ensures r.Ok? ==> pos + 4 <= r.value.next <= |data|
    decreases |data| - pos, 2
  {
    var count :- ReadUnsigned(data, pos, 4);
    ParseFunctionList(floatText, data, count.next, count.value, [])
  }

  /** The remaining `count` sub-function records from `pos`, after the records `acc` already read. */
  function ParseFunctionList(floatText: seq<Byte> -> ByteString, data: seq<Byte>, pos: int, count: nat, acc: seq<Function>)
    : (r: Result<Parsed<seq<Function>>>)
    requires 0 <= pos <= |data|
    ensures r.Ok? ==> |r.value.value| == |acc| + count && r.value.value[..|acc|] == acc
    ensures r.Ok? ==> pos <= r.value.next <= |data|
    decreases |data| - pos, 1
  {
    if count == 0 then Ok(Parsed(acc, pos))
    else
      var g :- ParseFunction(floatText, data, pos);
      ParseFunctionList(floatText, data, g.next, count - 1, acc + [g.value])
  }

  /** The sub-function section is its count, then the list of that many records after it. */
  lemma SubFunctionsStart(floatText: seq<Byte> -> ByteString, data: seq<Byte>, pos: int)
    requires pos >= 0
    ensures InBounds(data, pos, 4) ==> (pos + 4 <= |data|
      && ParseSubFunctions(floatText, data, pos) == ParseFunctionList(floatText, data, pos + 4, Unsigned(data, true, pos, 4), []))
  {
  }

  /** One step of the sub-function list: the next record, then the rest. */
  lemma FunctionListStep(floatText: seq<Byte> -> ByteString, data: seq<Byte>, pos: int, count: nat, acc: seq<Function>)
    requires 0 <= pos <= |data| && count > 0
    ensures ParseFunction(floatText, data, pos).Err? ==>
      ParseFunctionList(floatText, data, pos, count, acc) == Err(ParseFunction(floatText, data, pos).error)
    ensures ParseFunction(floatText, data, pos).Ok? ==>
      var g := ParseFunction(floatText, data, pos).value;
      ParseFunctionList(floatText, data, pos, count, acc) == ParseFunctionList(floatText, data, g.next, count - 1, acc + [g.value])
  {
  }

  /** Every record the reader produces has counts equal to the lengths of its lists, all the way down. */
  lemma {:induction false} FunctionWellCounted(floatText: seq<Byte> -> ByteString, data: seq<Byte>, pos: int)
    requires 0 <= pos <= |data|
    ensures ParseFunction(floatText, data, pos).Ok? ==> WellCounted(ParseFunction(floatText, data, pos).value.value)
    decreases |data| - pos, 1
  {
    var start := PadTo4(pos + 21);
    if InBounds(data, pos, 21) && start <= |data| {
      BodyWellCounted(floatText, data, start, FunctionHead(data, pos));
    }
  }

  /** The rest of a record, read after the 21 fixed bytes, is well counted. */
  lemma {:induction false} BodyWellCounted(floatText: seq<Byte> -> ByteString, data: seq<Byte>, pos: int, f: Function)
    requires 0 <= pos <= |data|
    ensures var r := ParseFunctionBody(floatText, data, pos, f); r.Ok? ==> WellCounted(r.value.value)
    decreases |data| - pos, 3
  {
    var r := ParseFunctionBody(floatText, data, pos, f);
    if r.Ok? {
      var insts := ParseInstructionList(data, pos, f.instructionCount, []).value;
      var consts := ParseConstants(floatText, data, insts.next).value;
      var debug := ReadUnsigned(data, consts.next, 4).value;
      var count := ReadUnsigned(data, debug.next, 4).value;
      FunctionListWellCounted(floatText, data, count.next, count.value, []);
    }
  }

  /** The sub-function list keeps every record well counted. */
  lemma {:induction false} FunctionListWellCounted(floatText: seq<Byte> -> ByteString, data: seq<Byte>, pos: int,
    count: nat, acc: seq<Function>)
    requires 0 <= pos <= |data| && forall g :: g in acc ==> WellCounted(g)
    ensures ParseFunctionList(floatText, data, pos, count, acc).Ok? ==>
      forall g :: g in ParseFunctionList(floatText, data, pos, count, acc).value.value ==> WellCounted(g)
    decreases |data| - pos, 2
  {
    if count > 0 && ParseFunction(floatText, data, pos).Ok? {
      var g := ParseFunction(floatText, data, pos).value;
      FunctionWellCounted(floatText, data, pos);
      FunctionListWellCounted(floatText, data, g.next, count - 1, acc + [g.value]);
    }
  }

  /** `disassemble_prototype`: three u32 values, read and dropped. Gives the position after them. */
  function ParsePrototype(data: seq<Byte>, pos: int): (r: Result<int>)
    ensures r.Ok? <==> InBounds(data, pos, 12)
    ensures r.Ok? ==> r.value == pos + 12
  {
    var headMismatch :- ReadUnsigned(data, pos, 4);
    var unk1 :- ReadUnsigned(data, headMismatch.next, 4);
    var unk2 :- ReadUnsigned(data, unk1.next, 4);
    Ok(unk2.next)
  }

  /** `disassemble`: the header, the main function and the prototype trailer, from the start of the data. */
  function ParseFile(floatText: seq<Byte> -> ByteString, data: seq<Byte>): (r: Result<File>)
    ensures r.Ok? ==> ParseHeader(data, 0).Ok? && r.value.header == ParseHeader(data, 0).value.value
  {
    var hdr :- ParseHeader(data, 0);
    var main :- ParseFunction(floatText, data, hdr.next);
    var end :- ParsePrototype(data, main.next);
    Ok(File(hdr.value, main.value))
  }

  /**
   * The part of `utils::byte_buffer` the reader uses: the data and a read
   * position, little-endian fixed-width reads and NUL-terminated strings.
   */
  class ByteBuffer {
    const data: seq<Byte>
    var pos: int

    constructor (data: seq<Byte>)
      ensures this.data == data && pos == 0
    {
      this.data := data;
      pos := 0;
    }

    /** `read<T>`: an unsigned little-endian field of `width` bytes. */
    method Read(width: nat) returns (r: Result<nat>)
      modifies this`pos
      ensures InBounds(data, old(pos), width) ==> r == Ok(Unsigned(data, true, old(pos), width)) && pos == old(pos) + width
      ensures !InBounds(data, old(pos), width) ==> r == Err(OutOfRange) && pos == old(pos)
      ensures InBounds(data, old(pos), width) && width == 1 ==> r == Ok(data[old(pos)])
    {
      if !InBounds(data, pos, width) {
        return Err(OutOfRange);
      }
      r := Ok(Unsigned(data, true, pos, width));
      pos := pos + width;
    }

    /** `read_string`: the bytes up to the next NUL, found by scanning; the NUL is consumed. */
    method ReadString() returns (r: Result<ByteString>)
      modifies this`pos
      ensures Agrees(r, ReadCString(data, old(pos)), pos)
    {
      if pos < 0 || pos > |data| {
        return Err(OutOfRange);
      }
      var k := pos;
      while k < |data| && data[k] != 0
        invariant pos <= k <= |data|
        invariant NulFrom(data, k) == NulFrom(data, pos)
        decreases |data| - k
      {
        k := k + 1;
      }
      if k == |data| {
        return Err(OutOfRange);
      }
      r := Ok(BytesToChars(data[pos..k]));
      pos := k + 1;
    }

    /** `seek`: moves the position forward. */
    method Seek(n: nat)
      modifies this`pos
      ensures pos == old(pos) + n
    {
      pos := pos + n;
    }
  }

  /** `disassembler`: the byte buffer being read and the file being built. */
  class Disassembler {
    /** The "%g" text of a 4-byte float; floating point is not part of this model. */
    const floatText: seq<Byte> -> ByteString
    var buffer: ByteBuffer
    var file: Option<File>

    constructor (floatText: seq<Byte> -> ByteString)
      ensures this.floatText == floatText && fresh(buffer) && buffer.data == [] && file == None
    {
      this.floatText := floatText;
      buffer := new ByteBuffer([]);
      file := None;
    }

    /** `output`: this reader produces no bytes. */
    method Output() returns (o: seq<Byte>)
      ensures o == []
    {
      o := [];
    }

    /** `disassemble`: reads the whole of `input`, from a fresh buffer, into `file`. */
    method Disassemble(input: seq<Byte>) returns (r: Outcome)
      modifies this
      ensures fresh(buffer) && buffer.data == input
      ensures ParseFile(floatText, input).Ok? ==> r == Pass && file == Some(ParseFile(floatText, input).value)
      ensures ParseFile(floatText, input).Err? ==> r == Fail(ParseFile(floatText, input).error)
    {
      buffer := new ByteBuffer(input);
      file := None;
      var header := DisassembleHeader();
      if header.Err? {
        return Fail(header.error);
      }
      var main := DisassembleFunction();
      if main.Err? {
        return Fail(main.error);
      }
      var end := DisassemblePrototype();
      if end.Fail? {
        return end;
      }
      file := Some(File(header.value, main.value));
      r := Pass;
    }

    method DisassembleHeader() returns (r: Result<Header>)
      modifies buffer`pos
      ensures Agrees(r, ParseHeader(buffer.data, old(buffer.pos)), buffer.pos)
    {
      var magic :- buffer.Read(4);
      var luaVersion :- buffer.Read(1);
      var formatVersion :- buffer.Read(1);
      var endianness :- buffer.Read(1);
      var sizeOfInt :- buffer.Read(1);
      var sizeOfSizeT :- buffer.Read(1);
      var sizeOfInstruction :- buffer.Read(1);
      var sizeOfLuaNumber :- buffer.Read(1);
      var integralFlag :- buffer.Read(1);
      var buildFlags :- buffer.Read(1);
      var referencedMode :- buffer.Read(1);
      var typeCount :- buffer.Read(4);
      var types :- DisassembleTypeInfos(typeCount);
      r := Ok(Header(magic, luaVersion, formatVersion, endianness, sizeOfInt, sizeOfSizeT, sizeOfInstruction,
        sizeOfLuaNumber, integralFlag, buildFlags, referencedMode, typeCount, types));
    }

    /** The type-table loop of `disassemble_header`. */
    method DisassembleTypeInfos(count: nat) returns (r: Result<seq<TypeInfo>>)
      modifies buffer`pos
      ensures Agrees(r, ParseTypeInfoList(buffer.data, old(buffer.pos), count, []), buffer.pos)
    {
      ghost var spec := ParseTypeInfoList(buffer.data, buffer.pos, count, []);
      var types: seq<TypeInfo> := [];
      var i: nat := 0;
      while i < count
        invariant i <= count
        invariant spec == ParseTypeInfoList(buffer.data, buffer.pos, count - i, types)
      {
        var t :- DisassembleTypeInfo();
        types := types + [t];
        i := i + 1;
      }
      r := Ok(types);
    }

    /** The body of the type-table loop of `disassemble_header`. */
    method DisassembleTypeInfo() returns (r: Result<TypeInfo>)
      modifies buffer`pos
      ensures Agrees(r, ParseTypeInfo(buffer.data, old(buffer.pos)), buffer.pos)
    {
      var id :- buffer.Read(4);
      var length :- buffer.Read(4);
      var name :- buffer.ReadString();
      r := Ok(TypeInfo(id, name));
    }

    method DisassemblePrototype() returns (r: Outcome)
      modifies buffer`pos
      ensures ParsePrototype(buffer.data, old(buffer.pos)).Ok? ==>
        r == Pass && buffer.pos == ParsePrototype(buffer.data, old(buffer.pos)).value
      ensures ParsePrototype(buffer.data, old(buffer.pos)).Err? ==> r == Fail(ParsePrototype(buffer.data, old(buffer.pos)).error)
    {
      var headMismatch := buffer.Read(4);
      if headMismatch.Err? {
        return Fail(headMismatch.error);
      }
      var unk1 := buffer.Read(4);
      if unk1.Err? {
        return Fail(unk1.error);
      }
      var unk2 := buffer.Read(4);
      if unk2.Err? {
        return Fail(unk2.error);
      }
      r := Pass;
    }

    /** `disassemble_instruction`: one word, decoded. */
    method DisassembleInstruction() returns (r: Result<Instruction>)
      modifies buffer`pos
      ensures var s := ReadUnsigned(buffer.data, old(buffer.pos), 4);
        s.Ok? ==> r == Ok(DecodeInstruction(s.value.value)) && buffer.pos == s.value.next
      ensures ReadUnsigned(buffer.data, old(buffer.pos), 4).Err? ==> r == Err(OutOfRange)
    {
      var value :- buffer.Read(4);
      r := Ok(DecodeInstruction(value));
    }

    /** `disassemble_constant`: a tag byte and its payload. */
    method DisassembleConstant() returns (r: Result<Constant>)
      modifies buffer`pos
      ensures Agrees(r, ParseConstant(floatText, buffer.data, old(buffer.pos)), buffer.pos)
    {
      var t :- buffer.Read(1);
      var value: ByteString := "";
      if t == TNIL {
      } else if t == TBOOLEAN {
        var b :- buffer.Read(1);
        value := if b != 0 then "true" else "false";
      } else if t == TLIGHTUSERDATA {
        var n :- buffer.Read(8);
        value := SignedDecimal(ToSigned(n, 8));
      } else if t == TNUMBER {
        if !InBounds(buffer.data, buffer.pos, 4) {
          return Err(OutOfRange);
        }
        value := floatText(buffer.data[buffer.pos..buffer.pos + 4]);
        buffer.Seek(4);
      } else if t == TSTRING {
        var length :- buffer.Read(8);
        value :- buffer.ReadString();
      } else {
        return Err(DisassembleError("UNKNOWN CONSTANT TYPE"));
      }
      r := Ok(Constant(t, value));
    }

    /**
     * `disassemble_function`: one function record and, recursively, its
     * sub-functions.
     */
    method DisassembleFunction() returns (r: Result<Function>)
      requires 0 <= buffer.pos <= |buffer.data|
      modifies buffer`pos
      ensures Agrees(r, ParseFunction(floatText, buffer.data, old(buffer.pos)), buffer.pos)
      decreases |buffer.data| - buffer.pos, 0
    {
      ghost var entry := buffer.pos;
      var f :- DisassembleFunctionHead();
      var pad := 4 - buffer.pos % 4;
      if 0 < pad < 4 {
        buffer.Seek(pad);
      }
      assert buffer.pos == PadTo4(entry + 21);
      if buffer.pos > |buffer.data| {
        return Err(OutOfRange);
      }
      assert ParseFunction(floatText, buffer.data, entry) == ParseFunctionBody(floatText, buffer.data, buffer.pos, f);
      r := DisassembleFunctionBody(f);
    }

    /** The five fixed fields at the start of `disassemble_function`. */
    method DisassembleFunctionHead() returns (r: Result<Function>)
      modifies buffer`pos
      ensures InBounds(buffer.data, old(buffer.pos), 21) ==>
        r == Ok(FunctionHead(buffer.data, old(buffer.pos))) && buffer.pos == old(buffer.pos) + 21
      ensures !InBounds(buffer.data, old(buffer.pos), 21) ==> r == Err(OutOfRange)
    {
      var upvals :- buffer.Read(4);
      var params :- buffer.Read(4);
      var flags :- buffer.Read(1);
      var regs :- buffer.Read(4);
      var count :- buffer.Read(8);
      r := Ok(Function(upvals, params, flags, regs, count, [], 0, [], 0, 0, []));
    }

    /** The rest of `disassemble_function` from the first instruction word. */
    method DisassembleFunctionBody(f: Function) returns (r: Result<Function>)
      requires 0 <= buffer.pos <= |buffer.data|
      modifies buffer`pos
      ensures Agrees(r, ParseFunctionBody(floatText, buffer.data, old(buffer.pos), f), buffer.pos)
      decreases |buffer.data| - buffer.pos, 3
    {
      var insts :- DisassembleInstructions(f.instructionCount);
      var consts :- DisassembleConstants();
      var debug :- buffer.Read(4);
      var subs :- DisassembleSubFunctions();
      r := Ok(f.(instructions := insts, constantCount := |consts|, constants := consts,
        debug := debug, subFuncCount := |subs|, subFuncs := subs));
    }

    /** The instruction loop of `disassemble_function`. */
    method DisassembleInstructions(count: nat) returns (r: Result<seq<Instruction>>)
      modifies buffer`pos
      ensures Agrees(r, ParseInstructionList(buffer.data, old(buffer.pos), count, []), buffer.pos)
    {
      ghost var spec := ParseInstructionList(buffer.data, buffer.pos, count, []);
      var insts: seq<Instruction> := [];
      var i: nat := 0;
      while i < count
        invariant i <= count
        invariant spec == ParseInstructionList(buffer.data, buffer.pos, count - i, insts)
      {
        var inst :- DisassembleInstruction();
        insts := insts + [inst];
        i := i + 1;
      }
      r := Ok(insts);
    }

    /** The constant count and the constant loop of `disassemble_function`. */
    method DisassembleConstants() returns (r: Result<seq<Constant>>)
      modifies buffer`pos
      ensures Agrees(r, ParseConstants(floatText, buffer.data, old(buffer.pos)), buffer.pos)
    {
      var count :- buffer.Read(4);
      ghost var spec := ParseConstantList(floatText, buffer.data, buffer.pos, count, []);
      var consts: seq<Constant> := [];
      var i: nat := 0;
      while i < count
        invariant i <= count
        invariant spec == ParseConstantList(floatText, buffer.data, buffer.pos, count - i, consts)
      {
        ghost var p := buffer.pos;
        var k :- DisassembleConstant();
        assert ParseConstant(floatText, buffer.data, p) == Ok(Parsed(k, buffer.pos));
        consts := consts + [k];
        i := i + 1;
      }
      r := Ok(consts);
    }

    /** The sub-function count and the sub-function loop of `disassemble_function`. */
    method DisassembleSubFunctions() returns (r: Result<seq<Function>>)
      requires 0 <= buffer.pos
      modifies buffer`pos
      ensures Agrees(r, ParseSubFunctions(floatText, buffer.data, old(buffer.pos)), buffer.pos)
      decreases |buffer.data| - buffer.pos, 2
    {
      SubFunctionsStart(floatText, buffer.data, buffer.pos);
      var count :- buffer.Read(4);
      r := SubFunctionLoop(count);
    }

    /** The sub-function loop: `count` records in order, or the first one's error. */
    method SubFunctionLoop(count: nat) returns (r: Result<seq<Function>>)
      requires 0 <= buffer.pos <= |buffer.data|
      modifies buffer`pos
      ensures Agrees(r, ParseFunctionList(floatText, buffer.data, old(buffer.pos), count, []), buffer.pos)
      decreases |buffer.data| - buffer.pos, 2
    {
      ghost var spec := ParseFunctionList(floatText, buffer.data, buffer.pos, count, []);
      var subs: seq<Function> := [];
      var i: nat := 0;
      while i < count
        invariant i <= count
        invariant old(buffer.pos) <= buffer.pos <= |buffer.data|
        invariant spec == ParseFunctionList(floatText, buffer.data, buffer.pos, count - i, subs)
      {
        var g := NextSubFunction(count - i, subs);
        if g.Err? {
          return Err(g.error);
        }
        subs := subs + [g.value];
        i := i + 1;
      }
      r := Ok(subs);
    }

    /** One pass of the sub-function loop: the next record, with `left` records still to read after `subs`. */
    method NextSubFunction(ghost left: nat, ghost subs: seq<Function>) returns (g: Result<Function>)
      requires 0 <= buffer.pos <= |buffer.data| && left > 0
      modifies buffer`pos
      ensures g.Err? ==> ParseFunctionList(floatText, buffer.data, old(buffer.pos), left, subs) == Err(g.error)
      ensures g.Ok? ==> old(buffer.pos) < buffer.pos <= |buffer.data|
      ensures g.Ok? ==> (ParseFunctionList(floatText, buffer.data, old(buffer.pos), left, subs)
        == ParseFunctionList(floatText, buffer.data, buffer.pos, left - 1, subs + [g.value]))
      decreases |buffer.data| - buffer.pos, 1
    {
      FunctionListStep(floatText, buffer.data, buffer.pos, left, subs);
      g := DisassembleFunction();
    }

    /** `disassemble_opcode`: no opcode has a case, so every one is reported as unhandled, by name. */
    method DisassembleOpcode(inst: Instruction) returns (r: Outcome)
      requires inst.op < 0x100
      ensures r.Fail? && r.error == UnhandledOpcode(inst.op)
    {
      r := Fail(UnhandledOpcode(inst.op));
    }
  }
}
