/**
 * The C++ writer of the binary bytecode format (src/IW6/assembler.cpp).
 *
 * `utils::byte_buffer` is not part of this model. Its writes are taken to
 * append little-endian bytes at the write position, and `write_c_string` to
 * append the string's bytes and a NUL.
 *
 * Every layout function takes the bytes written so far and gives the bytes
 * after its part is written (or the exception that stops the writer): the
 * padding depends on the absolute write position, so a part cannot be
 * written without knowing what precedes it.
 */
module IW6Assembler {

  import opened Common
  import opened Bytes
  import opened LuiAssembly
  import IW6Disassembler

  /** `write<std::uint32_t>`: four bytes of the value truncated to 32 bits. */
  function U32(n: nat): (bs: seq<Byte>)
    ensures |bs| == 4
  {
    LittleEndianBytes(n, 4)
  }

  /** `write<std::uint64_t>`. */
  function U64(n: nat): (bs: seq<Byte>)
    ensures |bs| == 8
  {
    LittleEndianBytes(n, 8)
  }

  /** `write<std::uint8_t>`. */
  function U8(n: nat): (bs: seq<Byte>)
    ensures |bs| == 1 && bs[0] == n % 256
  {
    LittleEndianBytes(n, 1)
  }

  /** `write_c_string`: the bytes of the string, then a NUL. */
  function CString(s: ByteString): (bs: seq<Byte>)
    ensures |bs| == |s| + 1 && bs[|s|] == 0 && BytesToChars(bs[..|s|]) == s
  {
    var b := CharsToBytes(s);
    assert (b + [0])[..|s|] == b;
    b + [0]
  }

  // ---------------------------------------------------------------------------
  // Header

  const SIGNATURE: nat := 0x61754C1B

  /** The static type table `assemble_header` writes: every `data_type` up to TSTRUCT, by name. */
  const TYPE_TABLE: seq<TypeInfo> := [
    TypeInfo(TNIL, "TNIL"), TypeInfo(TBOOLEAN, "TBOOLEAN"), TypeInfo(TLIGHTUSERDATA, "TLIGHTUSERDATA"),
    TypeInfo(TNUMBER, "TNUMBER"), TypeInfo(TSTRING, "TSTRING"), TypeInfo(TTABLE, "TTABLE"),
    TypeInfo(TFUNCTION, "TFUNCTION"), TypeInfo(TUSERDATA, "TUSERDATA"), TypeInfo(TTHREAD, "TTHREAD"),
    TypeInfo(TIFUNCTION, "TIFUNCTION"), TypeInfo(TCFUNCTION, "TCFUNCTION"), TypeInfo(TUI64, "TUI64"),
    TypeInfo(TSTRUCT, "TSTRUCT")]

  /** The table lists the 13 types in order: entry i has id i, and its count field says 13. */
  lemma TypeTableInOrder()
    ensures |TYPE_TABLE| == 13
    ensures forall i :: 0 <= i < |TYPE_TABLE| ==> TYPE_TABLE[i].id == i
  {
  }

  /** The type-table loop from entry `i`: id, name length counting the NUL, and the name. */
  function WriteTypes(out: seq<Byte>, types: seq<TypeInfo>, i: nat): (o: seq<Byte>)
    requires i <= |types|
    ensures |o| >= |out| && o[..|out|] == out
    decreases |types| - i
  {
    if i == |types| then out
    else
      var t := types[i];
      var o := out + U32(t.id);
      var o := o + U32(|t.name| + 1);
      var o := o + CString(t.name);
      WriteTypes(o, types, i + 1)
  }

  /**
   * `assemble_header`: the same header whatever the file's own header says:
   * Lua 5.1, format 13, little-endian, int 4 bytes, size_t 8, instruction 4,
   * number 4, integral flag 0, build flags 3, referenced mode 0, and the
   * 13-entry type table.
   */
  function WriteHeader(out: seq<Byte>): (o: seq<Byte>)
    ensures |o| >= |out| + 18 && o[..|out|] == out
  {
    var o := WriteHeaderFields(out);
    WriteTypes(o, TYPE_TABLE, 0)
  }

  /** The 18 fixed bytes of `assemble_header`, before the type table. */
  function WriteHeaderFields(out: seq<Byte>): (o: seq<Byte>)
    ensures |o| == |out| + 18 && o[..|out|] == out
  {
    var o := out + U32(SIGNATURE);
    var o := o + U8(0x51);
    var o := o + U8(0x0D);
    var o := o + U8(0x01);
    var o := o + U8(0x04);
    var o := o + U8(0x08);
    var o := o + U8(0x04);
    var o := o + U8(0x04);
    var o := o + U8(0x00);
    var o := o + U8(0x03);
    var o := o + U8(0x00);
    o + U32(0x0D)
  }

  // ---------------------------------------------------------------------------
  // Constants

  /**
   * `assemble_constant`: the tag byte, then by tag nothing (nil), 1 for the
   * text "true" and 0 for anything else (boolean), the 4 bytes of `std::stof`
   * of the text (number), or a u64 length counting the NUL and the
   * NUL-terminated text (string). Any other tag, light user data included, is
   * an error after the tag byte. `floatBits` is `std::stof` as the 32-bit
   * pattern of the float, or the exception it throws; floating point is not
   * part of this model.
   */
  function WriteConstant(floatBits: ByteString -> Result<nat>, out: seq<Byte>, k: Constant): (r: Result<seq<Byte>>)
    ensures r.Ok? ==> |r.value| > |out| && r.value[..|out|] == out && r.value[|out|] == k.dataType % 256
    ensures k.dataType !in {TNIL, TBOOLEAN, TNUMBER, TSTRING} ==> r == Err(DisassembleError("UNKNOWN CONSTANT TYPE"))
  {
    var o := out + U8(k.dataType);
    assert o[..|out|] == out;
    if k.dataType == TNIL then Ok(o)
    else if k.dataType == TBOOLEAN then Ok(o + U8(if k.value == "true" then 1 else 0))
    else if k.dataType == TNUMBER then
      var bits :- floatBits(k.value);
      Ok(o + U32(bits))
    else if k.dataType == TSTRING then
      var o := o + U64(|k.value| + 1);
      Ok(o + CString(k.value))
    else Err(DisassembleError("UNKNOWN CONSTANT TYPE"))
  }

  /** The constant loop from index `i`: `constants.at(i)` throws once `i` passes the list. */
  function WriteConstants(floatBits: ByteString -> Result<nat>, out: seq<Byte>, f: Function, i: nat): (r: Result<seq<Byte>>)
    ensures r.Ok? ==> |r.value| >= |out| && r.value[..|out|] == out
    ensures f.constantCount > |f.constants| && i <= |f.constants| ==> r.Err?
    decreases f.constantCount - i
  {
    if i >= f.constantCount then Ok(out)
    else if i >= |f.constants| then Err(OutOfRange)
    else
      var o :- WriteConstant(floatBits, out, f.constants[i]);
      var r := WriteConstants(floatBits, o, f, i + 1);
      assert r.Ok? ==> r.value[..|out|] == r.value[..|o|][..|out|];
      r
  }

  // ---------------------------------------------------------------------------
  // Functions

  /** `pad` bytes of 0x5F. */
  function Filler(pad: nat): (bs: seq<Byte>)
    ensures |bs| == pad && forall j :: 0 <= j < pad ==> bs[j] == 0x5F
  {
    seq(pad, _ => 0x5F)
  }

  /** The instruction loop from index `i`: `instructions.at(i)` throws once `i` passes the list. */
  function WriteInstructions(out: seq<Byte>, f: Function, i: nat): (r: Result<seq<Byte>>)
    ensures r.Ok? ==> f.instructionCount <= i || f.instructionCount <= |f.instructions|
    ensures r.Ok? ==> |r.value| == |out| + 4 * (if i <= f.instructionCount then f.instructionCount - i else 0)
    ensures r.Ok? ==> r.value[..|out|] == out
    decreases f.instructionCount - i
  {
    if i >= f.instructionCount then Ok(out)
    else if i >= |f.instructions| then Err(OutOfRange)
    else
      var o := out + U32(f.instructions[i].value);
      var r := WriteInstructions(o, f, i + 1);
      assert r.Ok? ==> r.value[..|out|] == r.value[..|o|][..|out|];
      r
  }

  /**
   * `assemble_function`: the five counts and flags, filler up to a multiple
   * of four, the instruction words, the constant count and constants, a zero
   * debug word, the sub-function count and the sub-functions.
   */
  function WriteFunction(floatBits: ByteString -> Result<nat>, out: seq<Byte>, f: Function): (r: Result<seq<Byte>>)
    ensures r.Ok? ==> |r.value| >= |out| + 33 && r.value[..|out|] == out
    decreases f, 1, 0
  {
    var o := WriteHead(out, f);
    var o :- WriteInstructions(o, f, 0);
    var o := o + U32(f.constantCount);
    var o :- WriteConstants(floatBits, o, f, 0);
    var o := o + U32(0);
    var o := o + U32(f.subFuncCount);
    var r := WriteSubFunctions(floatBits, o, f, 0);
    assert r.Ok? ==> r.value[..|out|] == r.value[..|o|][..|out|];
    r
  }

  /** The fixed part of `assemble_function` and its filler. */
  function WriteHead(out: seq<Byte>, f: Function): (o: seq<Byte>)
    ensures |o| >= |out| + 21 && |o| % 4 == 0 && o[..|out|] == out
  {
    var o := out + U32(f.upvalCount);
    var o := o + U32(f.paramCount);
    var o := o + U8(f.varargFlags);
    var o := o + U32(f.registerCount);
    var o := o + U64(f.instructionCount);
    var o' := o + Filler(IW6Disassembler.PadTo4(|o|) - |o|);
    assert o'[..|out|] == out;
    o'
  }

  /** The sub-function loop from index `i`: `sub_funcs.at(i)` throws once `i` passes the list. */
  function WriteSubFunctions(floatBits: ByteString -> Result<nat>, out: seq<Byte>, f: Function, i: nat)
    : (r: Result<seq<Byte>>)
    ensures r.Ok? ==> |r.value| >= |out| && r.value[..|out|] == out
    decreases f, 0, f.subFuncCount - i
  {
    if i >= f.subFuncCount then Ok(out)
    else if i >= |f.subFuncs| then Err(OutOfRange)
    else
      var o :- WriteFunction(floatBits, out, f.subFuncs[i]);
      var r := WriteSubFunctions(floatBits, o, f, i + 1);
      assert r.Ok? ==> r.value[..|out|] == r.value[..|o|][..|out|];
      r
  }

  /** `assemble_prototype`: the words 1, 0, 0. */
  function WritePrototype(out: seq<Byte>): (o: seq<Byte>)
    ensures |o| == |out| + 12 && o[..|out|] == out
  {
    var o := out + U32(1);
    var o := o + U32(0);
    o + U32(0)
  }

  /** `assemble(file)`: a fresh buffer, the fixed header, the main function and the prototype trailer. */
  function WriteFile(floatBits: ByteString -> Result<nat>, file: File): (r: Result<seq<Byte>>)
  {
    var o := WriteHeader([]);
    var o :- WriteFunction(floatBits, o, file.main);
    Ok(WritePrototype(o))
  }

  /** The outcome of a writing method and the buffer after it are what the layout function gives. */
  predicate Wrote(r: Outcome, s: Result<seq<Byte>>, out: seq<Byte>)
  {
    if s.Ok? then r == Pass && out == s.value else r == Fail(s.error)
  }

  /** `assembler`: the output buffer, as the bytes written so far. */
  class Assembler {
    /** `std::stof` as the 32-bit pattern of the float, or its exception. */
    const floatBits: ByteString -> Result<nat>
    var out: seq<Byte>

    constructor (floatBits: ByteString -> Result<nat>)
      ensures this.floatBits == floatBits && out == []
    {
      this.floatBits := floatBits;
      out := [];
    }

    /** `output`: the bytes up to the write position. */
    method Output() returns (o: seq<Byte>)
      ensures o == out
    {
      o := out;
    }

    /** `assemble(file)`. */
    method Assemble(file: File) returns (r: Outcome)
      modifies this`out
      ensures Wrote(r, WriteFile(floatBits, file), out)
    {
      out := [];
      AssembleHeader();
      r := AssembleFunction(file.main);
      if r.Fail? {
        return;
      }
      AssemblePrototype();
    }

    /** `write<T>` for an unsigned field of `width` bytes. */
    method Write(n: nat, width: nat)
      modifies this`out
      ensures out == old(out) + LittleEndianBytes(n, width)
    {
      out := out + LittleEndianBytes(n, width);
    }

    method WriteCString(s: ByteString)
      modifies this`out
      ensures out == old(out) + CString(s)
    {
      out := out + CString(s);
    }

    method AssembleHeader()
      modifies this`out
      ensures out == WriteHeader(old(out))
    {
      Write(SIGNATURE, 4);
      Write(0x51, 1);
      Write(0x0D, 1);
      Write(0x01, 1);
      Write(0x04, 1);
      Write(0x08, 1);
      Write(0x04, 1);
      Write(0x04, 1);
      Write(0x00, 1);
      Write(0x03, 1);
      Write(0x00, 1);
      Write(0x0D, 4);
      assert WriteHeader(old(out)) == WriteTypes(out, TYPE_TABLE, 0);
      AssembleTypes(TYPE_TABLE);
    }

    /** The type-table loop of `assemble_header`. */
    method AssembleTypes(types: seq<TypeInfo>)
      modifies this`out
      ensures out == WriteTypes(old(out), types, 0)
    {
      ghost var spec := WriteTypes(out, types, 0);
      var i := 0;
      while i < |types|
        invariant i <= |types|
        invariant spec == WriteTypes(out, types, i)
      {
        var t := types[i];
        Write(t.id, 4);
        Write(|t.name| + 1, 4);
        WriteCString(t.name);
        i := i + 1;
      }
    }

    method AssemblePrototype()
      modifies this`out
      ensures out == WritePrototype(old(out))
    {
      Write(1, 4);
      Write(0, 4);
      Write(0, 4);
    }

    method AssembleFunction(f: Function) returns (r: Outcome)
      modifies this`out
      ensures Wrote(r, WriteFunction(floatBits, old(out), f), out)
      decreases f, 1, 0
    {
      AssembleHead(f);
      r := AssembleInstructions(f);
      if r.Fail? {
        return;
      }
      Write(f.constantCount, 4);
      r := AssembleConstants(f);
      if r.Fail? {
        return;
      }
      Write(0, 4);
      Write(f.subFuncCount, 4);
      r := AssembleSubFunctions(f);
    }

    /** The fixed fields of `assemble_function` and the filler after them. */
    method AssembleHead(f: Function)
      modifies this`out
      ensures out == WriteHead(old(out), f)
    {
      Write(f.upvalCount, 4);
      Write(f.paramCount, 4);
      Write(f.varargFlags, 1);
      Write(f.registerCount, 4);
      Write(f.instructionCount, 8);
      ghost var before := out;
      var pad := 4 - |out| % 4;
      if 0 < pad < 4 {
        var i := 0;
        while i < pad
          invariant i <= pad
          invariant out == before + Filler(i)
        {
          Write(0x5F, 1);
          assert Filler(i + 1) == Filler(i) + [0x5F];
          i := i + 1;
        }
      }
      assert out == before + Filler(IW6Disassembler.PadTo4(|before|) - |before|);
    }

    /** The instruction loop of `assemble_function`. */
    method AssembleInstructions(f: Function) returns (r: Outcome)
      modifies this`out
      ensures Wrote(r, WriteInstructions(old(out), f, 0), out)
    {
      ghost var spec := WriteInstructions(out, f, 0);
      var i := 0;
      while i < f.instructionCount
        invariant spec == WriteInstructions(out, f, i)
      {
        if i >= |f.instructions| {
          return Fail(OutOfRange);
        }
        Write(f.instructions[i].value, 4);
        i := i + 1;
      }
      r := Pass;
    }

    /** The constant loop of `assemble_function`. */
    method AssembleConstants(f: Function) returns (r: Outcome)
      modifies this`out
      ensures Wrote(r, WriteConstants(floatBits, old(out), f, 0), out)
    {
      ghost var spec := WriteConstants(floatBits, out, f, 0);
      var i := 0;
      while i < f.constantCount
        invariant spec == WriteConstants(floatBits, out, f, i)
      {
        r := AssembleConstant(f, i);
        if r.Fail? {
          return;
        }
        i := i + 1;
      }
      r := Pass;
    }

    /** `assemble_constant` of entry `index`. */
    method AssembleConstant(f: Function, index: nat) returns (r: Outcome)
      modifies this`out
      ensures index >= |f.constants| ==> r == Fail(OutOfRange) && out == old(out)
      ensures index < |f.constants| ==> Wrote(r, WriteConstant(floatBits, old(out), f.constants[index]), out)
    {
      if index >= |f.constants| {
        return Fail(OutOfRange);
      }
      var k := f.constants[index];
      Write(k.dataType, 1);
      if k.dataType == TNIL {
      } else if k.dataType == TBOOLEAN {
        Write(if k.value == "true" then 1 else 0, 1);
      } else if k.dataType == TNUMBER {
        var bits := floatBits(k.value);
        if bits.Err? {
          return Fail(bits.error);
        }
        Write(bits.value, 4);
      } else if k.dataType == TSTRING {
        Write(|k.value| + 1, 8);
        WriteCString(k.value);
      } else {
        return Fail(DisassembleError("UNKNOWN CONSTANT TYPE"));
      }
      r := Pass;
    }

    /** The sub-function loop of `assemble_function`. */
    method AssembleSubFunctions(f: Function) returns (r: Outcome)
      modifies this`out
      ensures Wrote(r, WriteSubFunctions(floatBits, old(out), f, 0), out)
      decreases f, 0, f.subFuncCount
    {
      ghost var spec := WriteSubFunctions(floatBits, out, f, 0);
      var i := 0;
      while i < f.subFuncCount
        invariant spec == WriteSubFunctions(floatBits, out, f, i)
      {
        if i >= |f.subFuncs| {
          return Fail(OutOfRange);
        }
        r := AssembleFunction(f.subFuncs[i]);
        if r.Fail? {
          return;
        }
        i := i + 1;
      }
      r := Pass;
    }
  }
}
