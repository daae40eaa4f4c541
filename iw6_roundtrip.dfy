/**
 * What the C++ writer writes, the C++ reader reads back: for every function
 * record the writer can reproduce exactly (`Reassemblable`), reading from
 * where the writer started gives the same record and stops where the writer
 * stopped, whatever follows in the data. The fixed header reads back as the
 * values `assemble_header` writes, and the whole file as its main function
 * under that header.
 */
module IW6RoundTrip {

  import opened Common
  import opened Bytes
  import opened ByteReader
  import opened LuiAssembly
  import opened IW6Disassembler
  import opened IW6Assembler
  import HksOp

  // ---------------------------------------------------------------------------
  // Reading back fields

  /** Bytes written right after `out` sit at offset |out| of any data that starts with what was written. */
  lemma Window(out: seq<Byte>, x: seq<Byte>, data: seq<Byte>)
    requires out + x <= data
    ensures InBounds(data, |out|, |x|) && data[|out|..|out| + |x|] == x
  {
    assert data[..|out| + |x|] == out + x;
    assert data[|out|..|out| + |x|] == data[..|out| + |x|][|out|..];
  }

  lemma PrefixTrans(a: seq<Byte>, b: seq<Byte>, c: seq<Byte>)
    requires a <= b && b <= c
    ensures a <= c
  {
    assert c[..|a|] == c[..|b|][..|a|];
  }

  lemma TakeOneMore<T>(s: seq<T>, i: nat)
    requires i < |s|
    ensures s[..i] + [s[i]] == s[..i + 1]
  {
  }

  /** A field of `k` bytes written with value `n` reads back as `n`. */
  lemma FieldReadBack(out: seq<Byte>, n: nat, k: nat, data: seq<Byte>)
    requires n < Pow256(k) && out + LittleEndianBytes(n, k) <= data
    ensures ReadUnsigned(data, |out|, k) == Ok(Parsed(n, |out| + k))
    ensures Unsigned(data, true, |out|, k) == n
  {
    Window(out, LittleEndianBytes(n, k), data);
    LittleEndianOfBytes(n, k);
  }

  /** A u32 field reads back. */
  lemma U32ReadBack(out: seq<Byte>, n: nat, data: seq<Byte>)
    requires n < 0x1_0000_0000 && out + U32(n) <= data
    ensures ReadUnsigned(data, |out|, 4) == Ok(Parsed(n, |out| + 4))
  {
    Pow256Widths();
    FieldReadBack(out, n, 4, data);
  }

  /** A byte written with `U8` reads back. */
  lemma U8ReadBack(out: seq<Byte>, n: nat, data: seq<Byte>)
    requires n < 0x100 && out + U8(n) <= data
    ensures ReadUnsigned(data, |out|, 1) == Ok(Parsed(n, |out| + 1))
  {
    Pow256Widths();
    FieldReadBack(out, n, 1, data);
  }

  /** A 64-bit word written with `U64` reads back. */
  lemma U64ReadBack(out: seq<Byte>, n: nat, data: seq<Byte>)
    requires n < 0x1_0000_0000_0000_0000 && out + U64(n) <= data
    ensures ReadUnsigned(data, |out|, 8) == Ok(Parsed(n, |out| + 8))
  {
    Pow256Widths();
    FieldReadBack(out, n, 8, data);
  }

  /** The first NUL at or after `from` is at `k` when `k` holds one and nothing in between does. */
  lemma {:induction false} NulAt(data: seq<Byte>, from: nat, k: nat)
    requires from <= k < |data| && data[k] == 0
    requires forall j :: from <= j < k ==> data[j] != 0
    ensures NulFrom(data, from) == Some(k)
    decreases k - from
  {
    if from < k {
      NulAt(data, from + 1, k);
    }
  }

  /** A string holds no NUL character. */
  predicate NulFree(s: string)
  {
    forall j :: 0 <= j < |s| ==> s[j] != '\0'
  }

  /** A NUL-free string written with `write_c_string` reads back with `read_string`. */
  lemma CStringReadBack(out: seq<Byte>, s: ByteString, data: seq<Byte>)
    requires NulFree(s) && out + CString(s) <= data
    ensures ReadCString(data, |out|) == Ok(Parsed(s, |out| + |s| + 1))
  {
    var p := |out|;
    var c := CString(s);
    Window(out, c, data);
    forall j | p <= j < p + |s|
      ensures data[j] != 0
    {
      assert data[j] == c[j - p];
      assert c[..|s|][j - p] == c[j - p];
      assert BytesToChars(c[..|s|])[j - p] as int == c[j - p];
    }
    assert data[p + |s|] == c[|s|];
    NulAt(data, p, p + |s|);
    assert data[p..p + |s|] == c[..|s|];
  }

  // ---------------------------------------------------------------------------
  // What the writer can reproduce

  /** An instruction is exactly what the reader decodes from its 32-bit word. */
  predicate Decoded(inst: Instruction)
  {
    inst.value < 0x1_0000_0000 && DecodeInstruction(inst.value) == inst
  }

  /**
   * A constant the writer and reader agree on: nil with empty text, a boolean
   * reading "true" or "false", or a NUL-free string whose length field fits.
   */
  predicate ConstantRoundTrips(k: Constant)
  {
    || (k.dataType == TNIL && k.value == "")
    || (k.dataType == TBOOLEAN && (k.value == "true" || k.value == "false"))
    || (k.dataType == TSTRING && NulFree(k.value) && |k.value| + 1 < 0x1_0000_0000_0000_0000)
  }

  /**
   * A function record the writer reproduces exactly: every field fits its
   * width, the counts are the lengths of the lists, the debug word is 0, and
   * the same holds for every sub-function.
   */
  predicate Reassemblable(f: Function)
    decreases f
  {
    && f.upvalCount < 0x1_0000_0000 && f.paramCount < 0x1_0000_0000 && f.varargFlags < 0x100
    && f.registerCount < 0x1_0000_0000
    && f.instructionCount == |f.instructions| < 0x1_0000_0000_0000_0000
    && (forall inst :: inst in f.instructions ==> Decoded(inst))
    && f.constantCount == |f.constants| < 0x1_0000_0000
    && (forall k :: k in f.constants ==> ConstantRoundTrips(k))
    && f.debug == 0
    && f.subFuncCount == |f.subFuncs| < 0x1_0000_0000
    && (forall j :: 0 <= j < |f.subFuncs| ==> Reassemblable(f.subFuncs[j]))
  }

  // ---------------------------------------------------------------------------
  // Lists

  /** One step of the instruction list: a word that reads, then the rest. */
  lemma InstructionListStep(data: seq<Byte>, pos: int, count: nat, acc: seq<Instruction>, w: HksOp.Word)
    requires count > 0 && ReadUnsigned(data, pos, 4) == Ok(Parsed(w, pos + 4))
    ensures ParseInstructionList(data, pos, count, acc)
      == ParseInstructionList(data, pos + 4, count - 1, acc + [DecodeInstruction(w)])
  {
  }

  /** The instruction words from index `i` read back as the remaining instructions. */
  lemma {:induction false} InstructionsReadBack(out: seq<Byte>, f: Function, i: nat, data: seq<Byte>)
    requires i <= |f.instructions| == f.instructionCount
    requires forall inst :: inst in f.instructions ==> Decoded(inst)
    requires WriteInstructions(out, f, i).Ok? && WriteInstructions(out, f, i).value <= data
    ensures ParseInstructionList(data, |out|, f.instructionCount - i, f.instructions[..i])
      == Ok(Parsed(f.instructions, |WriteInstructions(out, f, i).value|))
    decreases f.instructionCount - i
  {
    if i < f.instructionCount {
      var o := InstructionsStep(out, f, i, data);
      InstructionsReadBack(o, f, i + 1, data);
      assert WriteInstructions(o, f, i + 1).value == WriteInstructions(out, f, i).value;
    } else {
      InstructionsEnd(out, f, data);
    }
  }

  /** One instruction word of the list written from index `i`, read back; `o` is the buffer after it. */
  lemma InstructionsStep(out: seq<Byte>, f: Function, i: nat, data: seq<Byte>) returns (o: seq<Byte>)
    requires i < |f.instructions| == f.instructionCount
    requires forall inst :: inst in f.instructions ==> Decoded(inst)
    requires WriteInstructions(out, f, i).Ok? && WriteInstructions(out, f, i).value <= data
    ensures WriteInstructions(o, f, i + 1) == WriteInstructions(out, f, i)
    ensures WriteInstructions(o, f, i + 1).Ok? && WriteInstructions(o, f, i + 1).value <= data
    ensures ParseInstructionList(data, |out|, f.instructionCount - i, f.instructions[..i])
      == ParseInstructionList(data, |o|, f.instructionCount - (i + 1), f.instructions[..i + 1])
  {
    var inst := f.instructions[i];
    assert Decoded(inst);
    o := out + U32(inst.value);
    assert WriteInstructions(out, f, i) == WriteInstructions(o, f, i + 1);
    PrefixTrans(o, WriteInstructions(out, f, i).value, data);
    U32ReadBack(out, inst.value, data);
    InstructionListStep(data, |out|, f.instructionCount - i, f.instructions[..i], inst.value);
    TakeOneMore(f.instructions, i);
  }

  /** Past the last instruction nothing is written and the list is complete. */
  lemma InstructionsEnd(out: seq<Byte>, f: Function, data: seq<Byte>)
    requires |f.instructions| == f.instructionCount && out <= data
    ensures WriteInstructions(out, f, f.instructionCount) == Ok(out)
    ensures ParseInstructionList(data, |out|, 0, f.instructions[..f.instructionCount]) == Ok(Parsed(f.instructions, |out|))
  {
    assert f.instructions[..f.instructionCount] == f.instructions;
  }

  lemma Pow256Widths()
    ensures Pow256(1) == 0x100 && Pow256(4) == 0x1_0000_0000 && Pow256(8) == 0x1_0000_0000_0000_0000
  {
    assert Pow256(2) == 0x1_0000;
    assert Pow256(4) == 0x1_0000_0000 by { assert Pow256(3) == 0x100_0000; }
    assert Pow256(8) == 0x1_0000_0000_0000_0000 by {
      assert Pow256(5) == 0x100_0000_0000;
      assert Pow256(6) == 0x1_0000_0000_0000;
      assert Pow256(7) == 0x100_0000_0000_0000;
    }
  }

  /** A constant the writer and reader agree on reads back as itself, ending where it was written up to. */
  lemma ConstantReadBack(floatText: seq<Byte> -> ByteString, floatBits: ByteString -> Result<nat>,
    out: seq<Byte>, k: Constant, data: seq<Byte>)
    requires ConstantRoundTrips(k)
    requires WriteConstant(floatBits, out, k).Ok? && WriteConstant(floatBits, out, k).value <= data
    ensures ParseConstant(floatText, data, |out|) == Ok(Parsed(k, |WriteConstant(floatBits, out, k).value|))
  {
    var w := WriteConstant(floatBits, out, k).value;
    var o := out + U8(k.dataType);
    PrefixTrans(o, w, data);
    U8ReadBack(out, k.dataType, data);
    if k.dataType == TBOOLEAN {
      var b := if k.value == "true" then 1 else 0;
      U8ReadBack(o, b, data);
    } else if k.dataType == TSTRING {
      var o2 := o + U64(|k.value| + 1);
      PrefixTrans(o2, w, data);
      U64ReadBack(o, |k.value| + 1, data);
      CStringReadBack(o2, k.value, data);
    }
  }

  /** One step of the constant list: a constant that reads, then the rest. */
  lemma ConstantListStep(floatText: seq<Byte> -> ByteString, data: seq<Byte>, pos: int, count: nat, acc: seq<Constant>,
    k: Constant, next: int)
    requires count > 0 && ParseConstant(floatText, data, pos) == Ok(Parsed(k, next))
    ensures ParseConstantList(floatText, data, pos, count, acc) == ParseConstantList(floatText, data, next, count - 1, acc + [k])
  {
  }

  /** One constant of the list written from index `i`, read back; `o` is the buffer after it. */
  lemma ConstantsStep(floatText: seq<Byte> -> ByteString, floatBits: ByteString -> Result<nat>,
    out: seq<Byte>, f: Function, i: nat, data: seq<Byte>) returns (o: seq<Byte>)
    requires i < |f.constants| == f.constantCount
    requires forall k :: k in f.constants ==> ConstantRoundTrips(k)
    requires WriteConstants(floatBits, out, f, i).Ok? && WriteConstants(floatBits, out, f, i).value <= data
    ensures WriteConstants(floatBits, o, f, i + 1) == WriteConstants(floatBits, out, f, i)
    ensures WriteConstants(floatBits, o, f, i + 1).Ok? && WriteConstants(floatBits, o, f, i + 1).value <= data
    ensures ParseConstantList(floatText, data, |out|, f.constantCount - i, f.constants[..i])
      == ParseConstantList(floatText, data, |o|, f.constantCount - (i + 1), f.constants[..i + 1])
  {
    var k := f.constants[i];
    assert ConstantRoundTrips(k);
    o := WriteConstant(floatBits, out, k).value;
    var w := WriteConstants(floatBits, out, f, i).value;
    assert WriteConstants(floatBits, out, f, i) == WriteConstants(floatBits, o, f, i + 1);
    PrefixTrans(o, w, data);
    ConstantReadBack(floatText, floatBits, out, k, data);
    ConstantListStep(floatText, data, |out|, f.constantCount - i, f.constants[..i], k, |o|);
    TakeOneMore(f.constants, i);
  }

  /** The constants from index `i` read back as the remaining constants. */
  lemma {:induction false} ConstantsReadBack(floatText: seq<Byte> -> ByteString, floatBits: ByteString -> Result<nat>,
    out: seq<Byte>, f: Function, i: nat, data: seq<Byte>)
    requires i <= |f.constants| == f.constantCount
    requires forall k :: k in f.constants ==> ConstantRoundTrips(k)
    requires WriteConstants(floatBits, out, f, i).Ok? && WriteConstants(floatBits, out, f, i).value <= data
    ensures ParseConstantList(floatText, data, |out|, f.constantCount - i, f.constants[..i])
      == Ok(Parsed(f.constants, |WriteConstants(floatBits, out, f, i).value|))
    decreases f.constantCount - i
  {
    if i < f.constantCount {
      var o := ConstantsStep(floatText, floatBits, out, f, i, data);
      ConstantsReadBack(floatText, floatBits, o, f, i + 1, data);
      assert WriteConstants(floatBits, o, f, i + 1).value == WriteConstants(floatBits, out, f, i).value;
    } else {
      ConstantsEnd(floatText, floatBits, out, f, data);
    }
  }

  /** Past the last constant nothing is written and the list is complete. */
  lemma ConstantsEnd(floatText: seq<Byte> -> ByteString, floatBits: ByteString -> Result<nat>,
    out: seq<Byte>, f: Function, data: seq<Byte>)
    requires |f.constants| == f.constantCount && out <= data
    ensures WriteConstants(floatBits, out, f, f.constantCount) == Ok(out)
    ensures ParseConstantList(floatText, data, |out|, 0, f.constants[..f.constantCount]) == Ok(Parsed(f.constants, |out|))
  {
    assert f.constants[..f.constantCount] == f.constants;
  }

  /** The instruction section: all of `f`'s instructions read back. */
  lemma InstructionSection(out: seq<Byte>, f: Function, data: seq<Byte>)
    requires |f.instructions| == f.instructionCount
    requires forall inst :: inst in f.instructions ==> Decoded(inst)
    requires WriteInstructions(out, f, 0).Ok? && WriteInstructions(out, f, 0).value <= data
    ensures ParseInstructionList(data, |out|, f.instructionCount, [])
      == Ok(Parsed(f.instructions, |WriteInstructions(out, f, 0).value|))
  {
    InstructionsReadBack(out, f, 0, data);
    assert f.instructions[..0] == [];
  }

  /** The constant list after its count: all of `f`'s constants read back. */
  lemma ConstantSection(floatText: seq<Byte> -> ByteString, floatBits: ByteString -> Result<nat>,
    out: seq<Byte>, f: Function, data: seq<Byte>)
    requires |f.constants| == f.constantCount
    requires forall k :: k in f.constants ==> ConstantRoundTrips(k)
    requires WriteConstants(floatBits, out, f, 0).Ok? && WriteConstants(floatBits, out, f, 0).value <= data
    ensures ParseConstantList(floatText, data, |out|, f.constantCount, [])
      == Ok(Parsed(f.constants, |WriteConstants(floatBits, out, f, 0).value|))
  {
    ConstantsReadBack(floatText, floatBits, out, f, 0, data);
    assert f.constants[..0] == [];
  }

  // ---------------------------------------------------------------------------
  // Function records

  /** A record's fixed fields with every list still empty: what the reader has after the head. */
  function HeadOnly(f: Function): (g: Function)
    ensures g.upvalCount == f.upvalCount && g.paramCount == f.paramCount && g.varargFlags == f.varargFlags
    ensures g.registerCount == f.registerCount && g.instructionCount == f.instructionCount
    ensures g.instructions == [] && g.constants == [] && g.subFuncs == []
  {
    Function(f.upvalCount, f.paramCount, f.varargFlags, f.registerCount, f.instructionCount, [], 0, [], 0, 0, [])
  }

  /** The five head fields read back, and the filler ends where the reader's padding does. */
  lemma HeadReadBack(out: seq<Byte>, f: Function, data: seq<Byte>)
    requires f.upvalCount < 0x1_0000_0000 && f.paramCount < 0x1_0000_0000 && f.varargFlags < 0x100
    requires f.registerCount < 0x1_0000_0000 && f.instructionCount < 0x1_0000_0000_0000_0000
    requires WriteHead(out, f) <= data
    ensures InBounds(data, |out|, 21) && PadTo4(|out| + 21) == |WriteHead(out, f)|
    ensures FunctionHead(data, |out|) == HeadOnly(f)
  {
    Pow256Widths();
    var h := WriteHead(out, f);
    var o1 := out + U32(f.upvalCount);
    var o2 := o1 + U32(f.paramCount);
    var o3 := o2 + U8(f.varargFlags);
    var o4 := o3 + U32(f.registerCount);
    var o5 := o4 + U64(f.instructionCount);
    assert h == o5 + Filler(PadTo4(|o5|) - |o5|);
    PrefixTrans(o5, h, data);
    PrefixTrans(o4, o5, data);
    PrefixTrans(o3, o4, data);
    PrefixTrans(o2, o3, data);
    PrefixTrans(o1, o2, data);
    FieldReadBack(out, f.upvalCount, 4, data);
    FieldReadBack(o1, f.paramCount, 4, data);
    FieldReadBack(o2, f.varargFlags, 1, data);
    FieldReadBack(o3, f.registerCount, 4, data);
    FieldReadBack(o4, f.instructionCount, 8, data);
  }

  /**
   * Round trip of one record: whatever the writer writes for a record it can
   * reproduce, the reader reads back from where writing started as the same
   * record, and stops where writing stopped.
   */
  lemma {:induction false} FunctionReadBack(floatText: seq<Byte> -> ByteString, floatBits: ByteString -> Result<nat>,
    out: seq<Byte>, f: Function, data: seq<Byte>)
    requires Reassemblable(f)
    requires WriteFunction(floatBits, out, f).Ok? && WriteFunction(floatBits, out, f).value <= data
    ensures ParseFunction(floatText, data, |out|) == Ok(Parsed(f, |WriteFunction(floatBits, out, f).value|))
    decreases f, 2
  {
    BodyReadBack(floatText, floatBits, out, f, data);
    HeadReadBack(out, f, data);
  }

  /** The buffers `WriteFunction` passes through: after the head, the instructions, the constants and the two counts. */
  lemma WriteFunctionParts(floatBits: ByteString -> Result<nat>, out: seq<Byte>, f: Function)
    returns (h: seq<Byte>, i1: seq<Byte>, c1: seq<Byte>, s0: seq<Byte>)
    requires WriteFunction(floatBits, out, f).Ok?
    ensures h == WriteHead(out, f)
    ensures WriteInstructions(h, f, 0) == Ok(i1)
    ensures WriteConstants(floatBits, i1 + U32(f.constantCount), f, 0) == Ok(c1)
    ensures s0 == c1 + U32(0) + U32(f.subFuncCount)
    ensures WriteSubFunctions(floatBits, s0, f, 0) == WriteFunction(floatBits, out, f)
  {
    h := WriteHead(out, f);
    i1 := WriteInstructions(h, f, 0).value;
    c1 := WriteConstants(floatBits, i1 + U32(f.constantCount), f, 0).value;
    s0 := c1 + U32(0) + U32(f.subFuncCount);
  }

  /** `ParseFunctionBody` from the results of its four sections. */
  lemma BodyOfParts(floatText: seq<Byte> -> ByteString, data: seq<Byte>, pos: int, g: Function,
    insts: seq<Instruction>, n1: int, m1: int, count: nat, consts: seq<Constant>, n2: int, m2: int,
    subCount: nat, m3: int, subs: seq<Function>, n3: int)
    requires 0 <= pos <= |data| && n1 >= 0 && m1 == n1 + 4 && m2 == n2 + 4 && m3 == m2 + 4
    requires ParseInstructionList(data, pos, g.instructionCount, []) == Ok(Parsed(insts, n1))
    requires ReadUnsigned(data, n1, 4) == Ok(Parsed(count, m1))
    requires ParseConstantList(floatText, data, m1, count, []) == Ok(Parsed(consts, n2))
    requires ReadUnsigned(data, n2, 4) == Ok(Parsed(0, m2))
    requires ReadUnsigned(data, m2, 4) == Ok(Parsed(subCount, m3))
    requires ParseFunctionList(floatText, data, m3, subCount, []) == Ok(Parsed(subs, n3))
    ensures ParseFunctionBody(floatText, data, pos, g) == Ok(Parsed(g.(instructions := insts,
      constantCount := |consts|, constants := consts, debug := 0, subFuncCount := |subs|, subFuncs := subs), n3))
  {
    assert ParseConstants(floatText, data, n1) == Ok(Parsed(consts, n2));
    assert ParseSubFunctions(floatText, data, n2 + 4) == Ok(Parsed(subs, n3));
  }

  /** The instructions, constants, debug word and sub-functions after the head read back. */
  lemma {:induction false} BodyReadBack(floatText: seq<Byte> -> ByteString, floatBits: ByteString -> Result<nat>,
    out: seq<Byte>, f: Function, data: seq<Byte>)
    requires Reassemblable(f)
    requires WriteFunction(floatBits, out, f).Ok? && WriteFunction(floatBits, out, f).value <= data
    ensures WriteHead(out, f) <= data
    ensures ParseFunctionBody(floatText, data, |WriteHead(out, f)|, HeadOnly(f))
      == Ok(Parsed(f, |WriteFunction(floatBits, out, f).value|))
    decreases f, 1
  {
    var w := WriteFunction(floatBits, out, f).value;
    var h, i1, c1, s0 := WriteFunctionParts(floatBits, out, f);
    var c0 := i1 + U32(f.constantCount);
    var d := c1 + U32(0);
    assert s0 == d + U32(f.subFuncCount);
    assert |c0| == |i1| + 4 && |d| == |c1| + 4 && |s0| == |d| + 4;
    PrefixTrans(s0, w, data);
    PrefixTrans(d, s0, data);
    PrefixTrans(c1, d, data);
    PrefixTrans(c0, c1, data);
    PrefixTrans(i1, c0, data);
    PrefixTrans(h, i1, data);
    InstructionSection(h, f, data);
    U32ReadBack(i1, f.constantCount, data);
    ConstantSection(floatText, floatBits, c0, f, data);
    U32ReadBack(c1, 0, data);
    U32ReadBack(d, f.subFuncCount, data);
    SubFunctionSection(floatText, floatBits, s0, f, data);
    BodyOfParts(floatText, data, |h|, HeadOnly(f), f.instructions, |i1|, |c0|, f.constantCount, f.constants, |c1|,
      |d|, f.subFuncCount, |s0|, f.subFuncs, |w|);
  }

  /** The sub-function section after its count: all of `f`'s sub-functions read back. */
  lemma SubFunctionSection(floatText: seq<Byte> -> ByteString, floatBits: ByteString -> Result<nat>,
    out: seq<Byte>, f: Function, data: seq<Byte>)
    requires f.subFuncCount == |f.subFuncs| && forall j :: 0 <= j < |f.subFuncs| ==> Reassemblable(f.subFuncs[j])
    requires WriteSubFunctions(floatBits, out, f, 0).Ok? && WriteSubFunctions(floatBits, out, f, 0).value <= data
    ensures |out| <= |data|
    ensures ParseFunctionList(floatText, data, |out|, f.subFuncCount, [])
      == Ok(Parsed(f.subFuncs, |WriteSubFunctions(floatBits, out, f, 0).value|))
    decreases f, 0, f.subFuncCount + 1
  {
    SubFunctionsReadBack(floatText, floatBits, out, f, 0, data);
    assert f.subFuncs[..0] == [];
  }

  /** The sub-function records from index `i` read back as the remaining sub-functions. */
  lemma {:induction false} SubFunctionsReadBack(floatText: seq<Byte> -> ByteString, floatBits: ByteString -> Result<nat>,
    out: seq<Byte>, f: Function, i: nat, data: seq<Byte>)
    requires i <= f.subFuncCount == |f.subFuncs| && forall j :: 0 <= j < |f.subFuncs| ==> Reassemblable(f.subFuncs[j])
    requires WriteSubFunctions(floatBits, out, f, i).Ok? && WriteSubFunctions(floatBits, out, f, i).value <= data
    ensures |out| <= |data|
    ensures ParseFunctionList(floatText, data, |out|, f.subFuncCount - i, f.subFuncs[..i])
      == Ok(Parsed(f.subFuncs, |WriteSubFunctions(floatBits, out, f, i).value|))
    decreases f, 0, f.subFuncCount - i, 1
  {
    if i < f.subFuncCount {
      var o := SubFunctionsStep(floatText, floatBits, out, f, i, data);
      SubFunctionsReadBack(floatText, floatBits, o, f, i + 1, data);
    } else {
      SubFunctionsEnd(floatText, floatBits, out, f, data);
    }
  }

  /** Past the last sub-function nothing is written and the list is complete. */
  lemma SubFunctionsEnd(floatText: seq<Byte> -> ByteString, floatBits: ByteString -> Result<nat>,
    out: seq<Byte>, f: Function, data: seq<Byte>)
    requires f.subFuncCount == |f.subFuncs| && out <= data
    ensures WriteSubFunctions(floatBits, out, f, f.subFuncCount) == Ok(out)
    ensures ParseFunctionList(floatText, data, |out|, 0, f.subFuncs[..f.subFuncCount]) == Ok(Parsed(f.subFuncs, |out|))
  {
    assert f.subFuncs[..f.subFuncCount] == f.subFuncs;
  }

  /** One sub-function of the list written from index `i`, read back; `o` is the buffer after it. */
  lemma SubFunctionsStep(floatText: seq<Byte> -> ByteString, floatBits: ByteString -> Result<nat>,
    out: seq<Byte>, f: Function, i: nat, data: seq<Byte>) returns (o: seq<Byte>)
    requires i < f.subFuncCount == |f.subFuncs| && forall j :: 0 <= j < |f.subFuncs| ==> Reassemblable(f.subFuncs[j])
    requires WriteSubFunctions(floatBits, out, f, i).Ok? && WriteSubFunctions(floatBits, out, f, i).value <= data
    ensures WriteFunction(floatBits, out, f.subFuncs[i]).Ok? && o == WriteFunction(floatBits, out, f.subFuncs[i]).value
    ensures |out| <= |o| <= |data|
    ensures WriteSubFunctions(floatBits, o, f, i + 1) == WriteSubFunctions(floatBits, out, f, i)
    ensures ParseFunctionList(floatText, data, |out|, f.subFuncCount - i, f.subFuncs[..i])
      == ParseFunctionList(floatText, data, |o|, f.subFuncCount - (i + 1), f.subFuncs[..i + 1])
    decreases f, 0, f.subFuncCount - i, 0
  {
    var w := WriteSubFunctions(floatBits, out, f, i).value;
    var g := f.subFuncs[i];
    assert Reassemblable(g);
    o := WriteFunction(floatBits, out, g).value;
    assert WriteSubFunctions(floatBits, o, f, i + 1) == WriteSubFunctions(floatBits, out, f, i);
    PrefixTrans(o, w, data);
    FunctionReadBack(floatText, floatBits, out, g, data);
    FunctionListStep(floatText, data, |out|, f.subFuncCount - i, f.subFuncs[..i]);
    TakeOneMore(f.subFuncs, i);
  }

  // ---------------------------------------------------------------------------
  // Header and file

  /** A type-table entry the writer and reader agree on: a NUL-free name and fields that fit 32 bits. */
  predicate TypeRoundTrips(t: TypeInfo)
  {
    t.id < 0x1_0000_0000 && |t.name| + 1 < 0x1_0000_0000 && NulFree(t.name)
  }

  /** Every entry of a type table is one the writer and reader agree on. */
  predicate AllTypesRoundTrip(types: seq<TypeInfo>)
  {
    forall j :: 0 <= j < |types| ==> TypeRoundTrips(types[j])
  }

  /** The header every assembled file carries, as the reader sees it. */
  const WRITTEN_HEADER: Header := Header(SIGNATURE, 0x51, 0x0D, 0x01, 0x04, 0x08, 0x04, 0x04, 0x00, 0x03, 0x00, 13, TYPE_TABLE)

  /** One type-table entry read back. */
  lemma TypeReadBack(out: seq<Byte>, t: TypeInfo, data: seq<Byte>)
    requires TypeRoundTrips(t)
    requires out + U32(t.id) + U32(|t.name| + 1) + CString(t.name) <= data
    ensures ParseTypeInfo(data, |out|) == Ok(Parsed(t, |out| + 8 + |t.name| + 1))
  {
    var o1 := out + U32(t.id);
    var o2 := o1 + U32(|t.name| + 1);
    var o3 := o2 + CString(t.name);
    PrefixTrans(o2, o3, data);
    PrefixTrans(o1, o2, data);
    U32ReadBack(out, t.id, data);
    FieldReadBack(out, t.id, 4, data);
    CStringReadBack(o2, t.name, data);
  }

  /** One type-table entry of the list written from index `i`, read back; `o` is the buffer after it. */
  lemma TypesStep(out: seq<Byte>, types: seq<TypeInfo>, i: nat, data: seq<Byte>) returns (o: seq<Byte>)
    requires i < |types| && AllTypesRoundTrip(types)
    requires WriteTypes(out, types, i) <= data
    ensures o == out + U32(types[i].id) + U32(|types[i].name| + 1) + CString(types[i].name)
    ensures WriteTypes(o, types, i + 1) == WriteTypes(out, types, i) && WriteTypes(o, types, i + 1) <= data
    ensures ParseTypeInfoList(data, |out|, |types| - i, types[..i])
      == ParseTypeInfoList(data, |o|, |types| - (i + 1), types[..i + 1])
  {
    var t := types[i];
    assert TypeRoundTrips(t);
    o := out + U32(t.id) + U32(|t.name| + 1) + CString(t.name);
    assert WriteTypes(out, types, i) == WriteTypes(o, types, i + 1);
    PrefixTrans(o, WriteTypes(out, types, i), data);
    TypeReadBack(out, t, data);
    TypeListStep(data, |out|, |types| - i, types[..i], t, |o|);
    TakeOneMore(types, i);
  }

  /** One step of the type-table list: an entry that reads, then the rest. */
  lemma TypeListStep(data: seq<Byte>, pos: int, count: nat, acc: seq<TypeInfo>, t: TypeInfo, next: int)
    requires count > 0 && ParseTypeInfo(data, pos) == Ok(Parsed(t, next))
    ensures ParseTypeInfoList(data, pos, count, acc) == ParseTypeInfoList(data, next, count - 1, acc + [t])
  {
  }

  /** The type-table entries from index `i` read back as the remaining entries. */
  lemma {:induction false} TypesReadBack(out: seq<Byte>, types: seq<TypeInfo>, i: nat, data: seq<Byte>)
    requires i <= |types| && AllTypesRoundTrip(types)
    requires WriteTypes(out, types, i) <= data
    ensures ParseTypeInfoList(data, |out|, |types| - i, types[..i]) == Ok(Parsed(types, |WriteTypes(out, types, i)|))
    decreases |types| - i
  {
    if i < |types| {
      var o := TypesStep(out, types, i, data);
      TypesReadBack(o, types, i + 1, data);
    } else {
      TypesEnd(out, types, data);
    }
  }

  /** Past the last entry nothing is written and the table is complete. */
  lemma TypesEnd(out: seq<Byte>, types: seq<TypeInfo>, data: seq<Byte>)
    requires out <= data
    ensures WriteTypes(out, types, |types|) == out
    ensures ParseTypeInfoList(data, |out|, 0, types[..|types|]) == Ok(Parsed(types, |out|))
  {
    assert types[..|types|] == types;
  }

  /** The whole type table read back. */
  lemma TypeSection(out: seq<Byte>, types: seq<TypeInfo>, data: seq<Byte>)
    requires AllTypesRoundTrip(types)
    requires WriteTypes(out, types, 0) <= data
    ensures ParseTypeInfoList(data, |out|, |types|, []) == Ok(Parsed(types, |WriteTypes(out, types, 0)|))
  {
    TypesReadBack(out, types, 0, data);
    assert types[..0] == [];
  }

  lemma TypeTableRoundTrips()
    ensures AllTypesRoundTrip(TYPE_TABLE)
  {
    forall i | 0 <= i < |TYPE_TABLE|
      ensures TypeRoundTrips(TYPE_TABLE[i])
    {
      var name := TYPE_TABLE[i].name;
      forall j | 0 <= j < |name|
        ensures name[j] != '\0'
      {
        assert '0' <= name[j] <= 'Z';
      }
    }
  }

  /** A single byte written with `U8` reads back. */
  lemma ByteReadBack(out: seq<Byte>, b: nat, data: seq<Byte>)
    requires b < 0x100 && out + U8(b) <= data
    ensures InBounds(data, |out|, 1) && data[|out|] == b
  {
    Window(out, U8(b), data);
  }

  /** The 18 fixed bytes of the header read back, wherever the header starts. */
  lemma HeaderFieldsReadBack(out: seq<Byte>, data: seq<Byte>) returns (o: seq<Byte>)
    requires WriteHeader(out) <= data
    ensures InBounds(data, |out|, 18)
    ensures Unsigned(data, true, |out|, 4) == SIGNATURE && Unsigned(data, true, |out| + 14, 4) == 13
    ensures data[|out| + 4] == 0x51 && data[|out| + 5] == 0x0D && data[|out| + 6] == 0x01 && data[|out| + 7] == 0x04
    ensures data[|out| + 8] == 0x08 && data[|out| + 9] == 0x04 && data[|out| + 10] == 0x04 && data[|out| + 11] == 0x00
    ensures data[|out| + 12] == 0x03 && data[|out| + 13] == 0x00
    ensures |o| == |out| + 18 && WriteHeader(out) == WriteTypes(o, TYPE_TABLE, 0)
  {
    var o1 := out + U32(SIGNATURE);
    var o2 := o1 + U8(0x51);
    var o3 := o2 + U8(0x0D);
    var o4 := o3 + U8(0x01);
    var o5 := o4 + U8(0x04);
    var o6 := o5 + U8(0x08);
    var o7 := o6 + U8(0x04);
    var o8 := o7 + U8(0x04);
    var o9 := o8 + U8(0x00);
    var o10 := o9 + U8(0x03);
    var o11 := o10 + U8(0x00);
    var o12 := o11 + U32(0x0D);
    assert WriteHeader(out) == WriteTypes(o12, TYPE_TABLE, 0);
    PrefixTrans(o12, WriteHeader(out), data);
    PrefixTrans(o11, o12, data);
    PrefixTrans(o10, o11, data);
    PrefixTrans(o9, o10, data);
    PrefixTrans(o8, o9, data);
    PrefixTrans(o7, o8, data);
    PrefixTrans(o6, o7, data);
    PrefixTrans(o5, o6, data);
    PrefixTrans(o4, o5, data);
    PrefixTrans(o3, o4, data);
    PrefixTrans(o2, o3, data);
    PrefixTrans(o1, o2, data);
    FieldReadBack(out, SIGNATURE, 4, data);
    ByteReadBack(o1, 0x51, data);
    ByteReadBack(o2, 0x0D, data);
    ByteReadBack(o3, 0x01, data);
    ByteReadBack(o4, 0x04, data);
    ByteReadBack(o5, 0x08, data);
    ByteReadBack(o6, 0x04, data);
    ByteReadBack(o7, 0x04, data);
    ByteReadBack(o8, 0x00, data);
    ByteReadBack(o9, 0x03, data);
    ByteReadBack(o10, 0x00, data);
    FieldReadBack(o11, 0x0D, 4, data);
    o := o12;
  }

  /**
   * The header the writer puts first reads back as `WRITTEN_HEADER`: format
   * 13, size_t of 8 bytes and the 13 type-table entries in order.
   */
  lemma HeaderReadBack(out: seq<Byte>, data: seq<Byte>)
    requires WriteHeader(out) <= data
    ensures ParseHeader(data, |out|) == Ok(Parsed(WRITTEN_HEADER, |WriteHeader(out)|))
  {
    var o := HeaderFieldsReadBack(out, data);
    TypeTableRoundTrips();
    TypeSection(o, TYPE_TABLE, data);
  }

  // ---------------------------------------------------------------------------
  // The writer does not fail on what it can reproduce

  lemma {:induction false} InstructionsWritten(out: seq<Byte>, f: Function, i: nat)
    requires i <= f.instructionCount == |f.instructions|
    ensures WriteInstructions(out, f, i).Ok?
    decreases f.instructionCount - i
  {
    if i < f.instructionCount {
      InstructionsWritten(out + U32(f.instructions[i].value), f, i + 1);
    }
  }

  lemma {:induction false} ConstantsWritten(floatBits: ByteString -> Result<nat>, out: seq<Byte>, f: Function, i: nat)
    requires i <= f.constantCount == |f.constants|
    requires forall k :: k in f.constants ==> ConstantRoundTrips(k)
    ensures WriteConstants(floatBits, out, f, i).Ok?
    decreases f.constantCount - i
  {
    if i < f.constantCount {
      var k := f.constants[i];
      assert ConstantRoundTrips(k);
      ConstantsWritten(floatBits, WriteConstant(floatBits, out, k).value, f, i + 1);
    }
  }

  /** `assemble_function` succeeds on every record it can reproduce, whatever was written before it. */
  lemma {:induction false} FunctionWritten(floatBits: ByteString -> Result<nat>, out: seq<Byte>, f: Function)
    requires Reassemblable(f)
    ensures WriteFunction(floatBits, out, f).Ok?
    decreases f, 1
  {
    var h := WriteHead(out, f);
    InstructionsWritten(h, f, 0);
    var c0 := WriteInstructions(h, f, 0).value + U32(f.constantCount);
    ConstantsWritten(floatBits, c0, f, 0);
    var s0 := WriteConstants(floatBits, c0, f, 0).value + U32(0) + U32(f.subFuncCount);
    SubFunctionsWritten(floatBits, s0, f, 0);
  }

  lemma {:induction false} SubFunctionsWritten(floatBits: ByteString -> Result<nat>, out: seq<Byte>, f: Function, i: nat)
    requires i <= f.subFuncCount == |f.subFuncs| && forall j :: 0 <= j < |f.subFuncs| ==> Reassemblable(f.subFuncs[j])
    ensures WriteSubFunctions(floatBits, out, f, i).Ok?
    decreases f, 0, f.subFuncCount - i
  {
    if i < f.subFuncCount {
      var g := f.subFuncs[i];
      assert Reassemblable(g);
      FunctionWritten(floatBits, out, g);
      SubFunctionsWritten(floatBits, WriteFunction(floatBits, out, g).value, f, i + 1);
    }
  }

  /**
   * Round trip of a whole file: the writer succeeds, and the reader gives
   * back the main function the writer was handed, under the fixed header the
   * writer always writes.
   */
  lemma FileRoundTrip(floatText: seq<Byte> -> ByteString, floatBits: ByteString -> Result<nat>, file: File)
    requires Reassemblable(file.main)
    ensures WriteFile(floatBits, file).Ok?
    ensures ParseFile(floatText, WriteFile(floatBits, file).value) == Ok(File(WRITTEN_HEADER, file.main))
  {
    var h := WriteHeader([]);
    FunctionWritten(floatBits, h, file.main);
    var o := WriteFunction(floatBits, h, file.main).value;
    var data := WriteFile(floatBits, file).value;
    assert data == WritePrototype(o);
    PrefixTrans(h, o, data);
    HeaderReadBack([], data);
    FunctionReadBack(floatText, floatBits, h, file.main, data);
  }
}
