/**
 * The raw listing of a decoded bytecode file (src/LuiTool/HavokScript/Source.cs):
 * a block of header directives, then each function's directives, constants
 * and instructions, with the closures after their parent.
 *
 * The texts are first given as functions of the decoded file; the `Source`
 * class then appends to its buffer step by step as the source does, and each
 * method is proved to append exactly the corresponding text.
 */
module HksSource {

  import opened Common
  import opened Bytes
  import opened HksAssembly

  /**
   * Texts that come from code outside this model: the lower-cased names of
   * the endianness and number-type enumerations, the opcode mnemonics, and
   * the text of a floating-point number.
   */
  datatype Names = Names(
    endianness: nat -> string,
    numberType: nat -> string,
    opcode: nat -> string,
    float: seq<Byte> -> string)

  /** One directive line: ".name value". */
  function Directive(name: string, value: string): string
  {
    "." + name + " " + value + "\n"
  }

  function FormatName(f: Format): string
  {
    match f
    case V13 => "V13"
    case V14 => "V14"
  }

  /** The nine header directives, then a blank line. */
  function HeaderText(h: Header, names: Names): string
  {
    Directive("format", FormatName(h.format))
    + Directive("endianness", names.endianness(h.endianness))
    + Directive("int_size", Decimal(h.sizeofInt))
    + Directive("size_t_size", Decimal(h.sizeofSizeT))
    + Directive("instruction_size", Decimal(h.sizeofInstruction))
    + Directive("number_size", Decimal(h.sizeofNumber))
    + Directive("number_type", names.numberType(h.integralFlag))
    + Directive("build_flags", Decimal(h.buildFlags))
    + Directive("referenced_mode", Decimal(h.referencedMode))
    + "\n"
  }

  /** A directive whose name and value hold no line break is exactly one line. */
  lemma DirectiveIsOneLine(name: string, value: string)
    requires forall i :: 0 <= i < |name| ==> name[i] != '\n'
    requires Count(value, '\n') == 0
    ensures Count(Directive(name, value), '\n') == 1
  {
    CountAbsent(name, '\n');
    CountAppend("." + name + " ", value, '\n');
    CountAppend("." + name, " ", '\n');
    CountAppend(".", name, '\n');
    CountAppend("." + name + " " + value, "\n", '\n');
  }

  /** The header text ends in an empty line, which separates it from the first function. */
  lemma HeaderEndsBlank(h: Header, names: Names)
    ensures var t := HeaderText(h, names); |t| >= 2 && t[|t| - 2..] == "\n\n"
  {
    var t := HeaderText(h, names);
    var d9 := Directive("referenced_mode", Decimal(h.referencedMode));
    assert t[|t| - 2] == d9[|d9| - 1];
  }

  /**
   * The header text is nine lines and a blank line: exactly ten line breaks,
   * provided the two enumeration names hold no line break.
   */
  lemma HeaderShape(h: Header, names: Names)
    requires Count(names.endianness(h.endianness), '\n') == 0
    requires Count(names.numberType(h.integralFlag), '\n') == 0
    ensures Count(HeaderText(h, names), '\n') == 10
  {
    CountAbsent(FormatName(h.format), '\n');
    DirectiveIsOneLine("format", FormatName(h.format));
    DirectiveIsOneLine("endianness", names.endianness(h.endianness));
    DecimalLine("int_size", h.sizeofInt);
    DecimalLine("size_t_size", h.sizeofSizeT);
    DecimalLine("instruction_size", h.sizeofInstruction);
    DecimalLine("number_size", h.sizeofNumber);
    DirectiveIsOneLine("number_type", names.numberType(h.integralFlag));
    DecimalLine("build_flags", h.buildFlags);
    DecimalLine("referenced_mode", h.referencedMode);
    NineLines(
      Directive("format", FormatName(h.format)),
      Directive("endianness", names.endianness(h.endianness)),
      Directive("int_size", Decimal(h.sizeofInt)),
      Directive("size_t_size", Decimal(h.sizeofSizeT)),
      Directive("instruction_size", Decimal(h.sizeofInstruction)),
      Directive("number_size", Decimal(h.sizeofNumber)),
      Directive("number_type", names.numberType(h.integralFlag)),
      Directive("build_flags", Decimal(h.buildFlags)),
      Directive("referenced_mode", Decimal(h.referencedMode)));
  }

  /** Nine one-line texts and a line break make ten line breaks. */
  lemma NineLines(d1: string, d2: string, d3: string, d4: string, d5: string, d6: string, d7: string, d8: string, d9: string)
    requires Count(d1, '\n') == 1 && Count(d2, '\n') == 1 && Count(d3, '\n') == 1
    requires Count(d4, '\n') == 1 && Count(d5, '\n') == 1 && Count(d6, '\n') == 1
    requires Count(d7, '\n') == 1 && Count(d8, '\n') == 1 && Count(d9, '\n') == 1
    ensures Count(d1 + d2 + d3 + d4 + d5 + d6 + d7 + d8 + d9 + "\n", '\n') == 10
  {
    CountAppend(d1, d2, '\n');
    CountAppend(d1 + d2, d3, '\n');
    CountAppend(d1 + d2 + d3, d4, '\n');
    CountAppend(d1 + d2 + d3 + d4, d5, '\n');
    CountAppend(d1 + d2 + d3 + d4 + d5, d6, '\n');
    CountAppend(d1 + d2 + d3 + d4 + d5 + d6, d7, '\n');
    CountAppend(d1 + d2 + d3 + d4 + d5 + d6 + d7, d8, '\n');
    CountAppend(d1 + d2 + d3 + d4 + d5 + d6 + d7 + d8, d9, '\n');
    CountAppend(d1 + d2 + d3 + d4 + d5 + d6 + d7 + d8 + d9, "\n", '\n');
  }

  /** A directive with a decimal value and a name free of line breaks is one line. */
  lemma DecimalLine(name: string, n: nat)
    requires forall i :: 0 <= i < |name| ==> name[i] != '\n'
    ensures Count(Directive(name, Decimal(n)), '\n') == 1
  {
    DecimalHasNo(n, '\n');
    DirectiveIsOneLine(name, Decimal(n));
  }

  // ---------------------------------------------------------------------------
  // Functions

  /** `{0:X8}` of the 32-bit address: exactly eight upper-case hexadecimal digits. */
  function Label(address: int): string
  {
    "_id_" + HexFixed(address % 0x1_0000_0000, 8)
  }

  /** The label is "_id_" and eight digits that read back as the address modulo 2^32. */
  lemma LabelReadsBack(address: int)
    ensures |Label(address)| == 12 && Label(address)[..4] == "_id_"
    ensures HexDigitsValue(Label(address)[4..]) == address % 0x1_0000_0000
  {
    var n := address % 0x1_0000_0000;
    assert Label(address)[4..] == HexFixed(n, 8);
    HexFixedValue(n, 8);
    assert Pow16(8) == 0x1_0000_0000 by {
      assert Pow16(4) == 0x1_0000;
      assert Pow16(8) == 16 * 16 * 16 * 16 * Pow16(4);
    }
    assert n % 0x1_0000_0000 == n;
  }

  /** The C# text of a boxed constant value. A null value concatenates as "". */
  function ValueText(v: ConstValue, names: Names): string
  {
    match v
    case NilValue => ""
    case ByteValue(b) => Decimal(b)
    case SizeValue(n) => Decimal(n)
    case FloatBytes(bs) => names.float(bs)
    case IntValue(i) => SignedDecimal(i)
    case StringValue(s) => s
    case UI64Value(n) => Decimal(n)
  }

  /** The value column of a `.constant` line. */
  function ConstantText(c: Constant, names: Names): (t: string)
    ensures c.tag == TNIL ==> t == "nil"
    ensures c.tag == TSTRING && c.value.StringValue? ==>
      |t| == |c.value.s| + 2 && t[0] == '"' && t[|t| - 1] == '"' && t[1..|t| - 1] == c.value.s
    ensures c.tag == TBOOLEAN && c.value.ByteValue? ==> (t == "false" <==> c.value.b == 0) && (t == "true" <==> c.value.b != 0)
  {
    if c.tag == TNIL then "nil"
    else if c.tag == TSTRING then "\"" + ValueText(c.value, names) + "\""
    else if c.tag == TBOOLEAN then (if c.value.ByteValue? && c.value.b == 0 then "false" else "true")
    else if c.tag == TNUMBER then ValueText(c.value, names)
    else TypeName(c.tag) + "(" + ValueText(c.value, names) + ")"
  }

  function ConstantLine(c: Constant, index: nat, names: Names): string
  {
    ".constant " + ConstantText(c, names) + " ; " + Decimal(index) + "\n"
  }

  /** The constant lines of `cs`, numbered from 0. */
  function ConstantsText(cs: seq<Constant>, names: Names): string
  {
    if |cs| == 0 then "" else ConstantsText(cs[..|cs| - 1], names) + ConstantLine(cs[|cs| - 1], |cs| - 1, names)
  }

  /** `K(v)` for a constant operand, `R(v)` for a register, the bare number otherwise. */
  function OperandText(a: OpArg): string
  {
    match a.mode
    case CONST => "K(" + SignedDecimal(a.value) + ")"
    case REG => "R(" + SignedDecimal(a.value) + ")"
    case NUMBER => SignedDecimal(a.value)
  }

  /** Reads an operand back from its text. */
  function ReadOperand(t: string): OpArg
  {
    if |t| >= 3 && t[0] == 'K' && t[1] == '(' then OpArg(CONST, SignedValue(t[2..|t| - 1]))
    else if |t| >= 3 && t[0] == 'R' && t[1] == '(' then OpArg(REG, SignedValue(t[2..|t| - 1]))
    else OpArg(NUMBER, SignedValue(t))
  }

  /** The operand text determines the operand: its mode and its value read back. */
  lemma OperandReadsBack(a: OpArg)
    ensures ReadOperand(OperandText(a)) == a
  {
    SignedDecimalValue(a.value);
    var d := SignedDecimal(a.value);
    match a.mode
    case CONST => assert OperandText(a)[2..|OperandText(a)| - 1] == d;
    case REG => assert OperandText(a)[2..|OperandText(a)| - 1] == d;
    case NUMBER =>
      assert d[0] == '-' || IsDigit(d[0]) by {
        if a.value >= 0 {
          assert d == Decimal(a.value);
        }
      }
  }

  /** Operand text holds neither a comma nor a line break. */
  lemma OperandTextHasNo(a: OpArg, c: char)
    requires c == ',' || c == '\n'
    ensures Count(OperandText(a), c) == 0
  {
    SignedDecimalChars(a.value);
    var t := OperandText(a);
    assert forall k :: 0 <= k < |t| ==> t[k] != c by {
      var d := SignedDecimal(a.value);
      if a.mode != NUMBER {
        assert t == [t[0], '('] + d + [')'];
      }
    }
    CountAbsent(t, c);
  }

  function OperandTexts(args: seq<OpArg>): (ts: seq<string>)
    ensures |ts| == |args| && forall j :: 0 <= j < |args| ==> ts[j] == OperandText(args[j])
  {
    seq(|args|, j requires 0 <= j < |args| => OperandText(args[j]))
  }

  /** The mnemonic, a space, the operands separated by ", ", and a line break. */
  function InstructionLine(inst: Instruction, names: Names): string
  {
    names.opcode(inst.code) + " " + Join(OperandTexts(inst.args), ", ") + "\n"
  }

  /**
   * An instruction is one line whose commas separate its operands: one comma
   * fewer than there are operands, when the mnemonic holds no comma or line break.
   */
  lemma InstructionLineShape(inst: Instruction, names: Names)
    requires Count(names.opcode(inst.code), '\n') == 0 && Count(names.opcode(inst.code), ',') == 0
    ensures Count(InstructionLine(inst, names), '\n') == 1
    ensures Count(InstructionLine(inst, names), ',') == if |inst.args| == 0 then 0 else |inst.args| - 1
  {
    var m := names.opcode(inst.code);
    var ts := OperandTexts(inst.args);
    forall c | c == ',' || c == '\n'
      ensures Count(Join(ts, ", "), c) == (if |ts| == 0 then 0 else (|ts| - 1) * Count(", ", c))
    {
      forall j | 0 <= j < |ts|
        ensures Count(ts[j], c) == 0
      {
        OperandTextHasNo(inst.args[j], c);
      }
      if |ts| >= 1 {
        JoinCount(ts, ", ", c);
      }
    }
    assert Count(", ", ',') == 1 && Count(", ", '\n') == 0;
    forall c | c == ',' || c == '\n'
      ensures Count(InstructionLine(inst, names), c) == Count(m, c) + Count(Join(ts, ", "), c) + Count("\n", c)
    {
      CountAppend(m, " ", c);
      CountAppend(m + " ", Join(ts, ", "), c);
      CountAppend(m + " " + Join(ts, ", "), "\n", c);
    }
  }

  function InstructionsText(insts: seq<Instruction>, names: Names): string
  {
    if |insts| == 0 then "" else InstructionsText(insts[..|insts| - 1], names) + InstructionLine(insts[|insts| - 1], names)
  }

  /** The directive lines that open a function's listing. */
  function FunctionHead(f: Function): string
  {
    Directive("function", Label(f.address))
    + Directive("upval_count", Decimal(f.upvalCount))
    + Directive("param_count", Decimal(f.paramCount))
    + Directive("varg_flags", Decimal(f.varArgFlags))
    + Directive("reg_count", Decimal(f.regCount))
    + Directive("instr_count", Decimal(|f.instructions|))
    + Directive("const_count", Decimal(|f.constants|))
    + Directive("func_count", Decimal(|f.closures|))
  }

  /** A function's listing: its directives, constants, instructions, a blank line, then its closures in order. */
  function FunctionText(f: Function, names: Names): string
    decreases f, 1
  {
    FunctionHead(f) + ConstantsText(f.constants, names) + InstructionsText(f.instructions, names) + "\n"
    + ClosuresText(f.closures, names)
  }

  function ClosuresText(fs: seq<Function>, names: Names): string
    decreases fs, 0
  {
    if |fs| == 0 then "" else ClosuresText(fs[..|fs| - 1], names) + FunctionText(fs[|fs| - 1], names)
  }

  lemma ClosuresStep(fs: seq<Function>, i: nat, names: Names)
    requires i < |fs|
    ensures ClosuresText(fs[..i + 1], names) == ClosuresText(fs[..i], names) + FunctionText(fs[i], names)
  {
    assert fs[..i + 1][..i] == fs[..i];
  }

  /** The whole listing; the prototype part adds nothing. */
  function DumpText(file: File, names: Names): string
  {
    HeaderText(file.header, names) + FunctionText(file.main, names)
  }

  /**
   * `.instr_count` counts the instruction lines: with mnemonics free of line
   * breaks, the instruction block holds one line break per instruction.
   */
  lemma {:induction false} InstructionLineCount(insts: seq<Instruction>, names: Names)
    requires forall i :: 0 <= i < |insts| ==> Count(names.opcode(insts[i].code), '\n') == 0 && Count(names.opcode(insts[i].code), ',') == 0
    ensures Count(InstructionsText(insts, names), '\n') == |insts|
    decreases |insts|
  {
    if |insts| > 0 {
      var last := insts[|insts| - 1];
      InstructionLineCount(insts[..|insts| - 1], names);
      InstructionLineShape(last, names);
      CountAppend(InstructionsText(insts[..|insts| - 1], names), InstructionLine(last, names), '\n');
    }
  }

  /** A constant's value text holds no line break when its string or number text holds none. */
  predicate SingleLineValue(c: Constant, names: Names)
  {
    match c.value
    case StringValue(s) => Count(s, '\n') == 0
    case FloatBytes(bs) => Count(names.float(bs), '\n') == 0
    case _ => true
  }

  lemma ValueTextHasNoBreak(c: Constant, names: Names)
    requires SingleLineValue(c, names)
    ensures Count(ValueText(c.value, names), '\n') == 0
  {
    match c.value
    case ByteValue(b) => DecimalHasNo(b, '\n');
    case SizeValue(n) => DecimalHasNo(n, '\n');
    case UI64Value(n) => DecimalHasNo(n, '\n');
    case IntValue(i) =>
      if i < 0 {
        DecimalHasNo(-i, '\n');
        CountAppend("-", Decimal(-i), '\n');
      } else {
        DecimalHasNo(i, '\n');
      }
    case NilValue =>
    case StringValue(s) =>
    case FloatBytes(bs) =>
  }

  lemma ConstantTextHasNoBreak(c: Constant, names: Names)
    requires SingleLineValue(c, names)
    ensures Count(ConstantText(c, names), '\n') == 0
  {
    var v := ValueText(c.value, names);
    ValueTextHasNoBreak(c, names);
    if c.tag == TNIL {
      CountAbsent("nil", '\n');
    } else if c.tag == TSTRING {
      CountAppend("\"", v, '\n');
      CountAppend("\"" + v, "\"", '\n');
    } else if c.tag == TBOOLEAN {
      CountAbsent("false", '\n');
      CountAbsent("true", '\n');
    } else if c.tag != TNUMBER {
      TypeNameHasNoBreak(c.tag);
      CountAppend(TypeName(c.tag), "(", '\n');
      CountAppend(TypeName(c.tag) + "(", v, '\n');
      CountAppend(TypeName(c.tag) + "(" + v, ")", '\n');
    }
  }

  /** A constant takes one line of the listing when its value text holds no line break. */
  lemma ConstantLineIsOneLine(c: Constant, index: nat, names: Names)
    requires SingleLineValue(c, names)
    ensures Count(ConstantLine(c, index, names), '\n') == 1
  {
    var t := ConstantText(c, names);
    ConstantTextHasNoBreak(c, names);
    DecimalHasNo(index, '\n');
    CountAbsent(".constant ", '\n');
    CountAbsent(" ; ", '\n');
    CountAppend(".constant ", t, '\n');
    CountAppend(".constant " + t, " ; ", '\n');
    CountAppend(".constant " + t + " ; ", Decimal(index), '\n');
    CountAppend(".constant " + t + " ; " + Decimal(index), "\n", '\n');
  }

  lemma TypeNameHasNoBreak(tag: nat)
    ensures Count(TypeName(tag), '\n') == 0
  {
    if tag > TSTRUCT {
      DecimalHasNo(tag, '\n');
    } else {
      CountAbsent(TypeName(tag), '\n');
    }
  }

  /** `.const_count` counts the constant lines, when no constant's text holds a line break. */
  lemma {:induction false} ConstantLineCount(cs: seq<Constant>, names: Names)
    requires forall i :: 0 <= i < |cs| ==> SingleLineValue(cs[i], names)
    ensures Count(ConstantsText(cs, names), '\n') == |cs|
    decreases |cs|
  {
    if |cs| > 0 {
      ConstantLineCount(cs[..|cs| - 1], names);
      ConstantLineIsOneLine(cs[|cs| - 1], |cs| - 1, names);
      CountAppend(ConstantsText(cs[..|cs| - 1], names), ConstantLine(cs[|cs| - 1], |cs| - 1, names), '\n');
    }
  }

  // ---------------------------------------------------------------------------
  // The buffer-driven dumper

  class Source {
    const names: Names
    var buf: string

    constructor (names: Names)
      ensures this.names == names && buf == ""
    {
      this.names := names;
      buf := "";
    }

    method Dump(file: File) returns (text: string)
      modifies this`buf
      ensures buf == old(buf) + DumpText(file, names) && text == buf
    {
      DumpHeader(file.header);
      ghost var written := HeaderText(file.header, names);
      DumpFunction(file.main);
      AppendAssoc(old(buf), written, FunctionText(file.main, names));
      DumpPrototype();
      text := buf;
    }

    /** The nine header directives and a blank line. */
    method DumpHeader(h: Header)
      modifies this`buf
      ensures buf == old(buf) + HeaderText(h, names)
    {
      var line := Directive("format", FormatName(h.format));
      buf := buf + line;
      ghost var written := line;
      line := Directive("endianness", names.endianness(h.endianness));
      buf := buf + line;
      AppendAssoc(old(buf), written, line); written := written + line;
      line := Directive("int_size", Decimal(h.sizeofInt));
      buf := buf + line;
      AppendAssoc(old(buf), written, line); written := written + line;
      line := Directive("size_t_size", Decimal(h.sizeofSizeT));
      buf := buf + line;
      AppendAssoc(old(buf), written, line); written := written + line;
      line := Directive("instruction_size", Decimal(h.sizeofInstruction));
      buf := buf + line;
      AppendAssoc(old(buf), written, line); written := written + line;
      line := Directive("number_size", Decimal(h.sizeofNumber));
      buf := buf + line;
      AppendAssoc(old(buf), written, line); written := written + line;
      line := Directive("number_type", names.numberType(h.integralFlag));
      buf := buf + line;
      AppendAssoc(old(buf), written, line); written := written + line;
      line := Directive("build_flags", Decimal(h.buildFlags));
      buf := buf + line;
      AppendAssoc(old(buf), written, line); written := written + line;
      line := Directive("referenced_mode", Decimal(h.referencedMode)) + "\n";
      buf := buf + line;
      AppendAssoc(old(buf), written, line);
      AppendAssoc(written, Directive("referenced_mode", Decimal(h.referencedMode)), "\n");
    }

    method DumpFunction(f: Function)
      modifies this`buf
      ensures buf == old(buf) + FunctionText(f, names)
      decreases f, 2
    {
      DumpHead(f);
      DumpBody(f);
      ghost var written := FunctionHead(f) + ConstantsText(f.constants, names) + InstructionsText(f.instructions, names) + "\n";
      assert buf == old(buf) + written by {
        AppendAssoc(old(buf), FunctionHead(f), ConstantsText(f.constants, names));
        AppendAssoc(old(buf), FunctionHead(f) + ConstantsText(f.constants, names), InstructionsText(f.instructions, names));
        AppendAssoc(old(buf), FunctionHead(f) + ConstantsText(f.constants, names) + InstructionsText(f.instructions, names), "\n");
      }
      DumpClosures(f.closures);
      AppendAssoc(old(buf), written, ClosuresText(f.closures, names));
    }

    /** The constants, the instructions and the blank line that ends a function's own listing. */
    method DumpBody(f: Function)
      modifies this`buf
      ensures buf == old(buf) + ConstantsText(f.constants, names) + InstructionsText(f.instructions, names) + "\n"
    {
      DumpConstants(f.constants);
      DumpInstructions(f.instructions);
      buf := buf + "\n";
    }

    /** The eight directives that open a function. */
    method DumpHead(f: Function)
      modifies this`buf
      ensures buf == old(buf) + FunctionHead(f)
    {
      var line := Directive("function", Label(f.address));
      buf := buf + line;
      ghost var written := line;
      line := Directive("upval_count", Decimal(f.upvalCount));
      buf := buf + line;
      AppendAssoc(old(buf), written, line); written := written + line;
      line := Directive("param_count", Decimal(f.paramCount));
      buf := buf + line;
      AppendAssoc(old(buf), written, line); written := written + line;
      line := Directive("varg_flags", Decimal(f.varArgFlags));
      buf := buf + line;
      AppendAssoc(old(buf), written, line); written := written + line;
      line := Directive("reg_count", Decimal(f.regCount));
      buf := buf + line;
      AppendAssoc(old(buf), written, line); written := written + line;
      line := Directive("instr_count", Decimal(|f.instructions|));
      buf := buf + line;
      AppendAssoc(old(buf), written, line); written := written + line;
      line := Directive("const_count", Decimal(|f.constants|));
      buf := buf + line;
      AppendAssoc(old(buf), written, line); written := written + line;
      line := Directive("func_count", Decimal(|f.closures|));
      buf := buf + line;
      AppendAssoc(old(buf), written, line);
    }

    /** The constant loop: one `.constant` line per constant, numbered from 0. */
    method DumpConstants(cs: seq<Constant>)
      modifies this`buf
      ensures buf == old(buf) + ConstantsText(cs, names)
    {
      var i := 0;
      while i < |cs|
        invariant i <= |cs|
        invariant buf == old(buf) + ConstantsText(cs[..i], names)
      {
        var line := ".constant " + ConstantText(cs[i], names) + " ; " + Decimal(i) + "\n";
        assert cs[..i + 1][..i] == cs[..i];
        AppendAssoc(old(buf), ConstantsText(cs[..i], names), line);
        buf := buf + line;
        i := i + 1;
      }
      assert cs[..i] == cs;
    }

    /** The instruction loop. */
    method DumpInstructions(insts: seq<Instruction>)
      modifies this`buf
      ensures buf == old(buf) + InstructionsText(insts, names)
    {
      var i := 0;
      while i < |insts|
        invariant i <= |insts|
        invariant buf == old(buf) + InstructionsText(insts[..i], names)
      {
        DumpInstruction(insts[i]);
        assert insts[..i + 1][..i] == insts[..i];
        AppendAssoc(old(buf), InstructionsText(insts[..i], names), InstructionLine(insts[i], names));
        i := i + 1;
      }
      assert insts[..i] == insts;
    }

    /** The closures, each listed in full after its parent, in order. */
    method DumpClosures(fs: seq<Function>)
      modifies this`buf
      ensures buf == old(buf) + ClosuresText(fs, names)
      decreases fs, 1
    {
      var i := 0;
      while i < |fs|
        invariant i <= |fs|
        invariant buf == old(buf) + ClosuresText(fs[..i], names)
      {
        DumpFunction(fs[i]);
        ClosuresStep(fs, i, names);
        AppendAssoc(old(buf), ClosuresText(fs[..i], names), FunctionText(fs[i], names));
        i := i + 1;
      }
      assert fs[..i] == fs;
    }

    /** The body of the instruction loop: the mnemonic, the operands separated by ", ", and a line break. */
    method DumpInstruction(inst: Instruction)
      modifies this`buf
      ensures buf == old(buf) + InstructionLine(inst, names)
    {
      var head := names.opcode(inst.code) + " ";
      buf := buf + head;
      DumpOperands(inst.args);
      ghost var written := Join(OperandTexts(inst.args), ", ");
      AppendAssoc(old(buf) + head, written, "\n");
      buf := buf + "\n";
      AppendAssoc(old(buf), head, written + "\n");
      AppendAssoc(old(buf), names.opcode(inst.code), " ");
    }

    /** The operand loop of an instruction line: each operand's text, with ", " between two. */
    method DumpOperands(args: seq<OpArg>)
      modifies this`buf
      ensures buf == old(buf) + Join(OperandTexts(args), ", ")
    {
      ghost var ts := OperandTexts(args);
      ghost var written: string := "";
      var j := 0;
      while j < |args|
        invariant j <= |args|
        invariant written == if j == 0 then "" else Join(ts[..j], ", ") + (if j < |args| then ", " else "")
        invariant buf == old(buf) + written
      {
        var arg := args[j];
        var text;
        match arg.mode {
          case CONST => text := "K(" + SignedDecimal(arg.value) + ")";
          case REG => text := "R(" + SignedDecimal(arg.value) + ")";
          case NUMBER => text := SignedDecimal(arg.value);
        }
        assert text == ts[j];
        assert written + text == Join(ts[..j + 1], ", ") by {
          JoinStep(ts, j, ", ");
          if j == 0 {
            assert written + text == text;
          }
        }
        AppendAssoc(old(buf), written, text);
        buf := buf + text;
        written := written + text;
        if j < |args| - 1 {
          AppendAssoc(old(buf), written, ", ");
          buf := buf + ", ";
          written := written + ", ";
        }
        j := j + 1;
      }
      assert ts[..j] == ts;
    }

    /** The prototype section has nothing to list. */
    method DumpPrototype()
      modifies this`buf
      ensures buf == old(buf)
    {
    }
  }
}
