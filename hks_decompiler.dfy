/**
 * The Havok Script decompiler: from a disassembled function to a syntax tree.
 *
 * Each instruction is lowered to zero, one or two statements (`Lower`), in
 * instruction order. The statement list is then scanned from the end for
 * loop markers: a FORLOOP folds the three initialising statements, the
 * FORPREP, the body and itself into one numeric `for` whose body is
 * recovered the same way; a backward jump folds the statements from its
 * target up to itself into a block. Finally the reference-counting pass and
 * the register-wrapping pass run over the chunk, in that order.
 *
 * The `HksOpCode` enumeration is not part of this model; the opcode numbers
 * are those of the IW6 `opcode` enumeration, which names the same
 * instructions.
 */
module HksDecompiler {

  import opened Common
  import opened HksAssembly
  import opened LuaAst
  import IW6
  import Bytes
  import HksDisassembler
  import PassRefCounter
  import PassWrapRegister

  // ---------------------------------------------------------------------------
  // Operands and constants

  /** `inst.Args[k]`. */
  function Arg(inst: Instruction, k: nat): (r: Result<OpArg>)
    ensures r.Ok? <==> k < |inst.args|
    ensures r.Ok? ==> r.value == inst.args[k]
  {
    if k < |inst.args| then Ok(inst.args[k]) else Err(OutOfRange)
  }

  /** `inst.Args[k].Value`. */
  function ArgValue(inst: Instruction, k: nat): (r: Result<int>)
    ensures r.Ok? <==> k < |inst.args|
    ensures r.Ok? ==> r.value == inst.args[k].value
  {
    var a :- Arg(inst, k);
    Ok(a.value)
  }

  /** A fresh register node; `slot` is its ordinal among the registers of its instruction. */
  function R(addr: int, index: int, slot: nat): Node
  {
    NewRegister(addr, index, slot)
  }

  /** `count` fresh registers `first`, `first + 1`, ... with consecutive slots from `slot`. */
  function Registers(addr: int, first: int, count: int, slot: nat): (r: seq<Node>)
    ensures |r| == (if count > 0 then count else 0)
    ensures forall k :: 0 <= k < |r| ==> r[k] == R(addr, first + k, slot + k)
  {
    seq(if count > 0 then count else 0, k requires 0 <= k => R(addr, first + k, slot + k))
  }

  /** The constants a payload must have for the casts of `DecompileConstant` to succeed. */
  predicate Typed(k: Constant)
  {
    (k.tag == TBOOLEAN ==> k.value.ByteValue?)
    && (k.tag == TNUMBER ==> k.value.FloatBytes? || k.value.IntValue?)
    && (k.tag == TSTRING ==> k.value.StringValue?)
  }

  /** `DecompileConstant`: a literal for a nil, boolean, number or string constant. */
  function DecompileConstant(consts: seq<Constant>, addr: int, index: int): Result<Node>
  {
    if !(0 <= index < |consts|) then Err(OutOfRange)
    else
      var k := consts[index];
      if k.tag == TNIL then Ok(NilLiteral(addr))
      else if k.tag == TBOOLEAN then
        if k.value.ByteValue? then Ok(BooleanLiteral(addr, k.value.b != 0)) else Err(InvalidCast)
      else if k.tag == TNUMBER then
        if k.value.FloatBytes? then Ok(NumberLiteral(addr, FloatBits(k.value.bytes)))
        else if k.value.IntValue? then Ok(NumberLiteral(addr, Integral(k.value.i)))
        else Err(InvalidCast)
      else if k.tag == TSTRING then
        if k.value.StringValue? then Ok(StringLiteral(addr, k.value.s)) else Err(InvalidCast)
      else Err(DecompileError("internal error: constant"))
  }

  /** `DecompileGlobal`: only a string constant names a global. */
  function DecompileGlobal(consts: seq<Constant>, addr: int, index: int): Result<Node>
  {
    if !(0 <= index < |consts|) then Err(OutOfRange)
    else
      var k := consts[index];
      if k.tag == TSTRING then
        if k.value.StringValue? then Ok(Identifier(addr, k.value.s)) else Err(InvalidCast)
      else Err(DecompileError("internal error: global only support string const"))
  }

  /** `DecompileRK`: a register operand names a register, anything else a constant. */
  function DecompileRK(consts: seq<Constant>, addr: int, arg: OpArg, slot: nat): Result<Node>
  {
    if arg.mode == REG then Ok(R(addr, arg.value, slot)) else DecompileConstant(consts, addr, arg.value)
  }

  /** A constant decompiles exactly when it exists, has one of the four literal tags and a payload of its tag's type. */
  lemma ConstantLiteral(consts: seq<Constant>, addr: int, index: int)
    ensures DecompileConstant(consts, addr, index).Ok? <==>
      0 <= index < |consts| && consts[index].tag in {TNIL, TBOOLEAN, TNUMBER, TSTRING} && Typed(consts[index])
    ensures DecompileConstant(consts, addr, index).Ok? ==>
      var n := DecompileConstant(consts, addr, index).value;
      var k := consts[index];
      n.address == addr
      && (n.NilLiteral? <==> k.tag == TNIL)
      && (n.BooleanLiteral? <==> k.tag == TBOOLEAN)
      && (n.NumberLiteral? <==> k.tag == TNUMBER)
      && (n.StringLiteral? <==> k.tag == TSTRING)
      && (n.BooleanLiteral? ==> (n.flag <==> k.value.b != 0))
      && (n.StringLiteral? ==> n.text == k.value.s)
  {
  }

  /** A global decompiles exactly when its constant exists and is a string, and it names that string. */
  lemma GlobalIdentifier(consts: seq<Constant>, addr: int, index: int)
    ensures DecompileGlobal(consts, addr, index).Ok? <==>
      0 <= index < |consts| && consts[index].tag == TSTRING && consts[index].value.StringValue?
    ensures DecompileGlobal(consts, addr, index).Ok? ==>
      DecompileGlobal(consts, addr, index).value == Identifier(addr, consts[index].value.s)
    ensures 0 <= index < |consts| && consts[index].tag != TSTRING ==>
      DecompileGlobal(consts, addr, index) == Err(DecompileError("internal error: global only support string const"))
  {
  }

  // ---------------------------------------------------------------------------
  // The unboxing casts as written

  /**
   * `DecompileConstant` as the C# source has it. `(bool)k.Value` and
   * `(double)k.Value` unbox, so they succeed only on a boxed `bool` or a boxed
   * `double`. The disassembler boxes a boolean payload as a byte and an
   * integral number as an int or a long, so both casts throw
   * `InvalidCastException` on those. A floating-point number is boxed as a
   * double (the conditional choosing between the 4-byte and the 8-byte read
   * has type double), so it converts. The rest of the model uses the
   * corrected `DecompileConstant`, which converts every payload of its tag's
   * type.
   */
  function DecompileConstantAsWritten(consts: seq<Constant>, addr: int, index: int): (r: Result<Node>)
    ensures r.Ok? ==> r == DecompileConstant(consts, addr, index)
  {
    if !(0 <= index < |consts|) then Err(OutOfRange)
    else
      var k := consts[index];
      if k.tag == TNIL then Ok(NilLiteral(addr))
      else if k.tag == TBOOLEAN then Err(InvalidCast)
      else if k.tag == TNUMBER then
        if k.value.FloatBytes? then Ok(NumberLiteral(addr, FloatBits(k.value.bytes))) else Err(InvalidCast)
      else if k.tag == TSTRING then
        if k.value.StringValue? then Ok(StringLiteral(addr, k.value.s)) else Err(InvalidCast)
      else Err(DecompileError("internal error: constant"))
  }

  /** As written, the casts fail exactly on boolean payloads and integral numbers, where the corrected conversion succeeds. */
  lemma AsWrittenCastsDiffer(consts: seq<Constant>, addr: int, index: int)
    ensures DecompileConstantAsWritten(consts, addr, index) != DecompileConstant(consts, addr, index) <==>
      0 <= index < |consts|
      && ((consts[index].tag == TBOOLEAN && consts[index].value.ByteValue?)
          || (consts[index].tag == TNUMBER && consts[index].value.IntValue?))
    ensures DecompileConstantAsWritten(consts, addr, index) != DecompileConstant(consts, addr, index) ==>
      DecompileConstantAsWritten(consts, addr, index) == Err(InvalidCast)
      && DecompileConstant(consts, addr, index).Ok?
  {
  }

  /**
   * No boolean constant the disassembler reads decompiles as written: its
   * payload is a byte, so the `(bool)` cast throws, while the corrected
   * conversion gives the boolean literal of that byte.
   */
  lemma ReadBooleanNeverDecompiles(hdr: Header, data: seq<Bytes.Byte>, pos: int, addr: int)
    requires HksDisassembler.ParseConstant(hdr, data, pos).Ok?
    requires HksDisassembler.ParseConstant(hdr, data, pos).value.value.tag == TBOOLEAN
    ensures var k := HksDisassembler.ParseConstant(hdr, data, pos).value.value;
      DecompileConstantAsWritten([k], addr, 0) == Err(InvalidCast)
      && DecompileConstant([k], addr, 0) == Ok(BooleanLiteral(addr, k.value.b != 0))
  {
    var k := HksDisassembler.ParseConstant(hdr, data, pos).value.value;
    assert k.value.ByteValue?;
  }

  /** Likewise an integral number read under an integral header never decompiles as written. */
  lemma ReadIntegralNeverDecompiles(hdr: Header, data: seq<Bytes.Byte>, pos: int, addr: int)
    requires hdr.integralFlag != HksDisassembler.NUMBER_TYPE_FLOAT
    requires HksDisassembler.ParseConstant(hdr, data, pos).Ok?
    requires HksDisassembler.ParseConstant(hdr, data, pos).value.value.tag == TNUMBER
    ensures var k := HksDisassembler.ParseConstant(hdr, data, pos).value.value;
      DecompileConstantAsWritten([k], addr, 0) == Err(InvalidCast)
      && DecompileConstant([k], addr, 0) == Ok(NumberLiteral(addr, Integral(k.value.i)))
  {
    var k := HksDisassembler.ParseConstant(hdr, data, pos).value.value;
    assert k.value.IntValue?;
  }

  /** The input that shows it: the constant `true`, tag TBOOLEAN and payload byte 1. */
  lemma TrueConstantCounterexample()
    ensures DecompileConstantAsWritten([Constant(TBOOLEAN, ByteValue(1))], 0, 0) == Err(InvalidCast)
    ensures DecompileConstant([Constant(TBOOLEAN, ByteValue(1))], 0, 0) == Ok(BooleanLiteral(0, true))
  {
  }

  // ---------------------------------------------------------------------------
  // Lowering one instruction

  /** The opcodes lowered to a test of a register against a register or constant, and their two operators. */
  predicate IsCompare(c: nat) { c == IW6.EQ || c == IW6.LT || c == IW6.LE }

  /** The same tests with a constant on the left. */
  predicate IsCompareBK(c: nat) { c == IW6.EQ_BK || c == IW6.LT_BK || c == IW6.LE_BK }

  /** The operator of a comparison: the first when A is 1, the second otherwise. */
  function CompareOp(c: nat, a: int): string
    requires IsCompare(c) || IsCompareBK(c)
  {
    if c == IW6.EQ || c == IW6.EQ_BK then (if a == 1 then "~=" else "==")
    else if c == IW6.LT || c == IW6.LT_BK then (if a == 1 then ">=" else "<")
    else (if a == 1 then ">" else "<=")
  }

  predicate IsArith(c: nat)
  {
    c == IW6.ADD || c == IW6.SUB || c == IW6.MUL || c == IW6.DIV || c == IW6.MOD || c == IW6.POW
  }

  predicate IsArithBK(c: nat)
  {
    c == IW6.ADD_BK || c == IW6.SUB_BK || c == IW6.MUL_BK || c == IW6.DIV_BK || c == IW6.MOD_BK || c == IW6.POW_BK
  }

  function ArithOp(c: nat): string
    requires IsArith(c) || IsArithBK(c)
  {
    if c == IW6.ADD || c == IW6.ADD_BK then "+"
    else if c == IW6.SUB || c == IW6.SUB_BK then "-"
    else if c == IW6.MUL || c == IW6.MUL_BK then "*"
    else if c == IW6.DIV || c == IW6.DIV_BK then "/"
    else if c == IW6.MOD || c == IW6.MOD_BK then "%"
    else "^"
  }

  predicate IsUnary(c: nat) { c == IW6.UNM || c == IW6.NOT || c == IW6.NOT_R1 || c == IW6.LEN }

  function UnaryOp(c: nat): string
    requires IsUnary(c)
  {
    if c == IW6.UNM then "-" else if c == IW6.LEN then "#" else "not "
  }

  predicate IsCall(c: nat) { c == IW6.CALL || c == IW6.CALL_I || c == IW6.CALL_I_R1 }

  /** The opcodes `DecompileInstruction` has a case for. */
  predicate IsHandled(c: nat)
  {
    c == IW6.JMP || c == IW6.FORPREP || c == IW6.FORLOOP || c == IW6.TFORLOOP
    || c == IW6.TEST || c == IW6.TEST_R1 || IsCompare(c) || IsCompareBK(c)
    || c == IW6.LOADBOOL || c == IW6.LOADNIL || c == IW6.LOADK
    || c == IW6.GETGLOBAL || c == IW6.GETGLOBAL_MEM || c == IW6.SETGLOBAL
    || IsArith(c) || IsArithBK(c) || IsUnary(c) || c == IW6.VARARG
    || c == IW6.GETFIELD || c == IW6.MOVE || c == IW6.RETURN || IsCall(c)
    || c == IW6.CLOSURE || c == IW6.GETFIELD_R1 || c == IW6.DATA
  }

  /** The statements `DecompileInstruction` appends for one instruction, operands read in the order the C# reads them. */
  function Lower(consts: seq<Constant>, inst: Instruction): Result<seq<Node>>
  {
    var addr, c := inst.address, inst.code;
    if c == IW6.JMP then
      var a :- ArgValue(inst, 0);
      Ok([Jump(addr, a)])
    else if c == IW6.FORPREP then
      var a :- ArgValue(inst, 0);
      Ok([AsmForPrep(addr, R(addr, a, 0), R(addr, a + 1, 1), R(addr, a + 2, 2), R(addr, a + 3, 3))])
    else if c == IW6.FORLOOP then
      var a :- ArgValue(inst, 0);
      var b :- ArgValue(inst, 1);
      Ok([AsmForLoop(addr, R(addr, a, 0), b)])
    else if c == IW6.TFORLOOP then
      Ok([AsmTForLoop(addr)])
    else if c == IW6.TEST || c == IW6.TEST_R1 then
      var a :- ArgValue(inst, 0);
      var cc :- ArgValue(inst, 1);
      Ok([Test(addr, if cc == 1 then UnaryExpression(addr, R(addr, a, 0), "not ") else R(addr, a, 0))])
    else if IsCompare(c) then
      var b :- ArgValue(inst, 1);
      var rk :- Arg(inst, 2);
      var rhs :- DecompileRK(consts, addr, rk, 1);
      var a :- ArgValue(inst, 0);
      Ok([Test(addr, BinaryExpression(addr, R(addr, b, 0), rhs, CompareOp(c, a)))])
    else if IsCompareBK(c) then
      var b :- ArgValue(inst, 1);
      var lhs :- DecompileConstant(consts, addr, b);
      var cc :- ArgValue(inst, 2);
      var a :- ArgValue(inst, 0);
      Ok([Test(addr, BinaryExpression(addr, lhs, R(addr, cc, 0), CompareOp(c, a)))])
    else if c == IW6.LOADBOOL then
      var a :- ArgValue(inst, 0);
      var b :- ArgValue(inst, 1);
      var cc :- ArgValue(inst, 2);
      Ok([Assign(addr, R(addr, a, 0), BooleanLiteral(addr, b != 0))] + (if cc != 0 then [Jump(addr, 1)] else []))
    else if c == IW6.LOADNIL then
      // the assignment is built but never appended
      var _ :- ArgValue(inst, 0);
      var _ :- ArgValue(inst, 1);
      Ok([])
    else if c == IW6.LOADK then
      var a :- ArgValue(inst, 0);
      var b :- ArgValue(inst, 1);
      var k :- DecompileConstant(consts, addr, b);
      Ok([Assign(addr, R(addr, a, 0), k)])
    else if c == IW6.GETGLOBAL || c == IW6.GETGLOBAL_MEM then
      var a :- ArgValue(inst, 0);
      var b :- ArgValue(inst, 1);
      var g :- DecompileGlobal(consts, addr, b);
      Ok([Assign(addr, R(addr, a, 0), g)])
    else if c == IW6.SETGLOBAL then
      var b :- ArgValue(inst, 1);
      var g :- DecompileGlobal(consts, addr, b);
      var a :- ArgValue(inst, 0);
      Ok([Assign(addr, g, R(addr, a, 0))])
    else if IsArith(c) then
      var a :- ArgValue(inst, 0);
      var b :- ArgValue(inst, 1);
      var rk :- Arg(inst, 2);
      var right :- DecompileRK(consts, addr, rk, 2);
      Ok([Assign(addr, R(addr, a, 0), BinaryExpression(addr, R(addr, b, 1), right, ArithOp(c)))])
    else if IsArithBK(c) then
      var a :- ArgValue(inst, 0);
      var b :- ArgValue(inst, 1);
      var left :- DecompileConstant(consts, addr, b);
      var cc :- ArgValue(inst, 2);
      Ok([Assign(addr, R(addr, a, 0), BinaryExpression(addr, left, R(addr, cc, 1), ArithOp(c)))])
    else if IsUnary(c) then
      var a :- ArgValue(inst, 0);
      var b :- ArgValue(inst, 1);
      Ok([Assign(addr, R(addr, a, 0), UnaryExpression(addr, R(addr, b, 1), UnaryOp(c)))])
    else if c == IW6.VARARG then
      var a :- ArgValue(inst, 0);
      Ok([Assign(addr, R(addr, a, 0), VarargsLiteral(addr))])
    else if c == IW6.MOVE then
      var a :- ArgValue(inst, 0);
      var b :- ArgValue(inst, 1);
      Ok([Assign(addr, R(addr, a, 0), R(addr, b, 1))])
    else if c == IW6.RETURN then
      var b :- ArgValue(inst, 1);
      if b <= 0 then Ok([])
      else if b == 1 then Ok([ReturnStatement(addr, [])])
      else
        var a :- ArgValue(inst, 0);
        Ok([ReturnStatement(addr, Registers(addr, a, b - 1, 0))])
    else if IsCall(c) then
      var b :- ArgValue(inst, 1);
      var a :- ArgValue(inst, 0);
      var cc :- ArgValue(inst, 2);
      var args := Registers(addr, a + 1, b - 1, 0);
      var callee := R(addr, a, |args|);
      Ok([AssignAll(addr, Registers(addr, a, cc, |args| + 1), FunctionCall(addr, callee, args))])
    else if c == IW6.CLOSURE then
      var a :- ArgValue(inst, 0);
      var b :- ArgValue(inst, 1);
      Ok([Assign(addr, R(addr, a, 0), Closure(addr, b))])
    else if c == IW6.GETFIELD_R1 then
      var a :- ArgValue(inst, 0);
      var cc :- ArgValue(inst, 2);
      var key :- DecompileGlobal(consts, addr, cc);
      var b :- ArgValue(inst, 1);
      Ok([Assign(addr, R(addr, a, 0), TableAccess(addr, R(addr, b, 1), key))])
    else
      // GETFIELD, DATA, and every opcode without a case
      Ok([])
  }

  /** LOADBOOL assigns the boolean B ≠ 0 and adds a jump over the next instruction exactly when C ≠ 0. */
  lemma LoadBoolLowering(consts: seq<Constant>, inst: Instruction)
    requires inst.code == IW6.LOADBOOL && |inst.args| >= 3
    ensures Lower(consts, inst).Ok?
    ensures
      var ss := Lower(consts, inst).value;
      var addr := inst.address;
      |ss| == (if inst.args[2].value != 0 then 2 else 1)
      && ss[0] == AssignmentStatement(addr, [R(addr, inst.args[0].value, 0)], [BooleanLiteral(addr, inst.args[1].value != 0)])
      && (|ss| == 2 ==> ss[1] == Jump(addr, 1))
  {
  }

  /**
   * Every comparison and test appends exactly one `Test` at its address.
   * A comparison's operator is its negated form exactly when A is 1, and a
   * TEST negates its register exactly when C is 1.
   */
  lemma CompareLowering(consts: seq<Constant>, inst: Instruction)
    requires IsCompare(inst.code) || IsCompareBK(inst.code) || inst.code == IW6.TEST || inst.code == IW6.TEST_R1
    requires Lower(consts, inst).Ok?
    ensures
      var ss := Lower(consts, inst).value;
      |ss| == 1 && ss[0].Test? && ss[0].address == inst.address
      && (inst.code == IW6.TEST || inst.code == IW6.TEST_R1 ==>
            (ss[0].expression.UnaryExpression? <==> inst.args[1].value == 1)
            && (ss[0].expression.UnaryExpression? ==> ss[0].expression.op == "not "))
      && (IsCompare(inst.code) || IsCompareBK(inst.code) ==>
            ss[0].expression.BinaryExpression?
            && ss[0].expression.op == CompareOp(inst.code, inst.args[0].value))
  {
  }

  /** The comparison operators: A = 1 selects the negation of the operator A = 0 selects. */
  lemma CompareOperators(c: nat)
    requires IsCompare(c) || IsCompareBK(c)
    ensures (CompareOp(c, 0), CompareOp(c, 1)) in {("==", "~="), ("<", ">="), ("<=", ">")}
    ensures forall a :: a != 1 ==> CompareOp(c, a) == CompareOp(c, 0)
  {
  }

  /** RETURN with B > 0 returns the B - 1 registers from A; with B ≤ 0 it appends nothing. */
  lemma ReturnLowering(consts: seq<Constant>, inst: Instruction)
    requires inst.code == IW6.RETURN && Lower(consts, inst).Ok?
    ensures
      var ss := Lower(consts, inst).value;
      var b := inst.args[1].value;
      (b <= 0 ==> ss == [])
      && (b > 0 ==>
            |ss| == 1 && ss[0].ReturnStatement? && |ss[0].expressions| == b - 1
            && forall k :: 0 <= k < b - 1 ==>
                 ss[0].expressions[k].Register? && ss[0].expressions[k].index == inst.args[0].value + k)
  {
  }

  /**
   * A call appends one assignment: its C targets are the registers from A,
   * its one value is a call of register A with the B - 1 registers after A
   * as arguments.
   */
  lemma CallLowering(consts: seq<Constant>, inst: Instruction)
    requires IsCall(inst.code) && Lower(consts, inst).Ok?
    ensures
      var ss := Lower(consts, inst).value;
      var a, b, c := inst.args[0].value, inst.args[1].value, inst.args[2].value;
      |ss| == 1 && ss[0].AssignmentStatement? && |ss[0].values| == 1
      && |ss[0].variables| == (if c > 0 then c else 0)
      && (forall k :: 0 <= k < |ss[0].variables| ==>
            ss[0].variables[k].Register? && ss[0].variables[k].index == a + k)
      && var call := ss[0].values[0];
      call.FunctionCall? && call.callee.Register? && call.callee.index == a
      && |call.arguments| == (if b > 1 then b - 1 else 0)
      && (forall k :: 0 <= k < |call.arguments| ==>
            call.arguments[k].Register? && call.arguments[k].index == a + 1 + k)
  {
  }

  /** The register nodes one call creates have pairwise distinct slots, so their identities differ. */
  lemma CallSlotsDistinct(consts: seq<Constant>, inst: Instruction)
    requires IsCall(inst.code) && Lower(consts, inst).Ok?
    ensures
      var asn := Lower(consts, inst).value[0];
      var call := asn.values[0];
      var regs := call.arguments + [call.callee] + asn.variables;
      forall j, k :: 0 <= j < k < |regs| ==> regs[j].Register? && regs[k].Register? && regs[j].slot != regs[k].slot
  {
    var asn := Lower(consts, inst).value[0];
    var call := asn.values[0];
    var regs := call.arguments + [call.callee] + asn.variables;
    assert forall k :: 0 <= k < |regs| ==> regs[k].Register? && regs[k].slot == k;
  }

  /** LOADNIL, GETFIELD, DATA and every opcode without a case append nothing. */
  lemma SilentLowering(consts: seq<Constant>, inst: Instruction)
    requires inst.code == IW6.LOADNIL || inst.code == IW6.GETFIELD || inst.code == IW6.DATA || !IsHandled(inst.code)
    ensures Lower(consts, inst).Ok? ==> Lower(consts, inst).value == []
    ensures inst.code != IW6.LOADNIL ==> Lower(consts, inst) == Ok([])
  {
  }

  /** The statements of a whole instruction list, in order. */
  function LowerAll(consts: seq<Constant>, insts: seq<Instruction>): Result<seq<Node>>
  {
    if |insts| == 0 then Ok([])
    else
      var prefix :- LowerAll(consts, insts[..|insts| - 1]);
      var last :- Lower(consts, insts[|insts| - 1]);
      Ok(prefix + last)
  }

  lemma {:induction false} LowerAllErrStays(consts: seq<Constant>, insts: seq<Instruction>, j: nat)
    requires j <= |insts| && LowerAll(consts, insts[..j]).Err?
    ensures LowerAll(consts, insts) == LowerAll(consts, insts[..j])
    decreases |insts| - j
  {
    if j < |insts| {
      assert insts[..j + 1][..j] == insts[..j];
      LowerAllErrStays(consts, insts, j + 1);
    } else {
      assert insts[..j] == insts;
    }
  }

  // ---------------------------------------------------------------------------
  // Loop recovery

  /** `List.RemoveAt` at an index in range. */
  function Drop(ss: seq<Node>, k: nat): (r: seq<Node>)
    requires k < |ss|
    ensures |r| == |ss| - 1
  {
    ss[..k] + ss[k + 1..]
  }

  /** `FindLocation`: the least index of a statement at address `loc`. */
  function FindLocation(ss: seq<Node>, loc: int): (r: Result<nat>)
    ensures r.Ok? ==> (r.value < |ss| && ss[r.value].address == loc
                       && forall j :: 0 <= j < r.value ==> ss[j].address != loc)
    ensures r.Err? ==> ((forall j :: 0 <= j < |ss| ==> ss[j].address != loc)
                        && r.error == DecompileError("location not found " + SignedDecimal(loc)))
  {
    FindFrom(ss, loc, 0)
  }

  function FindFrom(ss: seq<Node>, loc: int, i: nat): (r: Result<nat>)
    requires i <= |ss| && forall j :: 0 <= j < i ==> ss[j].address != loc
    ensures r.Ok? ==> (i <= r.value < |ss| && ss[r.value].address == loc
                       && forall j :: 0 <= j < r.value ==> ss[j].address != loc)
    ensures r.Err? ==> ((forall j :: 0 <= j < |ss| ==> ss[j].address != loc)
                        && r.error == DecompileError("location not found " + SignedDecimal(loc)))
    decreases |ss| - i
  {
    if i == |ss| then Err(DecompileError("location not found " + SignedDecimal(loc)))
    else if ss[i].address == loc then Ok(i)
    else FindFrom(ss, loc, i + 1)
  }

  /** The statements that start a loop rewrite: a FORLOOP, or a jump backwards. */
  predicate IsMarker(n: Node)
  {
    n.AsmForLoop? || (n.Jump? && n.offset < 0)
  }

  function Markers(ss: seq<Node>): nat
  {
    if |ss| == 0 then 0 else Markers(ss[..|ss| - 1]) + (if IsMarker(ss[|ss| - 1]) then 1 else 0)
  }

  lemma {:induction false} MarkersConcat(a: seq<Node>, b: seq<Node>)
    ensures Markers(a + b) == Markers(a) + Markers(b)
    decreases |b|
  {
    if |b| == 0 {
      assert a + b == a;
    } else {
      assert (a + b)[..|a + b| - 1] == a + b[..|b| - 1];
      MarkersConcat(a, b[..|b| - 1]);
    }
  }

  /** The address a FORLOOP or jump at `n` targets: the next instruction plus `offset` instructions. */
  function Target(n: Node): int
    requires n.AsmForLoop? || n.Jump?
  {
    n.address + 4 + n.offset * 4
  }

  /**
   * `DecompileForEach`, `DecompileRepeatUntil` and `DecompileWhile`, which
   * are the same code: the statements from `begin` to `end` inclusive become
   * one block at the address of the first.
   */
  function Collapse(ss: seq<Node>, begin: nat, end: nat): (r: seq<Node>)
    requires begin <= end < |ss|
    ensures |r| == |ss| - (end - begin)
  {
    ss[..begin] + [Block(ss[begin].address, ss[begin..end + 1])] + ss[end + 1..]
  }

  /** Collapsing a range that ends in a marker shortens the list or leaves one marker fewer. */
  lemma CollapseShrinks(ss: seq<Node>, begin: nat, end: nat)
    requires begin <= end < |ss| && IsMarker(ss[end])
    ensures |Collapse(ss, begin, end)| < |ss| || Markers(Collapse(ss, begin, end)) < Markers(ss)
  {
    if begin == end {
      var blk := Block(ss[begin].address, ss[begin..end + 1]);
      MarkersConcat(ss[..end] + [blk], ss[end + 1..]);
      MarkersConcat(ss[..end], [blk]);
      assert ss == ss[..end] + [ss[end]] + ss[end + 1..];
      MarkersConcat(ss[..end] + [ss[end]], ss[end + 1..]);
      MarkersConcat(ss[..end], [ss[end]]);
      assert [blk][..0] == [] && [ss[end]][..0] == [];
    }
  }

  /**
   * `DecompileFor`: the init, limit and step statements at `begin`, the prep
   * after them and the FORLOOP at `end` are removed (the FORLOOP first), the
   * statements left between become the body, whose loops are recovered in
   * turn, and a `for` at the init statement's address takes their place.
   */
  function ForRewrite(ss: seq<Node>, begin: nat, end: nat): (r: Result<seq<Node>>)
    requires begin + 3 < |ss| && ss[begin + 3].AsmForPrep? && end < |ss|
    ensures r.Ok? ==> 1 <= |r.value| <= |ss| - 4
    decreases |ss|, 0, 0, 0, 0
  {
    var addr := ss[begin].address;
    var init, cond, step, prep := ss[begin], ss[begin + 1], ss[begin + 2], ss[begin + 3];
    if |ss| <= begin + 4 then
      // the last of the four removals at `begin` is past the end
      Err(OutOfRange)
    else
      var rest := WithoutFor(ss, begin, end);
      var n := if end - 4 - begin > 0 then end - 4 - begin else 0;
      var body :- Loops(rest[begin..begin + n]);
      Ok(rest[..begin] + [ForStatement(addr, prep.rvar, init, cond, step, Block(addr, body))] + rest[begin + n..])
  }

  /** The list after the FORLOOP at `end` and then four statements at `begin` are removed. */
  function WithoutFor(ss: seq<Node>, begin: nat, end: nat): (r: seq<Node>)
    requires begin + 4 < |ss| && end < |ss|
    ensures |r| == |ss| - 5
  {
    Drop(Drop(Drop(Drop(Drop(ss, end), begin), begin), begin), begin)
  }

  /** In the usual layout the removals leave the prefix, the body and the suffix. */
  lemma WithoutForSlice(ss: seq<Node>, begin: nat, end: nat)
    requires begin + 4 <= end < |ss|
    ensures WithoutFor(ss, begin, end) == ss[..begin] + ss[begin + 4..end] + ss[end + 1..]
  {
    var s1 := Drop(ss, end);
    assert s1 == ss[..begin] + ss[begin..end] + ss[end + 1..];
    DropFront(ss, begin, 0, end);
    DropFront(ss, begin, 1, end);
    DropFront(ss, begin, 2, end);
    DropFront(ss, begin, 3, end);
  }

  /**
   * The scan of `DecompileLoops` from index `i` down. After every rewrite it
   * restarts at the last index, which the loop's decrement then skips.
   */
  function Scan(ss: seq<Node>, i: int): Result<seq<Node>>
    requires -1 <= i < |ss|
    decreases |ss|, 1, Markers(ss), i + 1, 1
  {
    if i < 0 then Ok(ss)
    else if ss[i].AsmForLoop? then ScanFor(ss, i)
    else if ss[i].Jump? && ss[i].offset < 0 then ScanJump(ss, i)
    else Scan(ss, i - 1)
  }

  /** The scan at a FORLOOP: the `for` rewrite, then the scan again from the end. */
  function ScanFor(ss: seq<Node>, i: int): Result<seq<Node>>
    requires 0 <= i < |ss| && ss[i].AsmForLoop?
    decreases |ss|, 1, Markers(ss), i + 1, 0
  {
    var begin :- FindLocation(ss, Target(ss[i]));
    if begin < 4 || !ss[begin - 1].AsmForPrep? then Err(DecompileError("bad for prep"))
    else
      var next :- ForRewrite(ss, begin - 4, i);
      Scan(next, |next| - 2)
  }

  /** The scan at a backward jump: the collapse, then the scan again from the end. */
  function ScanJump(ss: seq<Node>, i: int): Result<seq<Node>>
    requires 0 <= i < |ss| && ss[i].Jump? && ss[i].offset < 0
    decreases |ss|, 1, Markers(ss), i + 1, 0
  {
    var begin :- FindLocation(ss, Target(ss[i]));
    if begin > i then Err(Diverges)
    else
      assert |Collapse(ss, begin, i)| < |ss| || Markers(Collapse(ss, begin, i)) < Markers(ss) by {
        CollapseShrinks(ss, begin, i);
      }
      var next := Collapse(ss, begin, i);
      Scan(next, |next| - 2)
  }

  /** At a FORLOOP whose target is missing or not right after a prep the scan stops with that error. */
  lemma ScanAtForLoop(ss: seq<Node>, i: nat)
    requires i < |ss| && ss[i].AsmForLoop?
    ensures var b := FindLocation(ss, Target(ss[i]));
      && (b.Err? ==> Scan(ss, i) == Err(b.error))
      && (b.Ok? && (b.value < 4 || !ss[b.value - 1].AsmForPrep?) ==> Scan(ss, i) == Err(DecompileError("bad for prep")))
  {
  }

  /**
   * At a FORLOOP whose target is right after a prep the scan goes on from
   * the end of the list the `for` rewrite gives, or stops with its error.
   */
  lemma ScanAtFor(ss: seq<Node>, i: nat, begin: nat)
    requires i < |ss| && ss[i].AsmForLoop? && FindLocation(ss, Target(ss[i])) == Ok(begin)
    requires 4 <= begin && ss[begin - 1].AsmForPrep?
    ensures var next := ForRewrite(ss, begin - 4, i);
      Scan(ss, i) == if next.Err? then Err(next.error) else Scan(next.value, |next.value| - 2)
  {
    assert Scan(ss, i) == ScanFor(ss, i);
  }

  /**
   * At a backward jump the scan stops when the target is missing or lies
   * after the jump, and otherwise goes on from the end of the collapsed list.
   */
  lemma ScanAtBackJump(ss: seq<Node>, i: nat)
    requires i < |ss| && ss[i].Jump? && ss[i].offset < 0
    ensures var b := FindLocation(ss, Target(ss[i]));
      && (b.Err? ==> Scan(ss, i) == Err(b.error))
      && (b.Ok? && b.value > i ==> Scan(ss, i) == Err(Diverges))
      && (b.Ok? && b.value <= i ==> Scan(ss, i) == Scan(Collapse(ss, b.value, i), |Collapse(ss, b.value, i)| - 2))
  {
  }

  /** Any other statement is passed over. */
  lemma ScanPast(ss: seq<Node>, i: nat)
    requires i < |ss| && !ss[i].AsmForLoop? && !(ss[i].Jump? && ss[i].offset < 0)
    ensures Scan(ss, i) == Scan(ss, i - 1)
  {
  }

  /** `DecompileLoops` over a whole list. */
  function Loops(ss: seq<Node>): Result<seq<Node>>
    decreases |ss|, 2, 0, 0, 0
  {
    Scan(ss, |ss| - 1)
  }

  /**
   * In the usual layout, where the FORLOOP comes after the prep, the `for`
   * replaces exactly the statements from the init statement to the FORLOOP,
   * and its body is what lay between the prep and the FORLOOP.
   */
  lemma ForRewriteSlice(ss: seq<Node>, begin: nat, end: nat)
    requires begin + 4 <= end < |ss| && ss[begin + 3].AsmForPrep?
    requires Loops(ss[begin + 4..end]).Ok?
    ensures ForRewrite(ss, begin, end) == Ok(ss[..begin]
      + [ForStatement(ss[begin].address, ss[begin + 3].rvar, ss[begin], ss[begin + 1], ss[begin + 2],
                      Block(ss[begin].address, Loops(ss[begin + 4..end]).value))]
      + ss[end + 1..])
  {
    WithoutForSlice(ss, begin, end);
    var rest := ss[..begin] + ss[begin + 4..end] + ss[end + 1..];
    var n := end - 4 - begin;
    assert rest[begin..begin + n] == ss[begin + 4..end];
    assert rest[..begin] == ss[..begin] && rest[begin + n..] == ss[end + 1..];
  }

  /** Removing at `b` the first of a run `ss[b + k..e]` kept between a prefix and a suffix shortens the run. */
  lemma DropFront(ss: seq<Node>, b: nat, k: nat, e: nat)
    requires b + k < e < |ss|
    ensures Drop(ss[..b] + ss[b + k..e] + ss[e + 1..], b) == ss[..b] + ss[b + k + 1..e] + ss[e + 1..]
  {
    var t := ss[..b] + ss[b + k..e] + ss[e + 1..];
    assert t[..b] == ss[..b];
    assert t[b + 1..] == ss[b + k + 1..e] + ss[e + 1..];
  }

  /** No statement is both a marker kind and the kind a rewrite puts in its place. */
  lemma RewritesAreNotMarkers(a: int, v: Node, i: Node, c: Node, s: Node, body: seq<Node>)
    ensures !IsMarker(ForStatement(a, v, i, c, s, Block(a, body))) && !IsMarker(Block(a, body))
  {
  }

  /** No statement at the top level of the list is a FORLOOP or a backward jump. */
  predicate NoMarkers(ss: seq<Node>)
  {
    forall k :: 0 <= k < |ss| ==> !IsMarker(ss[k])
  }

  /** A scan over statements none of which is a marker changes nothing. */
  lemma {:induction false} ScanUnmarked(ss: seq<Node>, i: int)
    requires -1 <= i < |ss| && forall k :: 0 <= k <= i ==> !IsMarker(ss[k])
    ensures Scan(ss, i) == Ok(ss)
    decreases i + 1
  {
    if i >= 0 {
      ScanUnmarked(ss, i - 1);
    }
  }

  /** After a rewrite that leaves `x` last, the restarted scan over ordinary statements before it changes nothing. */
  lemma ScanBeforeLast(p: seq<Node>, x: Node)
    requires forall k :: 0 <= k < |p| ==> !IsMarker(p[k])
    ensures Scan(p + [x], |p| - 1) == Ok(p + [x])
  {
    var ss := p + [x];
    assert forall k :: 0 <= k < |p| ==> ss[k] == p[k];
    ScanUnmarked(ss, |p| - 1);
  }

  /** Loop recovery leaves a list without FORLOOPs and backward jumps as it is. */
  lemma LoopsUnmarked(ss: seq<Node>)
    requires NoMarkers(ss)
    ensures Loops(ss) == Ok(ss)
  {
    ScanUnmarked(ss, |ss| - 1);
  }

  /**
   * A backward jump that ends a list of ordinary statements folds everything
   * from its target to itself into one block, whatever precedes it, and
   * recovers nothing inside the block.
   */
  lemma BackJumpCollapses(ss: seq<Node>, begin: nat)
    requires |ss| > 0 && ss[|ss| - 1].Jump? && ss[|ss| - 1].offset < 0
    requires forall k :: 0 <= k < |ss| - 1 ==> !IsMarker(ss[k])
    requires FindLocation(ss, Target(ss[|ss| - 1])) == Ok(begin)
    ensures Loops(ss) == Ok(ss[..begin] + [Block(ss[begin].address, ss[begin..])])
  {
    ScanJumpStep(ss, begin);
    ScanBeforeLast(ss[..begin], Block(ss[begin].address, ss[begin..]));
  }

  /** The step of the scan at a backward jump that ends the list. */
  lemma ScanJumpStep(ss: seq<Node>, begin: nat)
    requires |ss| > 0 && ss[|ss| - 1].Jump? && ss[|ss| - 1].offset < 0
    requires FindLocation(ss, Target(ss[|ss| - 1])) == Ok(begin)
    ensures Scan(ss, |ss| - 1) == Scan(ss[..begin] + [Block(ss[begin].address, ss[begin..])], begin - 1)
  {
    var i := |ss| - 1;
    assert ss[begin..i + 1] == ss[begin..] && ss[i + 1..] == [];
    assert Collapse(ss, begin, i) == ss[..begin] + [Block(ss[begin].address, ss[begin..])];
  }

  /** The `for` that replaces a loop without nested loops keeps its body as it is. */
  lemma ForRewriteUnmarked(ss: seq<Node>, begin: nat, end: nat)
    requires begin + 4 <= end < |ss| && ss[begin + 3].AsmForPrep?
    requires forall k :: begin + 4 <= k < end ==> !IsMarker(ss[k])
    ensures ForRewrite(ss, begin, end) == Ok(ss[..begin]
      + [ForStatement(ss[begin].address, ss[begin + 3].rvar, ss[begin], ss[begin + 1], ss[begin + 2],
                      Block(ss[begin].address, ss[begin + 4..end]))]
      + ss[end + 1..])
  {
    LoopsUnmarked(ss[begin + 4..end]);
    ForRewriteSlice(ss, begin, end);
  }

  /** The step of the scan at a FORLOOP that ends the list and closes a loop without nested loops. */
  lemma ScanForStep(ss: seq<Node>, begin: nat)
    requires begin + 4 < |ss| && ss[|ss| - 1].AsmForLoop? && ss[begin + 3].AsmForPrep?
    requires FindLocation(ss, Target(ss[|ss| - 1])) == Ok(begin + 4)
    requires forall k :: begin + 4 <= k < |ss| - 1 ==> !IsMarker(ss[k])
    ensures Scan(ss, |ss| - 1) == Scan(ss[..begin]
      + [ForStatement(ss[begin].address, ss[begin + 3].rvar, ss[begin], ss[begin + 1], ss[begin + 2],
                      Block(ss[begin].address, ss[begin + 4..|ss| - 1]))], begin - 1)
  {
    var end := |ss| - 1;
    ForRewriteUnmarked(ss, begin, end);
    assert ss[end + 1..] == [];
    var fs := ForStatement(ss[begin].address, ss[begin + 3].rvar, ss[begin], ss[begin + 1], ss[begin + 2],
                           Block(ss[begin].address, ss[begin + 4..end]));
    assert ss[..begin] + [fs] + ss[end + 1..] == ss[..begin] + [fs];
  }

  /**
   * A FORLOOP that ends a list of ordinary statements and targets the
   * statement after a prep becomes a `for` in place of the init, limit and
   * step statements, the prep, the body between and the FORLOOP itself.
   */
  lemma ForLoopRecovered(ss: seq<Node>, begin: nat)
    requires |ss| > 0 && ss[|ss| - 1].AsmForLoop?
    requires forall k :: 0 <= k < |ss| - 1 ==> !IsMarker(ss[k])
    requires FindLocation(ss, Target(ss[|ss| - 1])) == Ok(begin + 4)
    requires begin + 4 < |ss| && ss[begin + 3].AsmForPrep?
    ensures Loops(ss) == Ok(ss[..begin]
      + [ForStatement(ss[begin].address, ss[begin + 3].rvar, ss[begin], ss[begin + 1], ss[begin + 2],
                      Block(ss[begin].address, ss[begin + 4..|ss| - 1]))])
  {
    ScanForStep(ss, begin);
    ScanBeforeLast(ss[..begin], ForStatement(ss[begin].address, ss[begin + 3].rvar, ss[begin], ss[begin + 1], ss[begin + 2],
                                             Block(ss[begin].address, ss[begin + 4..|ss| - 1])));
  }

  // ---------------------------------------------------------------------------
  // The whole function and the whole file

  /**
   * `DecompileFunction`: a function statement at the function's address,
   * named by the empty identifier, without parameters, whose body is the
   * lowered instructions with their loops recovered.
   */
  function FunctionOf(f: Function): Result<Node>
  {
    var ss :- LowerAll(f.constants, f.instructions);
    var body :- Loops(ss);
    Ok(FunctionStatement(f.address, Identifier(f.address, ""), [], Block(f.address, body)))
  }

  /** `Decompile`: the main function in a chunk, then reference counting, then register wrapping. */
  function DecompileFile(assembly: File, fuel: nat): Result<Node>
  {
    var func :- FunctionOf(assembly.main);
    var counted :- PassRefCounter.RefCount(Chunk(0, [func]));
    var wrapped :- PassWrapRegister.WrapNode(counted, PassWrapRegister.Start, fuel);
    Ok(wrapped.node)
  }

  /**
   * The result is a chunk at address 0 holding the main function's statement
   * and nothing for its closures; register wrapping can drop that statement
   * when its body ends in an inlined assignment, but adds nothing.
   */
  lemma DecompiledChunk(assembly: File, fuel: nat)
    requires DecompileFile(assembly, fuel).Ok?
    ensures
      var c := DecompileFile(assembly, fuel).value;
      var a := assembly.main.address;
      c.Chunk? && c.address == 0 && |c.statements| <= 1
      && (|c.statements| == 1 ==>
            c.statements[0].FunctionStatement? && c.statements[0].address == a
            && c.statements[0].name == Identifier(a, "") && c.statements[0].parameters == [])
  {
    var a := assembly.main.address;
    var func := FunctionOf(assembly.main).value;
    var cs := PassRefCounter.CountNode(Chunk(0, [func]), PassRefCounter.Initial).value;
    var fs := PassRefCounter.Annotate(func, cs.counts);
    AnnotatedFunction(func, cs.counts);
    assert PassRefCounter.RefCount(Chunk(0, [func])) == Ok(Chunk(0, [fs]));
    PassWrapRegister.WrapSingle(fs, PassWrapRegister.Start, fuel);
  }

  /** Counting leaves a chunk of one function statement a chunk of one function statement with the same header. */
  lemma AnnotatedFunction(func: Node, c: map<RegisterId, int>)
    requires func.FunctionStatement? && func.name.Identifier?
    ensures PassRefCounter.Annotate(Chunk(0, [func]), c) == Chunk(0, [PassRefCounter.Annotate(func, c)])
    ensures
      var fs := PassRefCounter.Annotate(func, c);
      fs.FunctionStatement? && fs.address == func.address && fs.name == func.name && fs.parameters == func.parameters
  {
    assert PassRefCounter.AnnotateAll([func], c) == [PassRefCounter.Annotate(func, c)];
    assert PassRefCounter.Annotate(func.name, c) == func.name;
  }

  // ---------------------------------------------------------------------------
  // The C# class

  /** `Decompiler`: the constants of the function being decompiled and the statements of its body so far. */
  class Decompiler {
    var constants: seq<Constant>
    var statements: seq<Node>

    constructor()
      ensures constants == [] && statements == []
    {
      constants := [];
      statements := [];
    }

    /** Appends the statements of one instruction, or stops with the error its lowering raises. */
    method DecompileInstruction(inst: Instruction) returns (o: Outcome)
      modifies this
      ensures constants == old(constants)
      ensures Lower(constants, inst).Ok? ==> o == Pass && statements == old(statements) + Lower(constants, inst).value
      ensures Lower(constants, inst).Err? ==> o == Fail(Lower(constants, inst).error) && statements == old(statements)
    {
      var r := Lower(constants, inst);
      if r.Err? {
        return Fail(r.error);
      }
      statements := statements + r.value;
      o := Pass;
    }

    /** Lowers every instruction in order, then recovers the loops of the body. */
    method DecompileFunction(f: Function) returns (r: Result<Node>)
      modifies this
      ensures constants == f.constants
      ensures r == FunctionOf(f)
      ensures r.Ok? ==> statements == r.value.body.statements
    {
      constants := f.constants;
      statements := [];
      var i := 0;
      while i < |f.instructions|
        invariant 0 <= i <= |f.instructions| && constants == f.constants
        invariant LowerAll(constants, f.instructions[..i]) == Ok(statements)
      {
        assert f.instructions[..i + 1][..i] == f.instructions[..i];
        var o := DecompileInstruction(f.instructions[i]);
        if o.Fail? {
          LowerAllErrStays(constants, f.instructions, i + 1);
          return Err(o.error);
        }
        i := i + 1;
      }
      assert f.instructions[..i] == f.instructions;
      var body :- DecompileLoops(statements);
      statements := body;
      r := Ok(FunctionStatement(f.address, Identifier(f.address, ""), [], Block(f.address, body)));
    }

    /** `FindLocation`: the first statement at address `loc`. */
    method Locate(stmts: seq<Node>, loc: int) returns (r: Result<nat>)
      ensures r == FindLocation(stmts, loc)
    {
      var i := 0;
      while i < |stmts|
        invariant 0 <= i <= |stmts|
        invariant forall j :: 0 <= j < i ==> stmts[j].address != loc
      {
        if stmts[i].address == loc {
          return Ok(i);
        }
        i := i + 1;
      }
      r := Err(DecompileError("location not found " + SignedDecimal(loc)));
    }

    /** `DecompileLoops`: scans from the end, rewriting at every FORLOOP and backward jump and restarting from the end. */
    method DecompileLoops(stmts: seq<Node>) returns (r: Result<seq<Node>>)
      ensures r == Loops(stmts)
      decreases |stmts|, 3
    {
      var list := stmts;
      var i := |list| - 1;
      while i >= 0
        invariant -1 <= i < |list| <= |stmts|
        invariant Scan(list, i) == Loops(stmts)
        decreases |list|, Markers(list), i + 1
      {
        if list[i].AsmForLoop? {
          var next :- LoopAtFor(list, i);
          list := next;
          i := |list| - 1;
        } else if list[i].Jump? && list[i].offset < 0 {
          var next :- LoopAtJump(list, i);
          list := next;
          i := |list| - 1;
        } else {
          ScanPast(list, i);
        }
        i := i - 1;
      }
      r := Ok(list);
    }

    /** A FORLOOP at `i`: the `for` rewrite the scan goes on from, or the error it stops with. */
    method LoopAtFor(list: seq<Node>, i: nat) returns (r: Result<seq<Node>>)
      requires i < |list| && list[i].AsmForLoop?
      ensures r.Err? ==> Scan(list, i) == Err(r.error)
      ensures r.Ok? ==> 1 <= |r.value| < |list| && Scan(list, i) == Scan(r.value, |r.value| - 2)
      decreases |list|, 2
    {
      ScanAtForLoop(list, i);
      var b := Locate(list, Target(list[i]));
      if b.Err? {
        return Err(b.error);
      }
      var begin := b.value;
      if begin < 4 || !list[begin - 1].AsmForPrep? {
        return Err(DecompileError("bad for prep"));
      }
      ScanAtFor(list, i, begin);
      r := DecompileFor(list, begin - 4, i);
    }

    /**
     * A backward jump at `i`: the collapsed list the scan goes on from, which
     * is shorter or has a marker fewer, or the error the scan stops with.
     */
    method LoopAtJump(list: seq<Node>, i: nat) returns (r: Result<seq<Node>>)
      requires i < |list| && list[i].Jump? && list[i].offset < 0
      ensures r.Err? ==> Scan(list, i) == Err(r.error)
      ensures r.Ok? ==> (1 <= |r.value| <= |list| && (|r.value| < |list| || Markers(r.value) < Markers(list))
                         && Scan(list, i) == Scan(r.value, |r.value| - 2))
    {
      ScanAtBackJump(list, i);
      var b := Locate(list, Target(list[i]));
      if b.Err? {
        return Err(b.error);
      }
      var begin := b.value;
      if begin > i {
        // the source inserts an empty block at `begin` and meets this jump again, forever
        return Err(Diverges);
      }
      // `DecompileForEach` after a TFORLOOP, `DecompileRepeatUntil` after a test,
      // `DecompileWhile` otherwise: the three are the same code
      CollapseShrinks(list, begin, i);
      var next := CollapseRange(list, begin, i);
      r := Ok(next);
    }

    /** `DecompileFor`: removes the loop's statements one by one and inserts the `for` in their place. */
    method DecompileFor(stmts: seq<Node>, begin: nat, end: nat) returns (r: Result<seq<Node>>)
      requires begin + 3 < |stmts| && stmts[begin + 3].AsmForPrep? && end < |stmts|
      ensures r == ForRewrite(stmts, begin, end)
      decreases |stmts|, 1
    {
      var addr := stmts[begin].address;
      var init, cond, step, prep := stmts[begin], stmts[begin + 1], stmts[begin + 2], stmts[begin + 3];
      var list := Drop(stmts, end);
      list := Drop(list, begin);
      list := Drop(list, begin);
      list := Drop(list, begin);
      if |list| <= begin {
        return Err(OutOfRange);
      }
      list := Drop(list, begin);
      var last := end - 5;
      var body, rest := MoveOut(list, begin, if last - begin + 1 > 0 then last - begin + 1 else 0);
      var recovered :- DecompileLoops(body);
      r := Ok(rest[..begin] + [ForStatement(addr, prep.rvar, init, cond, step, Block(addr, recovered))] + rest[begin..]);
    }

    /** The loop of `DecompileFor` and of the collapses: moves `count` statements at `begin`, one by one, into a new list. */
    method MoveOut(stmts: seq<Node>, begin: nat, count: nat) returns (moved: seq<Node>, left: seq<Node>)
      requires begin + count <= |stmts|
      ensures moved == stmts[begin..begin + count]
      ensures left == stmts[..begin] + stmts[begin + count..]
    {
      moved := [];
      left := stmts;
      var j := 0;
      while j < count
        invariant 0 <= j <= count
        invariant moved == stmts[begin..begin + j]
        invariant left == stmts[..begin] + stmts[begin + j..]
      {
        moved := moved + [left[begin]];
        left := Drop(left, begin);
        j := j + 1;
      }
    }

    /**
     * `DecompileForEach`, `DecompileRepeatUntil` and `DecompileWhile`: moves
     * the statements from `begin` to `end` one by one into a block and
     * inserts it in their place.
     */
    method CollapseRange(stmts: seq<Node>, begin: nat, end: nat) returns (r: seq<Node>)
      requires begin <= end < |stmts|
      ensures r == Collapse(stmts, begin, end)
    {
      var addr := stmts[begin].address;
      var body, list := MoveOut(stmts, begin, end - begin + 1);
      r := list[..begin] + [Block(addr, body)] + list[begin..];
    }

    /** `Decompile`: the main function in a chunk, counted by one pass and then wrapped by the other. */
    method Decompile(assembly: File, fuel: nat) returns (r: Result<Node>)
      modifies this
      ensures r == DecompileFile(assembly, fuel)
    {
      var func :- DecompileFunction(assembly.main);
      var chunk := Chunk(0, [func]);
      var pass1 := new PassRefCounter.RefCounter();
      var o := pass1.Visit(chunk);
      if o.Fail? {
        return Err(o.error);
      }
      // the counts live in the register nodes the pass updated in place
      chunk := PassRefCounter.Annotate(chunk, pass1.counts);
      var pass2 := new PassWrapRegister.RegisterWrapper();
      r := pass2.Visit(chunk, fuel);
    }
  }
}
