/**
 * What the IW6 decompiler's steps promise: the stack set up from the
 * parameters and registers, which slot each case overwrites and with what,
 * the statements the others append, fresh variable names that never
 * repeat, jump labels that name the target instruction, and sub-functions
 * decompiled in order after their parent.
 */
module IW6DecompilerProps {

  import opened Common
  import opened IW6
  import LuiAssembly
  import opened NodeTree
  import opened IW6Decompiler

  /** The absolute value `find_constant` takes. */
  function Abs(i: int): nat
  {
    if i < 0 then -i else i
  }

  /** The identifiers `get_new_variable` returns for the next `k` calls when the counter is at `v`. */
  function FreshNames(v: int, k: nat): (r: seq<Node>)
    ensures |r| == k
  {
    seq(k, j => Identifier(VariableName(v + j)))
  }

  // ---------------------------------------------------------------------------
  // Setup

  lemma {:induction false} ArgNamesShape(n: nat)
    ensures |ArgNames(n)| == n
    ensures forall i :: 0 <= i < n ==> ArgNames(n)[i] == Identifier("arg" + Decimal(i))
  {
    if n > 0 {
      ArgNamesShape(n - 1);
    }
  }

  lemma {:induction false} NilsShape(k: nat)
    ensures |Nils(k)| == k
    ensures forall i :: 0 <= i < k ==> Nils(k)[i] == Nil
  {
    if k > 0 {
      NilsShape(k - 1);
    }
  }

  /**
   * The stack before the first instruction: "arg0", "arg1", … for the
   * parameters unless the function is vararg, then nils up to the register
   * count. A vararg function therefore has `paramCount` fewer slots than registers.
   */
  lemma InitialStackShape(p: Proto)
    ensures var named := if p.varargFlags == 2 then 0 else p.paramCount;
      var nils := if p.registerCount > p.paramCount then p.registerCount - p.paramCount else 0;
      |InitialStack(p)| == named + nils
      && (forall i :: 0 <= i < named ==> InitialStack(p)[i] == Identifier("arg" + Decimal(i)))
      && (forall i :: named <= i < named + nils ==> InitialStack(p)[i] == Nil)
    ensures p.varargFlags != 2 && p.paramCount <= p.registerCount ==> |InitialStack(p)| == p.registerCount
    ensures p.varargFlags == 2 && p.paramCount <= p.registerCount ==> |InitialStack(p)| == p.registerCount - p.paramCount
    ensures ParametersOf(p).vararg <==> p.varargFlags == 2
  {
    var named := if p.varargFlags == 2 then 0 else p.paramCount;
    var nils := if p.registerCount > p.paramCount then p.registerCount - p.paramCount else 0;
    var a: seq<Node> := if p.varargFlags == 2 then [] else ArgNames(p.paramCount);
    ArgNamesShape(p.paramCount);
    NilsShape(nils);
    assert InitialStack(p) == a + Nils(nils);
    assert |a| == named;
    forall i | 0 <= i < named
      ensures InitialStack(p)[i] == Identifier("arg" + Decimal(i))
    {
      assert (a + Nils(nils))[i] == a[i];
    }
    forall i | named <= i < named + nils
      ensures InitialStack(p)[i] == Nil
    {
      assert (a + Nils(nils))[i] == Nils(nils)[i - named];
    }
  }

  // ---------------------------------------------------------------------------
  // Constants and variables

  /** `find_constant` reads the constant at the index's absolute value, so an index and its negation agree. */
  lemma ConstantOfAbs(p: Proto, index: int)
    ensures ConstantOf(p, index) == ConstantOf(p, -index)
    ensures ConstantOf(p, index).Ok? <==> Abs(index) < |p.constants|
    ensures ConstantOf(p, index).Ok? ==> ConstantOf(p, index).value == p.constants[Abs(index)]
    ensures ConstantOf(p, index).Err? ==> ConstantOf(p, index).error == OutOfRange
  {
  }

  /** The counter starts at −1 and is incremented before use, so the first name is "var0". */
  lemma FirstVariable()
    ensures VariableName(-1) == "var0"
  {
    assert Decimal(0) == "0";
  }

  /** Two counter values give two different names: no name is handed out twice. */
  lemma VariableNamesDistinct(v: int, w: int)
    requires v != w
    ensures VariableName(v) != VariableName(w)
  {
    SignedDecimalValue(v + 1);
    SignedDecimalValue(w + 1);
    assert VariableName(v)[3..] == SignedDecimal(v + 1);
    assert VariableName(w)[3..] == SignedDecimal(w + 1);
  }

  /** Fresh names handed out from one counter are pairwise different. */
  lemma FreshNamesDistinct(v: int, k: nat)
    ensures forall i, j :: 0 <= i < j < k ==> FreshNames(v, k)[i] != FreshNames(v, k)[j]
  {
    forall i, j | 0 <= i < j < k
      ensures FreshNames(v, k)[i] != FreshNames(v, k)[j]
    {
      var names := FreshNames(v, k);
      assert names[i] == Identifier(VariableName(v + i));
      assert names[j] == Identifier(VariableName(v + j));
      VariableNamesDistinct(v + i, v + j);
    }
  }

  // ---------------------------------------------------------------------------
  // Cases that overwrite one slot

  /** MOVE overwrites R(A) with R(B) and nothing else; either register missing is out of range. */
  lemma MoveCopies(kst: Kst, p: Proto, f: Frame, inst: LuiAssembly.Instruction, isLast: bool)
    requires OpOf(inst) == MOVE
    ensures InstructionEffect(kst, p, f, inst, isLast)
      == if inst.a < |f.stack| && inst.b < |f.stack| then Ok(f.(stack := f.stack[inst.a := f.stack[inst.b]])) else Err(OutOfRange)
  {
  }

  /** LOADBOOL overwrites R(A) with `true` exactly when B is nonzero. */
  lemma LoadBoolStores(kst: Kst, p: Proto, f: Frame, inst: LuiAssembly.Instruction, isLast: bool)
    requires OpOf(inst) == LOADBOOL
    ensures InstructionEffect(kst, p, f, inst, isLast)
      == if inst.a < |f.stack| then Ok(f.(stack := f.stack[inst.a := Boolean(inst.b != 0)])) else Err(OutOfRange)
  {
  }

  /** GETGLOBAL and GETGLOBAL_MEM overwrite R(A) with the constant at |Bx|. */
  lemma GetGlobalStores(kst: Kst, p: Proto, f: Frame, inst: LuiAssembly.Instruction, isLast: bool)
    requires OpOf(inst) == GETGLOBAL || OpOf(inst) == GETGLOBAL_MEM
    ensures var k := Abs(Int32(inst.bx));
      InstructionEffect(kst, p, f, inst, isLast)
      == if k < |p.constants| && inst.a < |f.stack| then Ok(f.(stack := f.stack[inst.a := kst.toNode(p.constants[k])])) else Err(OutOfRange)
  {
  }

  /** LEN overwrites R(A) with the length of R(B). */
  lemma LenStores(kst: Kst, p: Proto, f: Frame, inst: LuiAssembly.Instruction, isLast: bool)
    requires OpOf(inst) == LEN
    ensures InstructionEffect(kst, p, f, inst, isLast)
      == if inst.a < |f.stack| && inst.b < |f.stack| then Ok(f.(stack := f.stack[inst.a := Length(f.stack[inst.b])])) else Err(OutOfRange)
  {
  }

  /** SELF overwrites R(A) with the method R(B):K(C) and R(A+1) with "this". */
  lemma SelfStores(kst: Kst, p: Proto, f: Frame, inst: LuiAssembly.Instruction, isLast: bool)
    requires OpOf(inst) == SELF
    ensures var k := Abs(Int32(inst.c));
      InstructionEffect(kst, p, f, inst, isLast)
      == if k < |p.constants| && inst.b < |f.stack| && inst.a + 1 < |f.stack|
         then Ok(f.(stack := f.stack[inst.a := Method(f.stack[inst.b], kst.toNode(p.constants[k]))][inst.a + 1 := Identifier("this")]))
         else Err(OutOfRange)
  {
  }

  /**
   * CONCAT overwrites R(A) with the C − B + 1 registers R(B) .. R(C); with
   * C + 1 = B the list is empty, and C + 1 < B is out of range.
   */
  lemma ConcatStores(kst: Kst, p: Proto, f: Frame, inst: LuiAssembly.Instruction, isLast: bool)
    requires OpOf(inst) == CONCAT
    ensures var r := InstructionEffect(kst, p, f, inst, isLast);
      (r.Ok? <==> inst.b <= inst.c + 1 && (inst.b == inst.c + 1 || inst.c + 1 <= |f.stack|) && inst.a < |f.stack|)
      && (r.Ok? ==> (r.value.stmts == f.stmts && r.value.varIndex == f.varIndex
          && r.value.stack[inst.a].Concatenation?
          && |r.value.stack[inst.a].list| == inst.c - inst.b + 1
          && (forall i :: 0 <= i < |r.value.stack[inst.a].list| ==> r.value.stack[inst.a].list[i] == f.stack[inst.b + i])
          && r.value.stack == f.stack[inst.a := r.value.stack[inst.a]]))
      && (r.Err? ==> r.error == OutOfRange)
  {
  }

  /** Every slot-rewriting case keeps the stack's size, the statements and the counter. */
  lemma SlotEffectFrame(kst: Kst, p: Proto, f: Frame, inst: LuiAssembly.Instruction)
    requires StoresSlots(OpOf(inst))
    ensures var r := SlotEffect(kst, p, f, inst);
      (r.Ok? ==> (|r.value.stack| == |f.stack| && r.value.stmts == f.stmts && r.value.varIndex == f.varIndex
         && (forall i :: 0 <= i < |f.stack| && i != inst.a && i != inst.a + 1 ==> r.value.stack[i] == f.stack[i])
         && (OpOf(inst) != SELF ==> r.value.stack == f.stack[inst.a := r.value.stack[inst.a]])))
      && (r.Err? ==> r.error == OutOfRange)
  {
  }

  // ---------------------------------------------------------------------------
  // Cases that append a statement

  /** TEST appends `if [not] R(A) then`, negated exactly when C is 1. */
  lemma TestAppends(kst: Kst, p: Proto, f: Frame, inst: LuiAssembly.Instruction, isLast: bool)
    requires OpOf(inst) == TEST || OpOf(inst) == TEST_R1
    ensures InstructionEffect(kst, p, f, inst, isLast)
      == if inst.a < |f.stack| then Ok(Pushed(f, Test(f.stack[inst.a], inst.c == 1))) else Err(OutOfRange)
  {
  }

  /** EQ appends R(B) compared with RK(C): `not_equal` when A is 0, `equal` otherwise. */
  lemma EqAppends(kst: Kst, p: Proto, f: Frame, inst: LuiAssembly.Instruction, isLast: bool)
    requires OpOf(inst) == EQ
    ensures var r := InstructionEffect(kst, p, f, inst, isLast);
      var rk := RegisterOrConstant(kst, p, f.stack, inst);
      (r.Ok? <==> inst.b < |f.stack| && rk.Ok?)
      && (r.Ok? ==> (r.value.stack == f.stack && r.value.varIndex == f.varIndex
          && r.value.stmts == f.stmts + [if inst.a == 0 then NotEqual(f.stack[inst.b], rk.value) else Equal(f.stack[inst.b], rk.value)]))
      && (r.Err? ==> r.error == OutOfRange)
  {
  }

  /**
   * RETURN of the last instruction, or with B = 0, appends nothing; any
   * other RETURN appends the B − 1 values R(A) .. R(A+B−2).
   */
  lemma ReturnAppends(kst: Kst, p: Proto, f: Frame, inst: LuiAssembly.Instruction, isLast: bool)
    requires OpOf(inst) == RETURN
    ensures var r := InstructionEffect(kst, p, f, inst, isLast);
      (isLast || inst.b == 0 ==> r == Ok(f))
      && (!isLast && inst.b == 1 ==> r == Ok(Pushed(f, Return([]))))
      && (!isLast && inst.b > 1 ==>
          r == if inst.a + inst.b - 1 <= |f.stack| then Ok(Pushed(f, Return(f.stack[inst.a..inst.a + inst.b - 1]))) else Err(OutOfRange))
  {
  }

  /** JMP appends a jump to the label of instruction index + 4 + 4·sBx. */
  lemma JumpAppends(kst: Kst, p: Proto, f: Frame, inst: LuiAssembly.Instruction, isLast: bool)
    requires OpOf(inst) == JMP
    ensures InstructionEffect(kst, p, f, inst, isLast) == Ok(Pushed(f, Jump(Identifier(JumpLabel(inst.index, inst.sbx)))))
  {
  }

  /**
   * A jump label is "LOC_" and upper-case hexadecimal digits whose value is
   * index + 4 + 4·sBx taken modulo 2^32.
   */
  lemma JumpLabelValue(index: nat, sbx: int)
    ensures var l := JumpLabel(index, sbx);
      |l| > 4 && l[..4] == "LOC_"
      && HexDigitsValue(l[4..]) == (index + 4 + sbx * 4) % 0x1_0000_0000
      && forall i :: 4 <= i < |l| ==> IsDigit(l[i]) || 'A' <= l[i] <= 'F'
  {
    var n := (index + 4 + sbx * 4) % 0x1_0000_0000;
    HexValue(n);
    assert JumpLabel(index, sbx)[4..] == Hex(n);
  }

  /**
   * Instructions are four bytes apart, so a jump at instruction `pos` names
   * the byte offset of instruction pos + 1 + sBx, the one the jump reaches.
   */
  lemma JumpToInstruction(pos: nat, sbx: int)
    requires 0 <= pos + 1 + sbx && 4 * (pos + 1 + sbx) < 0x1_0000_0000
    ensures HexDigitsValue(JumpLabel(4 * pos, sbx)[4..]) == 4 * (pos + 1 + sbx)
  {
    JumpLabelValue(4 * pos, sbx);
    assert 4 * pos + 4 + sbx * 4 == 4 * (pos + 1 + sbx);
  }

  /** NEWTABLE takes a fresh variable, stores it in R(A) and appends its assignment of `{}`. */
  lemma NewTableAppends(kst: Kst, p: Proto, f: Frame, inst: LuiAssembly.Instruction, isLast: bool)
    requires OpOf(inst) == NEWTABLE
    ensures var v := Identifier(VariableName(f.varIndex));
      InstructionEffect(kst, p, f, inst, isLast)
      == if inst.a < |f.stack|
         then Ok(Frame(f.stack[inst.a := v], f.stmts + [Assign(v, NewTable)], f.varIndex + 1))
         else Err(OutOfRange)
  {
  }

  // ---------------------------------------------------------------------------
  // decompile_call

  /**
   * Binding `k` results overwrites R(base) .. R(base+k−1) with the next `k`
   * fresh names, advances the counter by `k` and touches nothing else; it
   * fails exactly when those registers run past the stack.
   */
  lemma {:induction false} BindingsShape(f: Frame, base: nat, k: nat)
    ensures var r := Bindings(f, base, k);
      (r.Ok? <==> k == 0 || base + k <= |f.stack|)
      && (r.Ok? ==> (r.value.vars == FreshNames(f.varIndex, k)
          && r.value.frame.varIndex == f.varIndex + k && r.value.frame.stmts == f.stmts
          && |r.value.frame.stack| == |f.stack|
          && (forall j :: 0 <= j < k ==> r.value.frame.stack[base + j] == r.value.vars[j])
          && (forall i :: 0 <= i < |f.stack| && !(base <= i < base + k) ==> r.value.frame.stack[i] == f.stack[i])))
      && (r.Err? ==> r.error == OutOfRange)
  {
    if k > 0 {
      BindingsShape(f, base, k - 1);
    }
  }

  /** The arguments R(A+1) .. R(A+argNum), from R(A+2) for a method callee; none when argNum ≤ 0. */
  lemma CallArgumentsShape(stack: seq<Node>, a: nat, argNum: int)
    ensures var r := CallArguments(stack, a, argNum);
      (argNum <= 0 ==> r == Ok([]))
      && (argNum > 0 ==>
          (r.Ok? <==> a < |stack| && (a + argNum + 1 <= |stack| || (stack[a].Method? && argNum == 1)))
          && (r.Ok? ==> var first := if stack[a].Method? then 2 else 1;
                |r.value| == argNum + 1 - first
                && forall i :: 0 <= i < |r.value| ==> r.value[i] == stack[a + first + i]))
      && (r.Err? ==> r.error == OutOfRange)
  {
  }

  /** A call fails only on a register out of range; when it succeeds R(A) and the arguments exist. */
  lemma CallErrors(f: Frame, inst: LuiAssembly.Instruction)
    ensures var r := CallEffect(f, inst);
      (r.Ok? ==> inst.a < |f.stack| && CallArguments(f.stack, inst.a, Int32(inst.b - 1)).Ok?)
      && (r.Err? ==> r.error == OutOfRange)
  {
    var retNum := Int32(inst.c - 1);
    CallArgumentsShape(f.stack, inst.a, Int32(inst.b - 1));
    if inst.a < |f.stack| && retNum > 0 {
      BindingsShape(f, ResultBase(f.stack[inst.a], inst.a), ResultCount(f.stack[inst.a], retNum));
    }
  }

  /** With C − 1 ≤ 0 results the statement is the bare call of R(A) and nothing else changes. */
  lemma CallWithoutResults(f: Frame, inst: LuiAssembly.Instruction)
    requires Int32(inst.c - 1) <= 0
    ensures var r := CallEffect(f, inst);
      var args := CallArguments(f.stack, inst.a, Int32(inst.b - 1));
      r.Ok? ==> (inst.a < |f.stack| && args.Ok?
        && r.value == Made(Call(f.stack[inst.a], Parameters(args.value, false)), f))
  {
  }

  /**
   * With C − 1 > 0 results the statement assigns the call of R(A) to that
   * many fresh variables, stored from R(A) on; for `ipairs` it is two,
   * stored in R(A+3) and R(A+4). No other slot changes.
   */
  lemma CallWithResults(f: Frame, inst: LuiAssembly.Instruction)
    requires Int32(inst.c - 1) > 0
    ensures var r := CallEffect(f, inst);
      var args := CallArguments(f.stack, inst.a, Int32(inst.b - 1));
      r.Ok? ==> (inst.a < |f.stack| && args.Ok?
        && var k := ResultCount(f.stack[inst.a], Int32(inst.c - 1));
           var base := ResultBase(f.stack[inst.a], inst.a);
           r.value.node == Assign(Parameters(FreshNames(f.varIndex, k), false), Call(f.stack[inst.a], Parameters(args.value, false)))
           && r.value.frame.varIndex == f.varIndex + k && r.value.frame.stmts == f.stmts
           && |r.value.frame.stack| == |f.stack|
           && (forall j :: 0 <= j < k ==> r.value.frame.stack[base + j] == FreshNames(f.varIndex, k)[j])
           && (forall i :: 0 <= i < |f.stack| && !(base <= i < base + k) ==> r.value.frame.stack[i] == f.stack[i]))
  {
    var args := CallArguments(f.stack, inst.a, Int32(inst.b - 1));
    CallNeedsCallee(f, inst);
    if args.Ok? && inst.a < |f.stack| {
      CallUnfolds(f, inst, args.value);
      CallOfShape(f, inst.a, f.stack[inst.a], args.value, Int32(inst.c - 1));
    }
  }

  /** With results, the call of `callee` is assigned to the fresh names its bindings store. */
  lemma CallOfShape(f: Frame, a: nat, callee: Node, args: seq<Node>, retNum: int)
    requires retNum > 0
    ensures var r := CallOf(f, a, callee, args, retNum);
      r.Ok? ==> (var k := ResultCount(callee, retNum);
        var base := ResultBase(callee, a);
        r.value.node == Assign(Parameters(FreshNames(f.varIndex, k), false), Call(callee, Parameters(args, false)))
        && r.value.frame.varIndex == f.varIndex + k && r.value.frame.stmts == f.stmts
        && |r.value.frame.stack| == |f.stack|
        && (forall j :: 0 <= j < k ==> r.value.frame.stack[base + j] == FreshNames(f.varIndex, k)[j])
        && (forall i :: 0 <= i < |f.stack| && !(base <= i < base + k) ==> r.value.frame.stack[i] == f.stack[i]))
  {
    BindingsShape(f, ResultBase(callee, a), ResultCount(callee, retNum));
  }

  /** A call that succeeds had R(A) and its arguments. */
  lemma CallNeedsCallee(f: Frame, inst: LuiAssembly.Instruction)
    ensures CallEffect(f, inst).Ok? ==> inst.a < |f.stack| && CallArguments(f.stack, inst.a, Int32(inst.b - 1)).Ok?
  {
  }

  /** With R(A) and its arguments read, the call is made from them. */
  lemma CallUnfolds(f: Frame, inst: LuiAssembly.Instruction, args: seq<Node>)
    requires inst.a < |f.stack|
    requires CallArguments(f.stack, inst.a, Int32(inst.b - 1)) == Ok(args)
    ensures CallEffect(f, inst) == CallOf(f, inst.a, f.stack[inst.a], args, Int32(inst.c - 1))
  {
    assert SlotOf(f.stack, inst.a) == Ok(f.stack[inst.a]);
  }

  /** `ipairs` binds its two results to R(A+3) and R(A+4); any other callee binds C − 1 results from R(A). */
  lemma ResultTargets(callee: Node, a: nat, retNum: nat)
    ensures callee == Identifier("ipairs") ==> ResultBase(callee, a) == a + 3 && ResultCount(callee, retNum) == 2
    ensures callee != Identifier("ipairs") ==> ResultBase(callee, a) == a && ResultCount(callee, retNum) == retNum
  {
  }

  // ---------------------------------------------------------------------------
  // The switch as a whole

  /** No opcode is in two of the three groups of cases. */
  lemma CasesDisjoint(op: Opcode)
    ensures !(StoresSlots(op) && AddsStatement(op))
    ensures !(StoresSlots(op) && Skipped(op))
    ensures !(AddsStatement(op) && Skipped(op))
  {
  }

  /** A case with an empty body leaves the frame as it was. */
  lemma SkippedKeepsFrame(kst: Kst, p: Proto, f: Frame, inst: LuiAssembly.Instruction, isLast: bool)
    requires Skipped(OpOf(inst))
    ensures InstructionEffect(kst, p, f, inst, isLast) == Ok(f)
  {
    CasesDisjoint(OpOf(inst));
  }

  /** The statement-appending cases keep the stack's size, append at most one statement and never lower the counter. */
  lemma StatementEffectFrame(kst: Kst, p: Proto, f: Frame, inst: LuiAssembly.Instruction, isLast: bool)
    requires AddsStatement(OpOf(inst))
    ensures var r := StatementEffect(kst, p, f, inst, isLast);
      (r.Ok? ==> (|r.value.stack| == |f.stack| && f.varIndex <= r.value.varIndex
         && f.stmts <= r.value.stmts && |r.value.stmts| <= |f.stmts| + 1))
      && (r.Err? ==> r.error == OutOfRange)
  {
    var op := OpOf(inst);
    if op == CALL_I || op == CALL_I_R1 {
      CallErrors(f, inst);
      if Int32(inst.c - 1) > 0 {
        CallWithResults(f, inst);
      }
    }
  }

  /**
   * Every instruction keeps the stack's size, only appends statements (a
   * label and at most one more) and never lowers the counter. Its only
   * errors are a register or constant out of range, and the disassembler
   * error naming an opcode without a case.
   */
  lemma StepFrame(kst: Kst, p: Proto, f: Frame, i: nat)
    ensures var r := InstructionStep(kst, p, f, i);
      (r.Ok? ==> (|r.value.stack| == |f.stack| && f.varIndex <= r.value.varIndex
         && f.stmts <= r.value.stmts && |r.value.stmts| <= |f.stmts| + 2))
      && (r.Err? && i < |p.instructions| ==>
          var op := OpOf(p.instructions[i]);
          (r.error == OutOfRange <==> StoresSlots(op) || AddsStatement(op))
          && (r.error == UnhandledOpcode(op) <==> !(StoresSlots(op) || AddsStatement(op) || Skipped(op))))
  {
    if i < |p.instructions| {
      var inst := p.instructions[i];
      var g := if inst.index in p.labels then Pushed(f, Label(p.labels[inst.index])) else f;
      var isLast := p.instructions[|p.instructions| - 1].index == inst.index;
      var op := OpOf(inst);
      CasesDisjoint(op);
      if StoresSlots(op) {
        SlotEffectFrame(kst, p, g, inst);
      } else if AddsStatement(op) {
        StatementEffectFrame(kst, p, g, inst, isLast);
      }
    }
  }

  /**
   * `r`, when it succeeds, is `f` grown by at most `n` statements: the same
   * stack size, the statements of `f` followed by at most `n` more, and a
   * counter no lower.
   */
  predicate Grows(f: Frame, r: Result<Frame>, n: int)
  {
    r.Ok? ==> (|r.value.stack| == |f.stack| && f.varIndex <= r.value.varIndex
      && f.stmts <= r.value.stmts && |r.value.stmts| <= |f.stmts| + n)
  }

  /** A run of steps that each grow the frame by at most two statements grows it by at most `2k`. */
  lemma {:induction false} RunGrows(step: (Frame, nat) -> Result<Frame>, f: Frame, k: nat)
    requires forall g: Frame, i: nat :: Grows(g, step(g, i), 2)
    ensures Grows(f, Run(step, f, k), 2 * k)
  {
    if k > 0 {
      RunGrows(step, f, k - 1);
      var g := Run(step, f, k - 1);
      if g.Ok? {
        var r := step(g.value, k - 1);
        assert Grows(g.value, r, 2);
        if r.Ok? {
          assert r.value.stmts[..|g.value.stmts|] == g.value.stmts;
        }
      }
    }
  }

  /** Running instructions keeps the stack's size, only appends statements (at most two per instruction) and never lowers the counter. */
  lemma RunFrame(kst: Kst, p: Proto, f: Frame, k: nat)
    ensures Grows(f, InstructionsRun(kst, p, f, k), 2 * k)
  {
    var step := StepOf(kst, p);
    forall g: Frame, i: nat
      ensures Grows(g, step(g, i), 2)
    {
      StepFrame(kst, p, g, i);
    }
    RunGrows(step, f, k);
  }

  // ---------------------------------------------------------------------------
  // decompile_function and decompile

  /**
   * A decompiled function carries the prototype's name and parameters, and
   * one function per sub-function, in the prototype's order and named after
   * it; the counter never goes back, so sub-functions take names after
   * every name their parent took.
   */
  lemma {:induction false} FunctionShape(kst: Kst, p: Proto, v: int)
    ensures var r := FunctionResult(kst, p, v);
      r.Ok? ==> (v <= r.value.varIndex
        && r.value.node.Function? && r.value.node.name == Identifier(p.name) && r.value.node.params == ParametersOf(p)
        && r.value.node.block.Block? && |r.value.node.subFuncs| == |p.subFuncs|
        && forall i :: 0 <= i < |p.subFuncs| ==>
             r.value.node.subFuncs[i].Function? && r.value.node.subFuncs[i].name == Identifier(p.subFuncs[i].name))
    decreases p, 1
  {
    var f := InstructionsRun(kst, p, Frame(InitialStack(p), [], v), p.instructionCount);
    RunFrame(kst, p, Frame(InitialStack(p), [], v), p.instructionCount);
    if f.Ok? {
      SubFunctionsShape(kst, p.subFuncs, f.value.varIndex);
    }
  }

  /** The sub-functions' results are functions named after the prototypes, in order; the counter never goes back. */
  lemma {:induction false} SubFunctionsShape(kst: Kst, ps: seq<Proto>, v: int)
    ensures var r := SubFunctionResults(kst, ps, v);
      r.Ok? ==> v <= r.value.varIndex && NamedAfter(r.value.nodes, ps)
    decreases ps, 0
  {
    if |ps| > 0 {
      var init, last := ps[..|ps| - 1], ps[|ps| - 1];
      SubFunctionsShape(kst, init, v);
      SubsOneMore(kst, ps, v);
      var r := SubFunctionResults(kst, init, v);
      if r.Ok? {
        FunctionShape(kst, last, r.value.varIndex);
        var d := FunctionResult(kst, last, r.value.varIndex);
        if d.Ok? {
          NamedSnoc(r.value.nodes, init, d.value.node, last);
          assert init + [last] == ps;
        }
      }
    }
  }

  /** Function `i` of `nodes` is named after prototype `i` of `ps`. */
  predicate NamedAfter(nodes: seq<Node>, ps: seq<Proto>)
  {
    |nodes| == |ps| && forall i :: 0 <= i < |ps| ==> nodes[i].Function? && nodes[i].name == Identifier(ps[i].name)
  }

  lemma NamedSnoc(nodes: seq<Node>, ps: seq<Proto>, x: Node, p: Proto)
    requires NamedAfter(nodes, ps) && x.Function? && x.name == Identifier(p.name)
    ensures NamedAfter(nodes + [x], ps + [p])
  {
  }

  /** The sub-function loop: the ones before the last, then the last on the counter they left. */
  lemma SubsOneMore(kst: Kst, ps: seq<Proto>, v: int)
    requires |ps| > 0
    ensures var r := SubFunctionResults(kst, ps, v);
      var prev := SubFunctionResults(kst, ps[..|ps| - 1], v);
      r.Ok? ==> (prev.Ok? && var d := FunctionResult(kst, ps[|ps| - 1], prev.value.varIndex);
        d.Ok? && r.value == DecompiledList(prev.value.nodes + [d.value.node], d.value.varIndex))
  {
  }

  /** The script holds the main function, named after the file's main prototype. */
  lemma ScriptShape(kst: Kst, main: Proto)
    ensures var r := ScriptOf(kst, main);
      r.Ok? ==> r.value.Script? && r.value.main.Function? && r.value.main.name == Identifier(main.name)
  {
    FunctionShape(kst, main, -1);
  }

  /** The output is the two banner lines followed by the script's text, which ends in a newline. */
  lemma OutputShape(main: Node)
    ensures var out := OutputText(Script(main));
      out[..|Banner|] == Banner && out[|out| - 1] == '\n'
      && out == Banner + Text(main, 0) + "\n"
  {
    ScriptText(main, 0);
    BannerFirst(Text(main, 0));
  }

  /** The banner, then any text and a newline. */
  lemma BannerFirst(t: string)
    ensures var out := Banner + (t + "\n");
      out[..|Banner|] == Banner && out[|out| - 1] == '\n' && out == Banner + t + "\n"
  {
  }
}
