/**
 * The IW6 decompiler (src/IW6/decompiler.cpp): a symbolic register stack per
 * function. Each instruction either rewrites stack slots with the expression
 * the register now holds, or appends a statement built from them to the
 * function's block; sub-functions follow their parent's instructions.
 *
 * The pure functions say what each step does to a `Frame` (the stack, the
 * statements so far and the variable counter); the `Decompiler` class runs
 * the source's loops over a `FunctionState` object and is proved to reach
 * the same frame or the same error. Every `.at()` that is out of range is
 * `Err(OutOfRange)`; an opcode without a `case` is the disassembler error
 * the source raises.
 */
module IW6Decompiler {

  import opened Common
  import opened IW6
  import IW6Resolver
  import LuiAssembly
  import opened NodeTree

  /**
   * The function record as the decompiler reads it: the counts and lists
   * the disassembler fills in, the function's name and the jump labels by
   * instruction index. The header that declares these two is not part of
   * this model.
   */
  datatype Proto = Proto(
    name: string,
    paramCount: nat,
    varargFlags: nat,
    registerCount: nat,
    instructionCount: nat,
    instructions: seq<LuiAssembly.Instruction>,
    constants: seq<LuiAssembly.Constant>,
    labels: map<nat, string>,
    subFuncs: seq<Proto>)

  /**
   * `lui::kst::to_node`, and `to_literal` followed by `to_node`: how a
   * constant becomes a node is not part of this model, so it is a parameter.
   */
  datatype Kst = Kst(toNode: LuiAssembly.Constant -> Node, toLiteral: LuiAssembly.Constant -> Node)

  /** What decompiling a function has built so far: `func.stack`, the block's statements, `var_index`. */
  datatype Frame = Frame(stack: seq<Node>, stmts: seq<Node>, varIndex: int)

  /** A node together with the frame after building it. */
  datatype Made = Made(node: Node, frame: Frame)

  /** Fresh variables and the frame after binding them. */
  datatype Bound = Bound(vars: seq<Node>, frame: Frame)

  /** A decompiled function and the variable counter after it. */
  datatype Decompiled = Decompiled(node: Node, varIndex: int)

  /** Decompiled functions, in order, and the variable counter after them. */
  datatype DecompiledList = DecompiledList(nodes: seq<Node>, varIndex: int)

  // ---------------------------------------------------------------------------
  // Helpers of the switch

  /** `opcode(inst->OP)`: the `std::uint8_t` field. */
  function OpOf(inst: LuiAssembly.Instruction): Opcode
  {
    inst.op % 0x100
  }

  /** The conversion of a `std::uint32_t` value to `std::int32_t`. */
  function Int32(x: int): int
  {
    var u := x % 0x1_0000_0000;
    if u < 0x8000_0000 then u else u - 0x1_0000_0000
  }

  /** `func.stack.at(i)` */
  function SlotOf(stack: seq<Node>, i: int): (r: Result<Node>)
  {
    if 0 <= i < |stack| then Ok(stack[i]) else Err(OutOfRange)
  }

  /** `func.stack.at(i)` for `lo <= i < hi`, in order; nothing is read when `hi <= lo`. */
  function Slots(stack: seq<Node>, lo: int, hi: int): (r: Result<seq<Node>>)
  {
    if hi <= lo then Ok([]) else if 0 <= lo && hi <= |stack| then Ok(stack[lo..hi]) else Err(OutOfRange)
  }

  /** `func.stack.at(i) = n` */
  function Stored(f: Frame, i: int, n: Node): (r: Result<Frame>)
  {
    if 0 <= i < |f.stack| then Ok(f.(stack := f.stack[i := n])) else Err(OutOfRange)
  }

  /** `func.node->block.as_block->stmts.push_back(n)` */
  function Pushed(f: Frame, n: Node): Frame
  {
    f.(stmts := f.stmts + [n])
  }

  /** `find_constant`: the constant at the index's absolute value. */
  function ConstantOf(p: Proto, index: int): Result<LuiAssembly.Constant>
  {
    var k := if index < 0 then -index else index;
    if k < |p.constants| then Ok(p.constants[k]) else Err(OutOfRange)
  }

  /** `find_constant(...).to_node()` */
  function ConstantNode(kst: Kst, p: Proto, index: int): Result<Node>
  {
    var k :- ConstantOf(p, index);
    Ok(kst.toNode(k))
  }

  /**
   * The RK operand: the constant at C when `sZero` is set, else register C.
   * The source also tests `C < 0`, which never holds for the unsigned field.
   */
  function RegisterOrConstant(kst: Kst, p: Proto, stack: seq<Node>, inst: LuiAssembly.Instruction): Result<Node>
  {
    if inst.szero then ConstantNode(kst, p, Int32(inst.c)) else SlotOf(stack, inst.c)
  }

  /** `get_new_variable` when the counter is `v`: it increments first, so the name is "var" and v + 1. */
  function VariableName(v: int): string
  {
    "var" + SignedDecimal(v + 1)
  }

  /** The label a jump names: "LOC_" and the hexadecimal `std::uint32_t` sum index + 4 + 4·sBx. */
  function JumpLabel(index: nat, sbx: int): string
  {
    "LOC_" + Hex((index + 4 + sbx * 4) % 0x1_0000_0000)
  }

  /** EQ and EQ_BK: operand A zero means the comparison is negated. */
  function Comparison(a: nat, l: Node, r: Node): Node
  {
    if a == 0 then NotEqual(l, r) else Equal(l, r)
  }

  /**
   * The CONCAT operands R(B) .. R(C). The count C − B + 1 is unsigned: when
   * C + 1 < B it wraps to a huge number and the loop reads past the stack.
   */
  function ConcatItems(stack: seq<Node>, b: nat, c: nat): Result<seq<Node>>
  {
    if c + 1 < b then Err(OutOfRange) else Slots(stack, b, c + 1)
  }

  // ---------------------------------------------------------------------------
  // decompile_call

  /**
   * `k` fresh variables bound to the slots from `base` on: each takes the
   * next name from the counter and overwrites its slot.
   */
  function Bindings(f: Frame, base: nat, k: nat): Result<Bound>
  {
    if k == 0 then Ok(Bound([], f))
    else
      var b :- Bindings(f, base, k - 1);
      var v := Identifier(VariableName(b.frame.varIndex));
      var g :- Stored(b.frame.(varIndex := b.frame.varIndex + 1), base + k - 1, v);
      Ok(Bound(b.vars + [v], g))
  }

  /** The arguments of a call: R(A+1) .. R(A+argNum), from R(A+2) when R(A) is a method. */
  function CallArguments(stack: seq<Node>, a: nat, argNum: int): Result<seq<Node>>
  {
    if argNum <= 0 then Ok([])
    else
      var callee :- SlotOf(stack, a);
      Slots(stack, a + (if callee.Method? then 2 else 1), a + argNum + 1)
  }

  /** The first slot that receives a call's results: R(A+3) for `ipairs`, R(A) otherwise. */
  function ResultBase(callee: Node, a: nat): nat
  {
    if callee == Identifier("ipairs") then a + 3 else a
  }

  /** How many results a call binds: two for `ipairs`, C − 1 otherwise. */
  function ResultCount(callee: Node, retNum: nat): nat
  {
    if callee == Identifier("ipairs") then 2 else retNum
  }

  /**
   * `decompile_call`: a call of R(A) with B − 1 arguments. With C − 1 > 0
   * results, fresh variables receive them (two, in R(A+3) and R(A+4), for
   * `ipairs`) and the statement is their assignment; otherwise it is the bare call.
   */
  function CallEffect(f: Frame, inst: LuiAssembly.Instruction): Result<Made>
  {
    var argNum := Int32(inst.b - 1);
    var retNum := Int32(inst.c - 1);
    var args :- CallArguments(f.stack, inst.a, argNum);
    var callee :- SlotOf(f.stack, inst.a);
    CallOf(f, inst.a, callee, args, retNum)
  }

  /** The statement of a call of `callee` in R(a) with `args` once both are read. */
  function CallOf(f: Frame, a: nat, callee: Node, args: seq<Node>, retNum: int): Result<Made>
  {
    var call := Call(callee, Parameters(args, false));
    if retNum > 0 then
      var b :- Bindings(f, ResultBase(callee, a), ResultCount(callee, retNum));
      Ok(Made(Assign(Parameters(b.vars, false), call), b.frame))
    else
      Ok(Made(call, f))
  }

  // ---------------------------------------------------------------------------
  // decompile_instruction

  /** The cases that only rewrite stack slots. */
  predicate StoresSlots(op: Opcode)
  {
    op == GETFIELD || op == GETFIELD_R1 || op == GETGLOBAL || op == GETGLOBAL_MEM || op == MOVE || op == SELF
    || op == GETTABLE_S || op == GETTABLE || op == LOADBOOL || op == LOADK || op == LEN || op == CONCAT
    || op == CLOSURE || op == VARARG
  }

  /** The cases that append a statement (and, for calls and tables, bind variables). */
  predicate AddsStatement(op: Opcode)
  {
    op == TEST || op == TEST_R1 || op == CALL_I || op == CALL_I_R1 || op == EQ || op == EQ_BK || op == RETURN
    || op == SETFIELD || op == SETFIELD_R1 || op == SETGLOBAL || op == JMP || op == NEWTABLE
  }

  /** The cases whose body is empty. */
  predicate Skipped(op: Opcode)
  {
    op in {TFORLOOP, SETTABLE_S, SETTABLE_S_BK, SETTABLE, SETTABLE_BK, TAILCALL_I, LOADNIL, CALL, TAILCALL,
      GETUPVAL, SETUPVAL, ADD, ADD_BK, SUB, SUB_BK, MUL, MUL_BK, DIV, DIV_BK, MOD, MOD_BK, POW, POW_BK,
      UNM, NOT, LT, LT_BK, LE, LE_BK, TESTSET, FORPREP, FORLOOP, SETLIST, CLOSE, TAILCALL_I_R1,
      SETUPVAL_R1, NOT_R1, DATA}
  }

  /** The slot-rewriting cases of the switch. */
  function SlotEffect(kst: Kst, p: Proto, f: Frame, inst: LuiAssembly.Instruction): Result<Frame>
    requires StoresSlots(OpOf(inst))
  {
    var op := OpOf(inst);
    if op == GETFIELD || op == GETFIELD_R1 then
      var key :- ConstantNode(kst, p, Int32(inst.c));
      var obj :- SlotOf(f.stack, inst.b);
      Stored(f, inst.a, Field(obj, key))
    else if op == GETGLOBAL || op == GETGLOBAL_MEM then
      var k :- ConstantNode(kst, p, Int32(inst.bx));
      Stored(f, inst.a, k)
    else if op == MOVE then
      var v :- SlotOf(f.stack, inst.b);
      Stored(f, inst.a, v)
    else if op == SELF then
      var key :- ConstantNode(kst, p, Int32(inst.c));
      var obj :- SlotOf(f.stack, inst.b);
      var g :- Stored(f, inst.a, Method(obj, key));
      Stored(g, inst.a + 1, Identifier("this"))
    else if op == GETTABLE_S || op == GETTABLE then
      var key :- RegisterOrConstant(kst, p, f.stack, inst);
      var obj :- SlotOf(f.stack, inst.b);
      Stored(f, inst.a, Field(obj, key))
    else if op == LOADBOOL then
      Stored(f, inst.a, Boolean(inst.b != 0))
    else if op == LOADK then
      var k :- ConstantOf(p, Int32(inst.bx));
      Stored(f, inst.a, if k.dataType == LuiAssembly.TSTRING then kst.toLiteral(k) else kst.toNode(k))
    else if op == LEN then
      var v :- SlotOf(f.stack, inst.b);
      Stored(f, inst.a, Length(v))
    else if op == CONCAT then
      var items :- ConcatItems(f.stack, inst.b, inst.c);
      Stored(f, inst.a, Concatenation(items))
    else if op == CLOSURE then
      if inst.bx < |p.subFuncs| then Stored(f, inst.a, Identifier(p.subFuncs[inst.bx].name)) else Err(OutOfRange)
    else
      Stored(f, inst.a, Vararg)
  }

  /** The statement-appending cases of the switch; `isLast` says the instruction has the last one's index. */
  function StatementEffect(kst: Kst, p: Proto, f: Frame, inst: LuiAssembly.Instruction, isLast: bool): Result<Frame>
    requires AddsStatement(OpOf(inst))
  {
    var op := OpOf(inst);
    if op == TEST || op == TEST_R1 then
      var c :- SlotOf(f.stack, inst.a);
      Ok(Pushed(f, Test(c, inst.c == 1)))
    else if op == CALL_I || op == CALL_I_R1 then
      var m :- CallEffect(f, inst);
      Ok(Pushed(m.frame, m.node))
    else if op == EQ then
      var l :- SlotOf(f.stack, inst.b);
      var r :- RegisterOrConstant(kst, p, f.stack, inst);
      Ok(Pushed(f, Comparison(inst.a, l, r)))
    else if op == EQ_BK then
      var l :- ConstantNode(kst, p, Int32(inst.b));
      var r :- SlotOf(f.stack, inst.c);
      Ok(Pushed(f, Comparison(inst.a, l, r)))
    else if op == RETURN then
      if isLast || inst.b == 0 then Ok(f)
      else
        var vs :- Slots(f.stack, inst.a, inst.a + inst.b - 1);
        Ok(Pushed(f, Return(vs)))
    else if op == SETFIELD || op == SETFIELD_R1 then
      var obj :- SlotOf(f.stack, inst.a);
      var key :- ConstantNode(kst, p, Int32(inst.b));
      var data :- RegisterOrConstant(kst, p, f.stack, inst);
      Ok(Pushed(f, Assign(Field(obj, key), data)))
    else if op == SETGLOBAL then
      var k :- ConstantNode(kst, p, Int32(inst.bx));
      var v :- SlotOf(f.stack, inst.a);
      Ok(Pushed(f, Assign(k, v)))
    else if op == JMP then
      Ok(Pushed(f, Jump(Identifier(JumpLabel(inst.index, inst.sbx)))))
    else
      var v := Identifier(VariableName(f.varIndex));
      var g :- Stored(f.(varIndex := f.varIndex + 1), inst.a, v);
      Ok(Pushed(g, Assign(v, NewTable)))
  }

  /** The switch of `decompile_instruction`. */
  function InstructionEffect(kst: Kst, p: Proto, f: Frame, inst: LuiAssembly.Instruction, isLast: bool): Result<Frame>
  {
    var op := OpOf(inst);
    if StoresSlots(op) then SlotEffect(kst, p, f, inst)
    else if AddsStatement(op) then StatementEffect(kst, p, f, inst, isLast)
    else if Skipped(op) then Ok(f)
    else Err(UnhandledOpcode(op))
  }

  /** `decompile_instruction(func, i)`: a label statement first when the instruction has one, then the switch. */
  function InstructionStep(kst: Kst, p: Proto, f: Frame, i: nat): Result<Frame>
  {
    if i >= |p.instructions| then Err(OutOfRange)
    else
      var inst := p.instructions[i];
      var g := if inst.index in p.labels then Pushed(f, Label(p.labels[inst.index])) else f;
      InstructionEffect(kst, p, g, inst, p.instructions[|p.instructions| - 1].index == inst.index)
  }

  /** `decompile_instruction` as a function of the frame and the index. */
  function StepOf(kst: Kst, p: Proto): (Frame, nat) -> Result<Frame>
  {
    (g: Frame, i: nat) => InstructionStep(kst, p, g, i)
  }

  /** `k` steps of `step` from `f`, in order, stopping at the first error. */
  function Run(step: (Frame, nat) -> Result<Frame>, f: Frame, k: nat): Result<Frame>
  {
    if k == 0 then Ok(f)
    else
      var g :- Run(step, f, k - 1);
      step(g, k - 1)
  }

  /** The first `k` instructions, in order. */
  function InstructionsRun(kst: Kst, p: Proto, f: Frame, k: nat): Result<Frame>
  {
    Run(StepOf(kst, p), f, k)
  }

  // ---------------------------------------------------------------------------
  // decompile_function and decompile

  /** The parameter identifiers "arg0" .. "arg(n−1)". */
  function ArgNames(n: nat): seq<Node>
  {
    if n == 0 then [] else ArgNames(n - 1) + [Identifier("arg" + Decimal(n - 1))]
  }

  /** `k` nils. */
  function Nils(k: nat): seq<Node>
  {
    if k == 0 then [] else Nils(k - 1) + [Nil]
  }

  /**
   * The stack before the first instruction: the parameters unless the
   * function is vararg (flags 2), then one nil per register from the
   * parameter count up to the register count.
   */
  function InitialStack(p: Proto): seq<Node>
  {
    (if p.varargFlags == 2 then [] else ArgNames(p.paramCount))
    + Nils(if p.registerCount > p.paramCount then p.registerCount - p.paramCount else 0)
  }

  /** The parameter list: " ... " for a vararg function, else the parameter identifiers. */
  function ParametersOf(p: Proto): Node
  {
    if p.varargFlags == 2 then Parameters([], true) else Parameters(ArgNames(p.paramCount), false)
  }

  /**
   * `decompile_function(p)` with the counter at `v`: the instructions, then
   * each sub-function in order, continuing the same counter.
   */
  function FunctionResult(kst: Kst, p: Proto, v: int): Result<Decompiled>
    decreases p, 1
  {
    var f :- InstructionsRun(kst, p, Frame(InitialStack(p), [], v), p.instructionCount);
    var subs :- SubFunctionResults(kst, p.subFuncs, f.varIndex);
    Ok(Decompiled(Function(Identifier(p.name), ParametersOf(p), Block(f.stmts), subs.nodes), subs.varIndex))
  }

  function SubFunctionResults(kst: Kst, ps: seq<Proto>, v: int): Result<DecompiledList>
    decreases ps, 0
  {
    if |ps| == 0 then Ok(DecompiledList([], v))
    else
      var r :- SubFunctionResults(kst, ps[..|ps| - 1], v);
      var d :- FunctionResult(kst, ps[|ps| - 1], r.varIndex);
      Ok(DecompiledList(r.nodes + [d.node], d.varIndex))
  }

  /** `decompile(file)`: the counter starts at −1 and the script holds the main function. */
  function ScriptOf(kst: Kst, main: Proto): Result<Node>
  {
    var d :- FunctionResult(kst, main, -1);
    Ok(Script(d.node))
  }

  const Banner: string := "-- IW6 PC LUI\n-- Decompiled by https://github.com/xensik/lui-tool\n"

  /** `output()`: the banner, then the script printed from indent zero. */
  function OutputText(script: Node): string
  {
    Banner + Text(script, 0)
  }

  // ---------------------------------------------------------------------------
  // Agreement of the methods with the functions

  predicate Agrees(r: Result<Frame>, o: Outcome, f: Frame)
  {
    match r
    case Ok(g) => o == Pass && f == g
    case Err(e) => o == Fail(e)
  }

  predicate AgreesMade(r: Result<Made>, n: Result<Node>, f: Frame)
  {
    match r
    case Ok(m) => n == Ok(m.node) && f == m.frame
    case Err(e) => n == Err(e)
  }

  predicate AgreesBound(r: Result<Bound>, n: Result<seq<Node>>, f: Frame)
  {
    match r
    case Ok(b) => n == Ok(b.vars) && f == b.frame
    case Err(e) => n == Err(e)
  }

  /** An error in the first `j` instructions is the error of the first `k`. */
  lemma {:induction false} RunErrStays(step: (Frame, nat) -> Result<Frame>, f: Frame, j: nat, k: nat)
    requires j <= k && Run(step, f, j).Err?
    ensures Run(step, f, k) == Run(step, f, j)
    decreases k
  {
    if j < k {
      RunErrStays(step, f, j, k - 1);
    }
  }

  /** After `j` instructions ran, instruction `j` takes the run one step further. */
  lemma RunStep(kst: Kst, p: Proto, f: Frame, j: nat, g: Frame)
    requires InstructionsRun(kst, p, f, j) == Ok(g)
    ensures InstructionsRun(kst, p, f, j + 1) == InstructionStep(kst, p, g, j)
  {
  }

  /** An error in the first `j` sub-functions is the error of them all. */
  lemma {:induction false} SubsErrStays(kst: Kst, ps: seq<Proto>, v: int, j: nat)
    requires j <= |ps| && SubFunctionResults(kst, ps[..j], v).Err?
    ensures SubFunctionResults(kst, ps, v) == SubFunctionResults(kst, ps[..j], v)
    decreases |ps|
  {
    if j < |ps| {
      assert ps[..|ps| - 1][..j] == ps[..j];
      SubsErrStays(kst, ps[..|ps| - 1], v, j);
    } else {
      assert ps[..j] == ps;
    }
  }

  // ---------------------------------------------------------------------------
  // The decompiler object

  /** The part of `lui::function` the decompiler changes: `stack` and the statements of `node->block`. */
  class FunctionState {
    var stack: seq<Node>
    var stmts: seq<Node>

    constructor()
      ensures stack == [] && stmts == []
    {
      stack, stmts := [], [];
    }
  }

  class Decompiler {
    var varIndex: int
    var script: Node
    const kst: Kst

    constructor(kst: Kst)
      ensures this.kst == kst && script == Null
    {
      this.kst := kst;
      varIndex := -1;
      script := Null;
    }

    function FrameOf(fs: FunctionState): Frame
      reads this, fs
    {
      Frame(fs.stack, fs.stmts, varIndex)
    }

    /** `get_new_variable` */
    method GetNewVariable() returns (name: string)
      modifies this
      ensures varIndex == old(varIndex) + 1 && name == VariableName(old(varIndex))
    {
      varIndex := varIndex + 1;
      name := "var" + SignedDecimal(varIndex);
    }

    /** `find_constant` */
    method FindConstant(p: Proto, index: int) returns (r: Result<LuiAssembly.Constant>)
      ensures r == ConstantOf(p, index)
    {
      var k := index;
      if k < 0 {
        k := -k;
      }
      if k >= |p.constants| {
        return Err(OutOfRange);
      }
      r := Ok(p.constants[k]);
    }

    /** `decompile(file)` */
    method Decompile(file: Proto) returns (o: Outcome)
      modifies this
      ensures match ScriptOf(kst, file)
        case Ok(s) => o == Pass && script == s
        case Err(e) => o == Fail(e)
    {
      varIndex := -1;
      var r := DecompileFunction(file);
      if r.Err? {
        return Fail(r.error);
      }
      script := Script(r.value);
      o := Pass;
    }

    /** `output()`, with the static indent at zero as every print leaves it. */
    method Output(printer: Printer) returns (data: string)
      requires printer.indent == 0
      modifies printer
      ensures data == OutputText(script) && printer.indent == 0
    {
      var t := printer.Print(script);
      data := Banner + t;
    }

    /** `decompile_function` */
    method DecompileFunction(p: Proto) returns (r: Result<Node>)
      modifies this
      ensures match FunctionResult(kst, p, old(varIndex))
        case Ok(d) => r == Ok(d.node) && varIndex == d.varIndex
        case Err(e) => r == Err(e)
      decreases p, 1
    {
      var fs, params := SetUp(p);
      var o := DecompileInstructions(fs, p);
      if o.Fail? {
        return Err(o.error);
      }
      var subs := DecompileSubFunctions(p.subFuncs);
      if subs.Err? {
        return Err(subs.error);
      }
      r := Ok(Function(Identifier(p.name), params, Block(fs.stmts), subs.value));
    }

    /** The start of `decompile_function`: the parameters, then a nil in each remaining register. */
    method SetUp(p: Proto) returns (fs: FunctionState, params: Node)
      ensures fresh(fs) && fs.stack == InitialStack(p) && fs.stmts == [] && params == ParametersOf(p)
    {
      fs := new FunctionState();
      var list: seq<Node> := [];
      if p.varargFlags != 2 {
        for i := 0 to p.paramCount
          invariant fs.stack == ArgNames(i) && list == ArgNames(i) && fs.stmts == []
        {
          var arg := Identifier("arg" + Decimal(i));
          fs.stack := fs.stack + [arg];
          list := list + [arg];
        }
      }
      params := Parameters(list, p.varargFlags == 2);
      ghost var args := fs.stack;
      var i := p.paramCount;
      while i < p.registerCount
        invariant p.paramCount <= i && (i <= p.registerCount || i == p.paramCount)
        invariant fs.stack == args + Nils(i - p.paramCount) && fs.stmts == []
      {
        fs.stack := fs.stack + [Nil];
        i := i + 1;
      }
    }

    /** The instruction loop of `decompile_function`. */
    method DecompileInstructions(fs: FunctionState, p: Proto) returns (o: Outcome)
      modifies this, fs
      ensures Agrees(InstructionsRun(kst, p, old(FrameOf(fs)), p.instructionCount), o, FrameOf(fs))
    {
      ghost var f0 := FrameOf(fs);
      for j := 0 to p.instructionCount
        invariant InstructionsRun(kst, p, f0, j) == Ok(FrameOf(fs))
      {
        ghost var g := FrameOf(fs);
        o := DecompileInstruction(fs, p, j);
        RunStep(kst, p, f0, j, g);
        if o.Fail? {
          RunErrStays(StepOf(kst, p), f0, j + 1, p.instructionCount);
          return;
        }
      }
      o := Pass;
    }

    /** The sub-function loop of `decompile_function`: each in order, on the same counter. */
    method DecompileSubFunctions(ps: seq<Proto>) returns (r: Result<seq<Node>>)
      modifies this
      ensures match SubFunctionResults(kst, ps, old(varIndex))
        case Ok(d) => r == Ok(d.nodes) && varIndex == d.varIndex
        case Err(e) => r == Err(e)
      decreases ps, 0
    {
      ghost var v0 := varIndex;
      var subs: seq<Node> := [];
      for k := 0 to |ps|
        invariant SubFunctionResults(kst, ps[..k], v0) == Ok(DecompiledList(subs, varIndex))
      {
        assert ps[..k + 1][..k] == ps[..k];
        var s := DecompileFunction(ps[k]);
        if s.Err? {
          SubsErrStays(kst, ps, v0, k + 1);
          return Err(s.error);
        }
        subs := subs + [s.value];
      }
      assert ps[..|ps|] == ps;
      r := Ok(subs);
    }

    /** `decompile_instruction(func, i)` */
    method DecompileInstruction(fs: FunctionState, p: Proto, i: nat) returns (o: Outcome)
      modifies this, fs
      ensures Agrees(InstructionStep(kst, p, old(FrameOf(fs)), i), o, FrameOf(fs))
    {
      if i >= |p.instructions| {
        return Fail(OutOfRange);
      }
      var inst := p.instructions[i];
      if inst.index in p.labels {
        fs.stmts := fs.stmts + [Label(p.labels[inst.index])];
      }
      var op := OpOf(inst);
      if StoresSlots(op) {
        o := StoreSlots(fs, p, inst);
      } else if AddsStatement(op) {
        o := AddStatement(fs, p, inst, p.instructions[|p.instructions| - 1].index == inst.index);
      } else if Skipped(op) {
        o := Pass;
      } else {
        o := Fail(UnhandledOpcode(op));
      }
    }

    /** `func.stack.at(i) = n` */
    method Store(fs: FunctionState, i: int, n: Node) returns (o: Outcome)
      modifies fs
      ensures Agrees(Stored(old(FrameOf(fs)), i, n), o, FrameOf(fs))
    {
      if i < 0 || i >= |fs.stack| {
        return Fail(OutOfRange);
      }
      fs.stack := fs.stack[i := n];
      o := Pass;
    }

    /** The slot-rewriting cases. */
    method StoreSlots(fs: FunctionState, p: Proto, inst: LuiAssembly.Instruction) returns (o: Outcome)
      requires StoresSlots(OpOf(inst))
      modifies fs
      ensures Agrees(SlotEffect(kst, p, old(FrameOf(fs)), inst), o, FrameOf(fs))
    {
      var op := OpOf(inst);
      var n: Node;
      if op == GETFIELD || op == GETFIELD_R1 {
        var key := FindConstant(p, Int32(inst.c));
        if key.Err? { return Fail(key.error); }
        var obj := SlotOf(fs.stack, inst.b);
        if obj.Err? { return Fail(obj.error); }
        n := Field(obj.value, kst.toNode(key.value));
      } else if op == GETGLOBAL || op == GETGLOBAL_MEM {
        var k := FindConstant(p, Int32(inst.bx));
        if k.Err? { return Fail(k.error); }
        n := kst.toNode(k.value);
      } else if op == MOVE {
        var v := SlotOf(fs.stack, inst.b);
        if v.Err? { return Fail(v.error); }
        n := v.value;
      } else if op == SELF {
        var key := FindConstant(p, Int32(inst.c));
        if key.Err? { return Fail(key.error); }
        var obj := SlotOf(fs.stack, inst.b);
        if obj.Err? { return Fail(obj.error); }
        o := Store(fs, inst.a, Method(obj.value, kst.toNode(key.value)));
        if o.Fail? { return; }
        n := Identifier("this");
        o := Store(fs, inst.a + 1, n);
        return;
      } else if op == GETTABLE_S || op == GETTABLE {
        var key := RegisterOrConstant(kst, p, fs.stack, inst);
        if key.Err? { return Fail(key.error); }
        var obj := SlotOf(fs.stack, inst.b);
        if obj.Err? { return Fail(obj.error); }
        n := Field(obj.value, key.value);
      } else if op == LOADBOOL {
        n := Boolean(inst.b != 0);
      } else if op == LOADK {
        var k := FindConstant(p, Int32(inst.bx));
        if k.Err? { return Fail(k.error); }
        n := if k.value.dataType == LuiAssembly.TSTRING then kst.toLiteral(k.value) else kst.toNode(k.value);
      } else if op == LEN {
        var v := SlotOf(fs.stack, inst.b);
        if v.Err? { return Fail(v.error); }
        n := Length(v.value);
      } else if op == CONCAT {
        var items := ConcatenateSlots(fs, inst.b, inst.c);
        if items.Err? { return Fail(items.error); }
        n := Concatenation(items.value);
      } else if op == CLOSURE {
        if inst.bx >= |p.subFuncs| { return Fail(OutOfRange); }
        n := Identifier(p.subFuncs[inst.bx].name);
      } else {
        n := Vararg;
      }
      o := Store(fs, inst.a, n);
    }

    /** The CONCAT loop: `num = C − B + 1` items from R(B), with the unsigned wrap of `num`. */
    method ConcatenateSlots(fs: FunctionState, b: nat, c: nat) returns (r: Result<seq<Node>>)
      ensures r == ConcatItems(fs.stack, b, c)
    {
      if c + 1 < b {
        return Err(OutOfRange);
      }
      var num := c + 1 - b;
      var list: seq<Node> := [];
      for i := 0 to num
        invariant b + i <= |fs.stack| || i == 0
        invariant list == if i == 0 then [] else fs.stack[b..b + i]
      {
        if b + i >= |fs.stack| {
          return Err(OutOfRange);
        }
        list := list + [fs.stack[b + i]];
      }
      r := Ok(list);
    }

    /** The statement-appending cases. */
    method AddStatement(fs: FunctionState, p: Proto, inst: LuiAssembly.Instruction, isLast: bool) returns (o: Outcome)
      requires AddsStatement(OpOf(inst))
      modifies this, fs
      ensures Agrees(StatementEffect(kst, p, old(FrameOf(fs)), inst, isLast), o, FrameOf(fs))
    {
      var op := OpOf(inst);
      var n: Node;
      if op == TEST || op == TEST_R1 {
        var c := SlotOf(fs.stack, inst.a);
        if c.Err? { return Fail(c.error); }
        n := Test(c.value, inst.c == 1);
      } else if op == CALL_I || op == CALL_I_R1 {
        var m := DecompileCall(fs, inst);
        if m.Err? { return Fail(m.error); }
        n := m.value;
      } else if op == EQ {
        var l := SlotOf(fs.stack, inst.b);
        if l.Err? { return Fail(l.error); }
        var rk := RegisterOrConstant(kst, p, fs.stack, inst);
        if rk.Err? { return Fail(rk.error); }
        n := if inst.a == 0 then NotEqual(l.value, rk.value) else Equal(l.value, rk.value);
      } else if op == EQ_BK {
        var k := FindConstant(p, Int32(inst.b));
        if k.Err? { return Fail(k.error); }
        var rv := SlotOf(fs.stack, inst.c);
        if rv.Err? { return Fail(rv.error); }
        n := if inst.a == 0 then NotEqual(kst.toNode(k.value), rv.value) else Equal(kst.toNode(k.value), rv.value);
      } else if op == RETURN {
        if isLast || inst.b == 0 {
          return Pass;
        }
        var vs := ReturnSlots(fs, inst.a, inst.a + inst.b - 1);
        if vs.Err? { return Fail(vs.error); }
        n := Return(vs.value);
      } else if op == SETFIELD || op == SETFIELD_R1 {
        var obj := SlotOf(fs.stack, inst.a);
        if obj.Err? { return Fail(obj.error); }
        var key := FindConstant(p, Int32(inst.b));
        if key.Err? { return Fail(key.error); }
        var data := RegisterOrConstant(kst, p, fs.stack, inst);
        if data.Err? { return Fail(data.error); }
        n := Assign(Field(obj.value, kst.toNode(key.value)), data.value);
      } else if op == SETGLOBAL {
        var k := FindConstant(p, Int32(inst.bx));
        if k.Err? { return Fail(k.error); }
        var v := SlotOf(fs.stack, inst.a);
        if v.Err? { return Fail(v.error); }
        n := Assign(kst.toNode(k.value), v.value);
      } else if op == JMP {
        n := Jump(Identifier(JumpLabel(inst.index, inst.sbx)));
      } else {
        var name := GetNewVariable();
        var v := Identifier(name);
        o := Store(fs, inst.a, v);
        if o.Fail? { return; }
        n := Assign(v, NewTable);
      }
      fs.stmts := fs.stmts + [n];
      o := Pass;
    }

    /** The RETURN loop over R(A) .. R(A+B−2). */
    method ReturnSlots(fs: FunctionState, lo: nat, hi: nat) returns (r: Result<seq<Node>>)
      ensures r == Slots(fs.stack, lo, hi)
    {
      var stack := fs.stack;
      if hi <= lo {
        return Ok([]);
      }
      var list: seq<Node> := [];
      var i := lo;
      while i < hi
        invariant lo <= i <= hi
        invariant i == lo || i <= |stack|
        invariant |list| == i - lo
        invariant forall j :: 0 <= j < |list| ==> list[j] == stack[lo + j]
      {
        if i >= |stack| {
          return Err(OutOfRange);
        }
        list := list + [stack[i]];
        i := i + 1;
      }
      assert list == stack[lo..hi];
      r := Ok(list);
    }

    /** The fresh-variable loops of `decompile_call`: `k` variables into the slots from `base` on. */
    method BindResults(fs: FunctionState, base: nat, k: nat) returns (r: Result<seq<Node>>)
      modifies this, fs
      ensures AgreesBound(Bindings(old(FrameOf(fs)), base, k), r, FrameOf(fs))
    {
      ghost var f0 := FrameOf(fs);
      var list: seq<Node> := [];
      for i := 0 to k
        invariant Bindings(f0, base, i) == Ok(Bound(list, FrameOf(fs)))
      {
        var name := GetNewVariable();
        var v := Identifier(name);
        var o := Store(fs, base + i, v);
        if o.Fail? {
          BindingsErrStays(f0, base, i + 1, k);
          return Err(o.error);
        }
        list := list + [v];
      }
      r := Ok(list);
    }

    /** The argument loop of `decompile_call`. */
    method ArgumentSlots(fs: FunctionState, a: nat, argNum: int) returns (r: Result<seq<Node>>)
      ensures r == CallArguments(fs.stack, a, argNum)
    {
      if argNum <= 0 {
        return Ok([]);
      }
      if a >= |fs.stack| {
        return Err(OutOfRange);
      }
      var first := if fs.stack[a].Method? then 2 else 1;
      r := ReturnSlots(fs, a + first, a + argNum + 1);
    }

    /** `decompile_call` */
    method DecompileCall(fs: FunctionState, inst: LuiAssembly.Instruction) returns (r: Result<Node>)
      modifies this, fs
      ensures AgreesMade(CallEffect(old(FrameOf(fs)), inst), r, FrameOf(fs))
    {
      var argNum := Int32(inst.b - 1);
      var retNum := Int32(inst.c - 1);
      var args := ArgumentSlots(fs, inst.a, argNum);
      if args.Err? {
        return Err(args.error);
      }
      var list := args.value;
      if inst.a >= |fs.stack| {
        return Err(OutOfRange);
      }
      var call := Call(fs.stack[inst.a], Parameters(list, false));
      if retNum > 0 {
        var rets: Result<seq<Node>>;
        if fs.stack[inst.a] == Identifier("ipairs") {
          rets := BindResults(fs, inst.a + 3, 2);
        } else {
          rets := BindResults(fs, inst.a, retNum);
        }
        if rets.Err? {
          return Err(rets.error);
        }
        return Ok(Assign(Parameters(rets.value, false), call));
      }
      r := Ok(call);
    }
  }

  /** An error binding the first `j` variables is the error of binding `k`. */
  lemma {:induction false} BindingsErrStays(f: Frame, base: nat, j: nat, k: nat)
    requires j <= k && Bindings(f, base, j).Err?
    ensures Bindings(f, base, k) == Bindings(f, base, j)
    decreases k
  {
    if j < k {
      BindingsErrStays(f, base, j, k - 1);
    }
  }
}
