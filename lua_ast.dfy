/**
 * The syntax tree the Havok Script decompiler builds and its passes rewrite.
 *
 * Every node class of the C# tree is one constructor of `Node`, so the set
 * of node kinds is closed and every pass below is a `match` with one case
 * per kind, as the C# `Visitor` interface has one method per kind. Fields
 * the C# declares as `Block`, `Identifier` or `Register` are `Node`s here;
 * the predicates at the end say which kinds the decompiler puts there.
 * Field names follow the C# ones, renamed only where two classes use the
 * same name for fields of different types, and `function`, which is a Dafny
 * keyword and becomes `callee`.
 */
module LuaAst {

  import opened Common
  import opened Bytes

  datatype Node =
    | Chunk(address: int, statements: seq<Node>)
    | Block(address: int, statements: seq<Node>)
    | DoStatement(address: int, body: Node)
    | WhileStatement(address: int, test: Node, body: Node)
    | RepeatUntilStatement(address: int, test: Node, body: Node)
    | IfStatement(address: int, test: Node, ifBlock: Node, elseifBlocks: seq<Node>, elseBlock: Node)
    | ElseIfBlock(address: int, condition: Node, block: Node)
    | ForStatement(address: int, variable: Node, start: Node, limit: Node, step: Node, body: Node)
    | ForInStatement(address: int, names: seq<string>, expressions: seq<Node>, body: Node)
    | FunctionStatement(address: int, name: Node, parameters: seq<string>, body: Node)
    | LocalFunctionStatement(address: int, name: Node, parameters: seq<string>, body: Node)
    | LocalVariableDeclaration(address: int, variables: seq<Node>, values: seq<Node>)
    | AssignmentStatement(address: int, variables: seq<Node>, values: seq<Node>)
    | ReturnStatement(address: int, expressions: seq<Node>)
    | VarargsLiteral(address: int)
    | NilLiteral(address: int)
    | BooleanLiteral(address: int, flag: bool)
    | NumberLiteral(address: int, number: Number)
    | StringLiteral(address: int, text: string)
    | Closure(address: int, index: int)
      /**
       * A register reference. `slot` is the ordinal of the node among the
       * registers its instruction created; with `address` it stands for the
       * identity of the C# object, which the reference counter updates in place.
       */
    | Register(address: int, index: int, refcount: int, slot: nat)
    | Identifier(address: int, identifier: string)
    | FunctionCall(address: int, callee: Node, arguments: seq<Node>)
    | BinaryExpression(address: int, left: Node, right: Node, op: string)
    | UnaryExpression(address: int, operand: Node, op: string)
    | TableConstructor(address: int, keys: seq<Node>, values: seq<Node>)
    | TableAccess(address: int, table: Node, key: Node)
    | AsmAssign(address: int, lhs: seq<Node>, rhs: seq<Node>)
    | Test(address: int, expression: Node)
    | Jump(address: int, offset: int)
    | AsmForPrep(address: int, rinit: Node, rlimit: Node, rstep: Node, rvar: Node)
    | AsmForLoop(address: int, exp: Node, offset: int)
    | AsmTForLoop(address: int)

  /**
   * The value of a number literal as the disassembler read it: the bytes of
   * a floating-point number, or an integral number.
   */
  datatype Number = FloatBits(bytes: seq<Byte>) | Integral(value: int)

  /** The identity of a register node: the instruction that made it and its ordinal there. */
  datatype RegisterId = RegisterId(address: int, slot: nat)

  function IdOf(n: Node): RegisterId
    requires n.Register?
  {
    RegisterId(n.address, n.slot)
  }

  /** The kinds that derive from the C# `Statement` class. */
  predicate IsStatement(n: Node)
  {
    n.Block? || n.DoStatement? || n.WhileStatement? || n.RepeatUntilStatement? || n.IfStatement?
    || n.ForStatement? || n.ForInStatement? || n.FunctionStatement? || n.LocalFunctionStatement?
    || n.LocalVariableDeclaration? || n.AssignmentStatement? || n.ReturnStatement?
    || n.AsmAssign? || n.Test? || n.Jump? || n.AsmForPrep? || n.AsmForLoop? || n.AsmTForLoop?
  }

  /** The kinds that derive from the C# `Expression` class. */
  predicate IsExpression(n: Node)
  {
    n.VarargsLiteral? || n.NilLiteral? || n.BooleanLiteral? || n.NumberLiteral?
    || n.StringLiteral? || n.Closure? || n.Register? || n.Identifier? || n.FunctionCall?
    || n.BinaryExpression? || n.UnaryExpression? || n.TableConstructor? || n.TableAccess?
  }

  /** `Chunk` and `ElseIfBlock` derive from `Node` only; every other kind is a statement or an expression, never both. */
  lemma KindsPartitioned(n: Node)
    ensures !(IsStatement(n) && IsExpression(n))
    ensures !IsStatement(n) && !IsExpression(n) <==> n.Chunk? || n.ElseIfBlock?
  {
  }

  // ---------------------------------------------------------------------------
  // The convenience constructors of the C# classes

  /** `new Register(addr, index)`: a fresh register node has reference count 0. */
  function NewRegister(addr: int, index: int, slot: nat): (r: Node)
    ensures r.Register? && r.address == addr && r.index == index && r.refcount == 0
    ensures IdOf(r) == RegisterId(addr, slot)
  {
    Register(addr, index, 0, slot)
  }

  /** `new AssignmentStatement(addr, variable, value)`: one target and one value. */
  function Assign(addr: int, variable: Node, value: Node): (r: Node)
    ensures r.AssignmentStatement? && r.address == addr
    ensures r.variables == [variable] && r.values == [value]
  {
    AssignmentStatement(addr, [variable], [value])
  }

  /** `new AssignmentStatement(addr, variables, value)`: the given targets and one value. */
  function AssignAll(addr: int, variables: seq<Node>, value: Node): (r: Node)
    ensures r.AssignmentStatement? && r.address == addr
    ensures r.variables == variables && r.values == [value]
  {
    AssignmentStatement(addr, variables, [value])
  }

  /** `new AsmAssign(addr, lhs, rhs)` with one target and one value. */
  function AsmAssignOne(addr: int, lhs: Node, rhs: Node): (r: Node)
    ensures r.AsmAssign? && r.address == addr
    ensures r.lhs == [lhs] && r.rhs == [rhs]
  {
    AsmAssign(addr, [lhs], [rhs])
  }

  /** `new AsmAssign(addr, lhs, rhs)` with a target list and one value. */
  function AsmAssignAll(addr: int, lhs: seq<Node>, rhs: Node): (r: Node)
    ensures r.AsmAssign? && r.address == addr
    ensures r.lhs == lhs && r.rhs == [rhs]
  {
    AsmAssign(addr, lhs, [rhs])
  }
}
