/**
 * The register-wrapping pass: it folds single-use temporaries into the
 * expressions that read them.
 *
 * The pass walks the tree with a stack that holds, for each register slot,
 * the expression a read of that slot stands for. An assignment to a register
 * whose reference count is at most one stores its value in the slot and is
 * deleted from the enclosing statement list; an assignment to a register read
 * more than once stores the register itself, so its readers keep naming it.
 * Every read of a register (`Swap`) is replaced by the slot's expression.
 *
 * The C# pass rewrites the tree in place; here each visit returns the
 * rewritten node together with the new fields of the pass. The flag `remove`
 * is reset only before each statement of a list is visited, so a statement
 * list whose last statement was deleted reports `remove` to whatever visited
 * the list: the model keeps that behaviour (see `InnerRemovalLeaks`).
 *
 * A call's callee is visited and then swapped, so a callee that is not a
 * register is visited twice. That second visit is the only recursion that is
 * not on a smaller node, and it consumes one unit of `fuel`.
 */
module PassWrapRegister {

  import opened Common
  import opened LuaAst

  /** The fields of the pass: the slot stack, the deletion flag, and the call-assignment flag. */
  datatype WrapState = WrapState(stack: seq<Node>, remove: bool, callAssignment: bool)

  const Start := WrapState([], false, false)

  /** A visited node as it reads after the visit, and the fields after it. */
  datatype Rewritten = Rewritten(node: Node, state: WrapState)

  /** A visited list, and the fields after it. */
  datatype Rewrites = Rewrites(nodes: seq<Node>, state: WrapState)

  /**
   * Storing `x` in slot `index`: the next free slot grows the stack, an
   * existing slot is overwritten, and a slot past the end is an error.
   */
  function WriteSlot(stack: seq<Node>, index: int, x: Node): (r: Result<seq<Node>>)
    ensures r.Ok? <==> 0 <= index <= |stack|
    ensures r.Ok? ==>
      |r.value| == (if index == |stack| then |stack| + 1 else |stack|)
      && r.value[index] == x
      && (forall k :: 0 <= k < |stack| && k != index ==> r.value[k] == stack[k])
    ensures index > |stack| ==> r == Err(BareException)
  {
    if |stack| == index then Ok(stack + [x])
    else if |stack| > index then
      if index < 0 then Err(OutOfRange) else Ok(stack[index := x])
    else Err(BareException)
  }

  /** A read of a register: the expression in its slot. */
  function Lookup(reg: Node, s: WrapState): (r: Result<Rewritten>)
    requires reg.Register?
    ensures r.Ok? <==> 0 <= reg.index < |s.stack|
    ensures r.Ok? ==> r.value == Rewritten(s.stack[reg.index], s)
  {
    if 0 <= reg.index < |s.stack| then Ok(Rewritten(s.stack[reg.index], s)) else Err(OutOfRange)
  }

  /** `Swap`: a register becomes the expression in its slot; anything else is visited and kept. */
  function Swap(x: Node, s: WrapState, fuel: nat): Result<Rewritten>
    decreases fuel, x, 4
  {
    if x.Register? then Lookup(x, s) else WrapNode(x, s, fuel)
  }

  /** The visit of one node from the fields `s`. */
  function WrapNode(n: Node, s: WrapState, fuel: nat): Result<Rewritten>
    decreases fuel, n, 3
  {
    if n.Chunk? || n.Block? then
      var r :- WrapList(n.statements, s, fuel);
      Ok(Rewritten(if n.Chunk? then Chunk(n.address, r.nodes) else Block(n.address, r.nodes), r.state))
    else if n.ForStatement? then WrapFor(n, s, fuel)
    else if n.FunctionStatement? then
      var r :- WrapNode(n.body, s, fuel);
      Ok(Rewritten(FunctionStatement(n.address, n.name, n.parameters, r.node), r.state))
    else if n.AssignmentStatement? then
      var r :- WrapAssignment(n.variables, n.values, s, fuel);
      Ok(Rewritten(AssignmentStatement(n.address, n.variables, r.nodes), r.state))
    else if n.ReturnStatement? then
      var r :- SwapList(n.expressions, s, fuel);
      Ok(Rewritten(ReturnStatement(n.address, r.nodes), r.state))
    else if n.FunctionCall? then WrapCall(n, s, fuel)
    else if n.BinaryExpression? then
      var l :- Swap(n.left, s, fuel);
      var r :- Swap(n.right, l.state, fuel);
      Ok(Rewritten(BinaryExpression(n.address, l.node, r.node, n.op), r.state))
    else if n.UnaryExpression? then
      var e :- Swap(n.operand, s, fuel);
      Ok(Rewritten(UnaryExpression(n.address, e.node, n.op), e.state))
    else if n.TableAccess? then
      var t :- Swap(n.table, s, fuel);
      var k :- Swap(n.key, t.state, fuel);
      Ok(Rewritten(TableAccess(n.address, t.node, k.node), k.state))
    else if n.AsmAssign? then
      var r :- WrapAssignment(n.lhs, n.rhs, s, fuel);
      Ok(Rewritten(AsmAssign(n.address, n.lhs, r.nodes), r.state))
    else if n.Test? then
      var e :- Swap(n.expression, s, fuel);
      Ok(Rewritten(Test(n.address, e.node), e.state))
    else Ok(Rewritten(n, s))
  }

  /**
   * A numeric for: start, limit and step are visited in turn, and a part
   * whose visit asked for deletion is replaced by the value it assigned; the
   * variable, which must be a register, takes its own slot; then the body.
   */
  function WrapFor(n: Node, s: WrapState, fuel: nat): Result<Rewritten>
    requires n.ForStatement?
    decreases fuel, n, 2
  {
    var start :- WrapPart(n.start, s, fuel);
    var limit :- WrapPart(n.limit, start.state, fuel);
    var step :- WrapPart(n.step, limit.state, fuel);
    if !n.variable.Register? then Err(NullReference)
    else
      var stack :- WriteSlot(step.state.stack, n.variable.index, n.variable);
      var body :- WrapNode(n.body, step.state.(stack := stack), fuel);
      Ok(Rewritten(ForStatement(n.address, n.variable, start.node, limit.node, step.node, body.node), body.state))
  }

  /** One of start, limit and step: a deleted assignment gives way to its first value. */
  function WrapPart(p: Node, s: WrapState, fuel: nat): Result<Rewritten>
    decreases fuel, p, 4
  {
    var r :- WrapNode(p, s, fuel);
    Unwrap(r)
  }

  /** A visited part that asked for deletion must be an assignment, and gives way to its first value. */
  function Unwrap(r: Rewritten): Result<Rewritten>
  {
    if !r.state.remove then Ok(r)
    else if !r.node.AssignmentStatement? then Err(NullReference)
    else if |r.node.values| == 0 then Err(OutOfRange)
    else Ok(Rewritten(r.node.values[0], r.state.(remove := false)))
  }

  /**
   * An assignment of either kind. The values are swapped first. A single call
   * value leaves the stack alone (and marks a one-target assignment). A
   * single register target read at most once has its slot take the value
   * and the statement marked for deletion; one read more often has its slot
   * take the register itself. Returns the swapped values.
   */
  function WrapAssignment(vars: seq<Node>, vals: seq<Node>, s: WrapState, fuel: nat): Result<Rewrites>
    decreases fuel, vals, 2
  {
    var r :- SwapList(vals, s, fuel);
    var vals', s1 := r.nodes, r.state;
    if |vals'| == 1 && vals'[0].FunctionCall? then
      Ok(Rewrites(vals', if |vars| == 1 then s1.(callAssignment := true) else s1))
    else if |vars| == 1 && vars[0].Register? then
      var reg := vars[0];
      if reg.refcount <= 1 then
        if reg.index > |s1.stack| then Err(BareException)
        else if |vals'| == 0 then Err(OutOfRange)
        else
          var stack :- WriteSlot(s1.stack, reg.index, vals'[0]);
          Ok(Rewrites(vals', s1.(stack := stack, remove := true)))
      else
        var stack :- WriteSlot(s1.stack, reg.index, reg);
        Ok(Rewrites(vals', s1.(stack := stack)))
    else Ok(Rewrites(vals', s1))
  }

  /** A call: the callee is visited, then swapped (a second visit unless it is a register), then each argument is swapped. */
  function WrapCall(n: Node, s: WrapState, fuel: nat): Result<Rewritten>
    requires n.FunctionCall?
    decreases fuel, n, 2
  {
    var f1 :- WrapNode(n.callee, s, fuel);
    var f2 :-
      if f1.node.Register? then Lookup(f1.node, f1.state)
      else if fuel == 0 then Err(FuelExhausted)
      else WrapNode(f1.node, f1.state, fuel - 1);
    var args :- SwapList(n.arguments, f2.state, fuel);
    Ok(Rewritten(FunctionCall(n.address, f2.node, args.nodes), args.state))
  }

  /** Each element swapped in place, first to last. */
  function SwapList(ns: seq<Node>, s: WrapState, fuel: nat): Result<Rewrites>
    decreases fuel, ns, 1
  {
    if |ns| == 0 then Ok(Rewrites([], s))
    else
      var r :- SwapList(ns[..|ns| - 1], s, fuel);
      var x :- Swap(ns[|ns| - 1], r.state, fuel);
      Ok(Rewrites(r.nodes + [x.node], x.state))
  }

  /**
   * A statement list, first to last: the flag is cleared before each
   * statement, and a statement whose visit set it is dropped.
   */
  function WrapList(ns: seq<Node>, s: WrapState, fuel: nat): Result<Rewrites>
    decreases fuel, ns, 0
  {
    if |ns| == 0 then Ok(Rewrites([], s))
    else
      var r :- WrapList(ns[..|ns| - 1], s, fuel);
      var x :- WrapNode(ns[|ns| - 1], r.state.(remove := false), fuel);
      Ok(Rewrites(if x.state.remove then r.nodes else r.nodes + [x.node], x.state))
  }

  // ---------------------------------------------------------------------------
  // Properties

  /** Swapping replaces each element by one node: the list keeps its length. */
  lemma {:induction false} SwapListLength(ns: seq<Node>, s: WrapState, fuel: nat)
    ensures SwapList(ns, s, fuel).Ok? ==> |SwapList(ns, s, fuel).value.nodes| == |ns|
  {
    if |ns| > 0 {
      SwapListLength(ns[..|ns| - 1], s, fuel);
    }
  }

  /** Statements are only ever dropped, never added. */
  lemma {:induction false} WrapListShrinks(ns: seq<Node>, s: WrapState, fuel: nat)
    ensures WrapList(ns, s, fuel).Ok? ==> |WrapList(ns, s, fuel).value.nodes| <= |ns|
  {
    if |ns| > 0 {
      WrapListShrinks(ns[..|ns| - 1], s, fuel);
    }
  }

  /** Once a prefix of a statement list fails, the whole list fails with the same error. */
  lemma {:induction false} WrapListErrStays(ns: seq<Node>, j: nat, s: WrapState, fuel: nat)
    requires j <= |ns| && WrapList(ns[..j], s, fuel).Err?
    ensures WrapList(ns, s, fuel) == WrapList(ns[..j], s, fuel)
    decreases |ns| - j
  {
    if j < |ns| {
      assert ns[..j + 1][..j] == ns[..j];
      WrapListErrStays(ns, j + 1, s, fuel);
    } else {
      assert ns[..j] == ns;
    }
  }

  /** One more statement of the list: its rewrite is appended unless it asked to be removed. */
  lemma WrapListStep(ns: seq<Node>, j: nat, s: WrapState, fuel: nat, prev: Rewrites, x: Rewritten)
    requires j < |ns| && WrapList(ns[..j], s, fuel) == Ok(prev)
    requires WrapNode(ns[j], prev.state.(remove := false), fuel) == Ok(x)
    ensures WrapList(ns[..j + 1], s, fuel)
      == Ok(Rewrites(if x.state.remove then prev.nodes else prev.nodes + [x.node], x.state))
  {
    assert ns[..j + 1][..j] == ns[..j];
  }

  /** A statement that throws ends the list with its error. */
  lemma WrapListStepErr(ns: seq<Node>, j: nat, s: WrapState, fuel: nat, prev: Rewrites)
    requires j < |ns| && WrapList(ns[..j], s, fuel) == Ok(prev)
    requires WrapNode(ns[j], prev.state.(remove := false), fuel).Err?
    ensures WrapList(ns[..j + 1], s, fuel) == Err(WrapNode(ns[j], prev.state.(remove := false), fuel).error)
  {
    assert ns[..j + 1][..j] == ns[..j];
  }

  lemma {:induction false} SwapListErrStays(ns: seq<Node>, j: nat, s: WrapState, fuel: nat)
    requires j <= |ns| && SwapList(ns[..j], s, fuel).Err?
    ensures SwapList(ns, s, fuel) == SwapList(ns[..j], s, fuel)
    decreases |ns| - j
  {
    if j < |ns| {
      assert ns[..j + 1][..j] == ns[..j];
      SwapListErrStays(ns, j + 1, s, fuel);
    } else {
      assert ns[..j] == ns;
    }
  }

  /** A literal has nothing to rewrite: swapping it returns it and changes no field. */
  predicate IsLeaf(x: Node)
  {
    x.NilLiteral? || x.BooleanLiteral? || x.NumberLiteral? || x.StringLiteral? || x.VarargsLiteral?
    || x.Closure? || x.Identifier?
  }

  lemma LeafSwaps(x: Node, s: WrapState, fuel: nat)
    requires IsLeaf(x)
    ensures Swap(x, s, fuel) == Ok(Rewritten(x, s))
  {
  }

  /**
   * `R(i) = v` with a literal value: when the target is counted at most once
   * the slot takes `v` and the statement asks for deletion; otherwise the
   * slot takes the register and the statement stays.
   */
  lemma LiteralAssignment(a: int, target: Node, value: Node, s: WrapState, fuel: nat)
    requires target.Register? && 0 <= target.index <= |s.stack| && IsLeaf(value)
    ensures
      var stored := if target.refcount <= 1 then value else target;
      WrapNode(Assign(a, target, value), s, fuel)
        == Ok(Rewritten(Assign(a, target, value),
                        s.(stack := WriteSlot(s.stack, target.index, stored).value,
                           remove := s.remove || target.refcount <= 1)))
  {
    LeafSwaps(value, s, fuel);
    SwapSingle(value, s, fuel);
  }

  /**
   * A temporary read once is folded into its reader: after `R(i) = v` with
   * the target counted at most once, the assignment is gone and the
   * following `return R(i)` returns `v` itself.
   */
  lemma SingleUseInlined(a: int, target: Node, value: Node, b: int, reader: Node, s: WrapState, fuel: nat)
    requires target.Register? && target.refcount <= 1 && 0 <= target.index <= |s.stack|
    requires reader.Register? && reader.index == target.index
    requires IsLeaf(value)
    ensures WrapList([Assign(a, target, value), ReturnStatement(b, [reader])], s, fuel).Ok?
    ensures WrapList([Assign(a, target, value), ReturnStatement(b, [reader])], s, fuel).value.nodes
      == [ReturnStatement(b, [value])]
  {
    var asn := Assign(a, target, value);
    var ret := ReturnStatement(b, [reader]);
    LiteralAssignment(a, target, value, s.(remove := false), fuel);
    var s1 := WrapNode(asn, s.(remove := false), fuel).value.state;
    assert s1.remove && s1.stack[target.index] == value;
    assert [asn, ret][..1] == [asn];
    WrapSingle(asn, s, fuel);
    SwapSingle(reader, s1.(remove := false), fuel);
    assert WrapNode(ret, s1.(remove := false), fuel) == Ok(Rewritten(ReturnStatement(b, [value]), s1.(remove := false)));
  }

  /**
   * A temporary read more than once stays: `R(i) = v` is kept, and the
   * following `return R(i)` still names the register.
   */
  lemma MultiUseKept(a: int, target: Node, value: Node, b: int, reader: Node, s: WrapState, fuel: nat)
    requires target.Register? && target.refcount > 1 && 0 <= target.index <= |s.stack|
    requires reader.Register? && reader.index == target.index
    requires IsLeaf(value)
    ensures WrapList([Assign(a, target, value), ReturnStatement(b, [reader])], s, fuel).Ok?
    ensures WrapList([Assign(a, target, value), ReturnStatement(b, [reader])], s, fuel).value.nodes
      == [Assign(a, target, value), ReturnStatement(b, [target])]
  {
    var asn := Assign(a, target, value);
    var ret := ReturnStatement(b, [reader]);
    LiteralAssignment(a, target, value, s.(remove := false), fuel);
    var s1 := WrapNode(asn, s.(remove := false), fuel).value.state;
    assert !s1.remove && s1.stack[target.index] == target;
    assert [asn, ret][..1] == [asn];
    WrapSingle(asn, s, fuel);
    SwapSingle(reader, s1, fuel);
    assert WrapNode(ret, s1, fuel) == Ok(Rewritten(ReturnStatement(b, [target]), s1));
  }

  /** A list of one value is that value's swap. */
  lemma SwapSingle(x: Node, s: WrapState, fuel: nat)
    ensures SwapList([x], s, fuel)
      == (var r :- Swap(x, s, fuel); Ok(Rewrites([r.node], r.state)))
  {
    assert [x][..0] == [] && [x][0] == x;
    assert SwapList([], s, fuel) == Ok(Rewrites([], s));
    if Swap(x, s, fuel).Ok? {
      var r := Swap(x, s, fuel).value;
      assert [] + [r.node] == [r.node];
      assert SwapList([x], s, fuel) == Ok(Rewrites([r.node], r.state));
      assert !Swap(x, s, fuel).IsFailure() && Swap(x, s, fuel).Extract() == r;
    }
  }

  /** A list of one statement is that statement's visit, dropped if it asked for deletion. */
  lemma WrapSingle(x: Node, s: WrapState, fuel: nat)
    ensures WrapList([x], s, fuel)
      == (var r :- WrapNode(x, s.(remove := false), fuel);
          Ok(Rewrites(if r.state.remove then [] else [r.node], r.state)))
  {
    assert [x][..0] == [] && [x][0] == x;
    assert WrapList([], s, fuel) == Ok(Rewrites([], s));
    if WrapNode(x, s.(remove := false), fuel).Ok? {
      var r := WrapNode(x, s.(remove := false), fuel).value;
      assert [] + [r.node] == [r.node];
      assert WrapList([x], s, fuel) == Ok(Rewrites(if r.state.remove then [] else [r.node], r.state));
      assert !WrapNode(x, s.(remove := false), fuel).IsFailure() && WrapNode(x, s.(remove := false), fuel).Extract() == r;
    }
  }

  /**
   * An assignment of a single call value is kept whole: the stack and the
   * deletion flag are as the swapped values left them.
   */
  lemma CallAssignmentKept(vars: seq<Node>, vals: seq<Node>, s: WrapState, fuel: nat)
    requires SwapList(vals, s, fuel).Ok?
    requires var r := SwapList(vals, s, fuel).value; |r.nodes| == 1 && r.nodes[0].FunctionCall?
    ensures WrapAssignment(vars, vals, s, fuel).Ok?
    ensures
      var r := SwapList(vals, s, fuel).value;
      var t := WrapAssignment(vars, vals, s, fuel).value;
      t.nodes == r.nodes && t.state.stack == r.state.stack && t.state.remove == r.state.remove
      && t.state.callAssignment == (r.state.callAssignment || |vars| == 1)
  {
  }

  /**
   * The flag leaks out of a statement list: when the last statement of a
   * loop body is deleted, the loop itself reports the deletion, so the
   * list holding the loop drops the whole loop.
   */
  lemma InnerRemovalLeaks(a: int, v: Node, start: Node, limit: Node, step: Node, b: int, target: Node, value: Node, s: WrapState, fuel: nat)
    requires IsLeaf(start) && IsLeaf(limit) && IsLeaf(step) && IsLeaf(value)
    requires v.Register? && 0 <= v.index <= |s.stack|
    requires target.Register? && target.refcount <= 1 && 0 <= target.index <= |s.stack|
    ensures
      var loop := ForStatement(a, v, start, limit, step, Block(b, [Assign(b, target, value)]));
      WrapList([loop], s, fuel).Ok? && WrapList([loop], s, fuel).value.nodes == []
  {
    var loop := ForStatement(a, v, start, limit, step, Block(b, [Assign(b, target, value)]));
    var s0 := s.(remove := false);
    var s1 := s0.(stack := WriteSlot(s0.stack, v.index, v).value);
    assert WrapPart(start, s0, fuel) == Ok(Rewritten(start, s0));
    assert WrapPart(limit, s0, fuel) == Ok(Rewritten(limit, s0));
    assert WrapPart(step, s0, fuel) == Ok(Rewritten(step, s0));
    BodyEmptied(b, target, value, s1, fuel);
    assert WrapFor(loop, s0, fuel).Ok? && WrapFor(loop, s0, fuel).value.state.remove;
    WrapSingle(loop, s, fuel);
  }

  /** A block whose only statement is deleted is left empty, with the deletion flag still set. */
  lemma BodyEmptied(b: int, target: Node, value: Node, s: WrapState, fuel: nat)
    requires IsLeaf(value)
    requires target.Register? && target.refcount <= 1 && 0 <= target.index <= |s.stack|
    ensures WrapNode(Block(b, [Assign(b, target, value)]), s, fuel).Ok?
    ensures
      var r := WrapNode(Block(b, [Assign(b, target, value)]), s, fuel).value;
      r.node == Block(b, []) && r.state.remove
  {
    LiteralAssignment(b, target, value, s.(remove := false), fuel);
    WrapSingle(Assign(b, target, value), s, fuel);
  }

  /** The method's result matches the function's, and on success so do the fields. */
  predicate Agrees(r: Result<Rewritten>, o: Result<Node>, s: WrapState)
  {
    match r
    case Ok(x) => o == Ok(x.node) && s == x.state
    case Err(e) => o == Err(e)
  }

  predicate AgreesAll(r: Result<Rewrites>, o: Result<seq<Node>>, s: WrapState)
  {
    match r
    case Ok(x) => o == Ok(x.nodes) && s == x.state
    case Err(e) => o == Err(e)
  }

  /** `PassWrapRegister`: the visitor with its slot stack and its two flags. */
  class RegisterWrapper {
    var stack: seq<Node>
    var remove: bool
    var callAssignment: bool

    function State(): WrapState
      reads this
    {
      WrapState(stack, remove, callAssignment)
    }

    constructor()
      ensures State() == Start
    {
      stack := [];
      remove := false;
      callAssignment := false;
    }

    /** Visits `n` and returns it as rewritten. */
    method Visit(n: Node, fuel: nat) returns (o: Result<Node>)
      modifies this
      ensures Agrees(WrapNode(n, old(State()), fuel), o, State())
      decreases fuel, n, 3
    {
      if n.Chunk? || n.Block? {
        var r := VisitList(n.statements, fuel);
        if r.Err? { return Err(r.error); }
        o := Ok(if n.Chunk? then Chunk(n.address, r.value) else Block(n.address, r.value));
      } else if n.ForStatement? {
        o := VisitFor(n, fuel);
      } else if n.FunctionStatement? {
        var r := Visit(n.body, fuel);
        if r.Err? { return r; }
        o := Ok(FunctionStatement(n.address, n.name, n.parameters, r.value));
      } else if n.AssignmentStatement? {
        var r := VisitAssignment(n.variables, n.values, fuel);
        if r.Err? { return Err(r.error); }
        o := Ok(AssignmentStatement(n.address, n.variables, r.value));
      } else if n.ReturnStatement? {
        var r := SwapAll(n.expressions, fuel);
        if r.Err? { return Err(r.error); }
        o := Ok(ReturnStatement(n.address, r.value));
      } else if n.FunctionCall? || n.BinaryExpression? || n.UnaryExpression? || n.TableAccess? || n.Test? {
        o := VisitExpression(n, fuel);
      } else if n.AsmAssign? {
        var r := VisitAssignment(n.lhs, n.rhs, fuel);
        if r.Err? { return Err(r.error); }
        o := Ok(AsmAssign(n.address, n.lhs, r.value));
      } else {
        // every other kind has an empty visit
        o := Ok(n);
      }
    }

    /** The kinds whose visit swaps their operands: calls, operators, table accesses and tests. */
    method VisitExpression(n: Node, fuel: nat) returns (o: Result<Node>)
      requires n.FunctionCall? || n.BinaryExpression? || n.UnaryExpression? || n.TableAccess? || n.Test?
      modifies this
      ensures Agrees(WrapNode(n, old(State()), fuel), o, State())
      decreases fuel, n, 2
    {
      if n.FunctionCall? {
        o := VisitCall(n, fuel);
      } else if n.BinaryExpression? {
        var l := SwapIn(n.left, fuel);
        if l.Err? { return l; }
        var r := SwapIn(n.right, fuel);
        if r.Err? { return r; }
        o := Ok(BinaryExpression(n.address, l.value, r.value, n.op));
      } else if n.UnaryExpression? {
        var e := SwapIn(n.operand, fuel);
        if e.Err? { return e; }
        o := Ok(UnaryExpression(n.address, e.value, n.op));
      } else if n.TableAccess? {
        var t := SwapIn(n.table, fuel);
        if t.Err? { return t; }
        var k := SwapIn(n.key, fuel);
        if k.Err? { return k; }
        o := Ok(TableAccess(n.address, t.value, k.value));
      } else {
        var e := SwapIn(n.expression, fuel);
        if e.Err? { return e; }
        o := Ok(Test(n.address, e.value));
      }
    }

    /** A register reads its slot; anything else is visited and kept. */
    method SwapIn(x: Node, fuel: nat) returns (o: Result<Node>)
      modifies this
      ensures Agrees(Swap(x, old(State()), fuel), o, State())
      decreases fuel, x, 4
    {
      if x.Register? {
        o := ReadSlot(x);
      } else {
        o := Visit(x, fuel);
      }
    }

    /** The expression in a register's slot. */
    method ReadSlot(reg: Node) returns (o: Result<Node>)
      requires reg.Register?
      ensures Agrees(Lookup(reg, State()), o, State())
    {
      if 0 <= reg.index < |stack| {
        o := Ok(stack[reg.index]);
      } else {
        o := Err(OutOfRange);
      }
    }

    /** Stores `x` in slot `index`. */
    method Store(index: int, x: Node) returns (o: Outcome)
      modifies this
      ensures match WriteSlot(old(stack), index, x)
        case Ok(st) => o == Pass && stack == st
        case Err(e) => o == Fail(e)
      ensures remove == old(remove) && callAssignment == old(callAssignment)
    {
      if |stack| == index {
        stack := stack + [x];
      } else if |stack| > index {
        if index < 0 {
          return Fail(OutOfRange);
        }
        stack := stack[index := x];
      } else {
        return Fail(BareException);
      }
      o := Pass;
    }

    /** Start, limit and step in turn, the variable into its own slot, then the body. */
    method VisitFor(n: Node, fuel: nat) returns (o: Result<Node>)
      requires n.ForStatement?
      modifies this
      ensures Agrees(WrapFor(n, old(State()), fuel), o, State())
      decreases fuel, n, 2
    {
      var start := VisitPart(n.start, fuel);
      if start.Err? { return start; }
      var limit := VisitPart(n.limit, fuel);
      if limit.Err? { return limit; }
      var step := VisitPart(n.step, fuel);
      if step.Err? { return step; }
      if !n.variable.Register? {
        return Err(NullReference);
      }
      var stored := Store(n.variable.index, n.variable);
      if stored.Fail? { return Err(stored.error); }
      var body := Visit(n.body, fuel);
      if body.Err? { return body; }
      o := Ok(ForStatement(n.address, n.variable, start.value, limit.value, step.value, body.value));
    }

    /** One of start, limit and step; a deleted assignment gives way to its first value. */
    method VisitPart(p: Node, fuel: nat) returns (o: Result<Node>)
      modifies this
      ensures Agrees(WrapPart(p, old(State()), fuel), o, State())
      decreases fuel, p, 4
    {
      o := Visit(p, fuel);
      if o.Err? { return; }
      o := Replace(o.value);
    }

    /** A visited part that asked for deletion gives way to the first value of the assignment it was. */
    method Replace(x: Node) returns (o: Result<Node>)
      modifies this
      ensures Agrees(Unwrap(Rewritten(x, old(State()))), o, State())
    {
      o := Ok(x);
      if !remove { return; }
      if !x.AssignmentStatement? {
        return Err(NullReference);
      }
      if |x.values| == 0 {
        return Err(OutOfRange);
      }
      o := Ok(x.values[0]);
      remove := false;
    }

    /** An assignment of either kind; returns the swapped values. */
    method VisitAssignment(vars: seq<Node>, vals: seq<Node>, fuel: nat) returns (o: Result<seq<Node>>)
      modifies this
      ensures AgreesAll(WrapAssignment(vars, vals, old(State()), fuel), o, State())
      decreases fuel, vals, 2
    {
      o := SwapAll(vals, fuel);
      if o.Err? { return; }
      var vals' := o.value;
      if |vals'| == 1 && vals'[0].FunctionCall? {
        if |vars| == 1 {
          callAssignment := true;
        }
        return;
      }
      if |vars| == 1 && vars[0].Register? {
        var reg := vars[0];
        var stored;
        if reg.refcount <= 1 {
          remove := true;
          if reg.index > |stack| {
            return Err(BareException);
          }
          if |vals'| == 0 {
            return Err(OutOfRange);
          }
          stored := Store(reg.index, vals'[0]);
        } else {
          stored := Store(reg.index, reg);
        }
        if stored.Fail? { return Err(stored.error); }
      }
    }

    /** A call: the callee visited and then swapped, then the arguments swapped in order. */
    method VisitCall(n: Node, fuel: nat) returns (o: Result<Node>)
      requires n.FunctionCall?
      modifies this
      ensures Agrees(WrapCall(n, old(State()), fuel), o, State())
      decreases fuel, n, 1
    {
      var f1 := Visit(n.callee, fuel);
      if f1.Err? { return f1; }
      var f2;
      if f1.value.Register? {
        f2 := ReadSlot(f1.value);
      } else if fuel == 0 {
        return Err(FuelExhausted);
      } else {
        f2 := Visit(f1.value, fuel - 1);
      }
      if f2.Err? { return f2; }
      var args := SwapAll(n.arguments, fuel);
      if args.Err? { return Err(args.error); }
      o := Ok(FunctionCall(n.address, f2.value, args.value));
    }

    /** Every element swapped in place, first to last. */
    method SwapAll(ns: seq<Node>, fuel: nat) returns (o: Result<seq<Node>>)
      modifies this
      ensures AgreesAll(SwapList(ns, old(State()), fuel), o, State())
      decreases fuel, ns, 1
    {
      ghost var s0 := State();
      var list := ns;
      var i := 0;
      while i < |list|
        invariant |list| == |ns| && i <= |ns|
        invariant list[i..] == ns[i..]
        invariant SwapList(ns[..i], s0, fuel) == Ok(Rewrites(list[..i], State()))
      {
        assert ns[..i + 1][..i] == ns[..i] && ns[..i + 1][i] == ns[i] == list[i];
        var x := SwapIn(list[i], fuel);
        if x.Err? {
          SwapListErrStays(ns, i + 1, s0, fuel);
          return Err(x.error);
        }
        assert list[..i] + [x.value] == list[i := x.value][..i + 1];
        list := list[i := x.value];
        i := i + 1;
      }
      assert ns[..i] == ns && list[..i] == list;
      o := Ok(list);
    }

    /**
     * A statement list, first to last: the flag is cleared before each
     * statement, and a statement that set it is removed and the index
     * stepped back so the next statement is not skipped.
     */
    method VisitList(ns: seq<Node>, fuel: nat) returns (o: Result<seq<Node>>)
      modifies this
      ensures AgreesAll(WrapList(ns, old(State()), fuel), o, State())
      decreases fuel, ns, 0
    {
      ghost var s0 := State();
      ghost var j := 0;
      var list := ns;
      var i: int := 0;
      while i < |list|
        invariant 0 <= i <= |list| && j <= |ns|
        invariant list[i..] == ns[j..]
        invariant WrapList(ns[..j], s0, fuel) == Ok(Rewrites(list[..i], State()))
        decreases |list| - i
      {
        ghost var prev := Rewrites(list[..i], State());
        assert ns[j] == list[i] by { assert list[i..][0] == ns[j..][0]; }
        remove := false;
        var x := Visit(list[i], fuel);
        if x.Err? {
          WrapListStepErr(ns, j, s0, fuel, prev);
          WrapListErrStays(ns, j + 1, s0, fuel);
          return Err(x.error);
        }
        WrapListStep(ns, j, s0, fuel, prev, Rewritten(x.value, State()));
        if remove {
          assert list[i + 1..] == ns[j + 1..] by { assert list[i..][1..] == ns[j..][1..]; }
          assert (list[..i] + list[i + 1..])[..i] == list[..i];
          assert (list[..i] + list[i + 1..])[i..] == list[i + 1..];
          list := list[..i] + list[i + 1..];
          i := i - 1;
        } else {
          assert list[i + 1..] == ns[j + 1..] by { assert list[i..][1..] == ns[j..][1..]; }
          assert list[..i] + [x.value] == list[i := x.value][..i + 1];
          list := list[i := x.value];
        }
        i := i + 1;
        j := j + 1;
      }
      assert ns[..j] == ns && list[..i] == list;
      o := Ok(list);
    }
  }
}
