/**
 * The reference-counting pass over the decompiled tree.
 *
 * The pass walks the tree in evaluation order with a stack of register slots.
 * A register visited as an assignment target is bound to its slot; a register
 * visited as a value adds one to the reference count of the node bound to its
 * slot. The C# pass increments `Register.refcount` in place; here the counts
 * are kept in a map from register identity to count while the walk runs, and
 * `Annotate` writes them into the tree once it is done. Nothing reads a count
 * during the walk, so the two orders agree.
 *
 * `CountNode` and its companions state the walk as functions; the class
 * `RefCounter` is the pass itself, with the C# fields, and each of its
 * methods is proved to agree with the function for the same node.
 */
module PassRefCounter {

  import opened Common
  import opened LuaAst

  /** The fields of the pass: the slot stack (by identity), the target flag, and the counts so far. */
  datatype CountState = CountState(stack: seq<RegisterId>, lvalue: bool, counts: map<RegisterId, int>)

  const Initial := CountState([], false, map[])

  /** The current count of `id`; every identity on the stack has one (see `Bound`). */
  function CountOf(counts: map<RegisterId, int>, id: RegisterId): int
  {
    if id in counts then counts[id] else 0
  }

  /** Binding a node keeps its count if it has been bound before, and starts from its own count otherwise. */
  function Bind(counts: map<RegisterId, int>, n: Node): map<RegisterId, int>
    requires n.Register?
  {
    if IdOf(n) in counts then counts else counts[IdOf(n) := n.refcount]
  }

  /**
   * A register: as a target it takes slot `index` when that is the next free
   * slot or an existing one, and fails past the end; as a value it adds one to
   * the count of the node in its slot.
   */
  function CountRegister(n: Node, s: CountState): Result<CountState>
    requires n.Register?
  {
    if s.lvalue then
      if |s.stack| == n.index then Ok(s.(stack := s.stack + [IdOf(n)], counts := Bind(s.counts, n)))
      else if |s.stack| > n.index then
        if n.index < 0 then Err(OutOfRange)
        else Ok(s.(stack := s.stack[n.index := IdOf(n)], counts := Bind(s.counts, n)))
      else Err(BareException)
    else if 0 <= n.index < |s.stack| then
      var id := s.stack[n.index];
      Ok(s.(counts := s.counts[id := CountOf(s.counts, id) + 1]))
    else Err(OutOfRange)
  }

  /** The visit of one node from state `s`. */
  function CountNode(n: Node, s: CountState): Result<CountState>
    decreases n, 2
  {
    match n
    case Chunk(_, ss) => CountList(ss, s)
    case Block(_, ss) => CountList(ss, s)
    case ForStatement(_, _, _, _, _, _) => CountFor(n, s)
    case FunctionStatement(_, _, _, body) => CountNode(body, s)
    case AssignmentStatement(_, vars, vals) => CountAssignment(n, vars, vals, s)
    case ReturnStatement(_, es) => CountList(es, s)
    case Register(_, _, _, _) => CountRegister(n, s)
    case FunctionCall(_, _, _) => CountCall(n, s)
    case BinaryExpression(_, l, r, _) => CountPair(n, l, r, s)
    case UnaryExpression(_, e, _) => CountNode(e, s)
    case TableAccess(_, t, k) => CountPair(n, t, k, s)
    case AsmAssign(_, lhs, rhs) => CountAssignment(n, lhs, rhs, s)
    case Test(_, e) => CountNode(e, s)
    case AsmForPrep(_, _, _, _, _) => CountForPrep(n, s)
    case _ => Ok(s)
  }

  /** A numeric for: start, limit and step as values, the variable as a target, then the body. */
  function CountFor(n: Node, s: CountState): Result<CountState>
    requires n.ForStatement?
    decreases n, 1
  {
    var s1 :- CountNode(n.start, s);
    var s2 :- CountNode(n.limit, s1);
    var s3 :- CountNode(n.step, s2);
    var s4 :- CountTarget(n.variable, s3);
    CountNode(n.body, s4)
  }

  /** The loop preparation: the three loop registers as values, then the variable as a target. */
  function CountForPrep(n: Node, s: CountState): Result<CountState>
    requires n.AsmForPrep?
    decreases n, 1
  {
    var s1 :- CountNode(n.rinit, s);
    var s2 :- CountNode(n.rlimit, s1);
    var s3 :- CountNode(n.rstep, s2);
    CountTarget(n.rvar, s3)
  }

  /** An assignment of either kind: every value, then every target. */
  function CountAssignment(n: Node, vars: seq<Node>, vals: seq<Node>, s: CountState): Result<CountState>
    requires (n.AssignmentStatement? && vars == n.variables && vals == n.values)
      || (n.AsmAssign? && vars == n.lhs && vals == n.rhs)
    decreases n, 1
  {
    var s1 :- CountList(vals, s);
    CountTargets(vars, s1)
  }

  /** A call: the callee, then the arguments. */
  function CountCall(n: Node, s: CountState): Result<CountState>
    requires n.FunctionCall?
    decreases n, 1
  {
    var s1 :- CountNode(n.callee, s);
    CountList(n.arguments, s1)
  }

  /** A binary expression (left, right) or a table access (table, key). */
  function CountPair(n: Node, a: Node, b: Node, s: CountState): Result<CountState>
    requires (n.BinaryExpression? && a == n.left && b == n.right) || (n.TableAccess? && a == n.table && b == n.key)
    decreases n, 1
  {
    var s1 :- CountNode(a, s);
    CountNode(b, s1)
  }

  /** One assignment target: visited with the flag set, which is cleared afterwards. */
  function CountTarget(v: Node, s: CountState): Result<CountState>
    decreases v, 3
  {
    var t :- CountNode(v, s.(lvalue := true));
    Ok(t.(lvalue := false))
  }

  /** The nodes of a list, first to last. */
  function CountList(ns: seq<Node>, s: CountState): Result<CountState>
    decreases ns, 0
  {
    if |ns| == 0 then Ok(s)
    else
      var t :- CountList(ns[..|ns| - 1], s);
      CountNode(ns[|ns| - 1], t)
  }

  /** The targets of a list, first to last. */
  function CountTargets(ns: seq<Node>, s: CountState): Result<CountState>
    decreases ns, 1
  {
    if |ns| == 0 then Ok(s)
    else
      var t :- CountTargets(ns[..|ns| - 1], s);
      CountTarget(ns[|ns| - 1], t)
  }

  /** Writes the final counts into the register nodes they belong to. */
  function Annotate(n: Node, c: map<RegisterId, int>): Node
    decreases n, 1
  {
    match n
    case Chunk(a, ss) => Chunk(a, AnnotateAll(ss, c))
    case Block(a, ss) => Block(a, AnnotateAll(ss, c))
    case DoStatement(a, b) => DoStatement(a, Annotate(b, c))
    case WhileStatement(a, t, b) => WhileStatement(a, Annotate(t, c), Annotate(b, c))
    case RepeatUntilStatement(a, t, b) => RepeatUntilStatement(a, Annotate(t, c), Annotate(b, c))
    case IfStatement(a, t, ib, eibs, eb) =>
      IfStatement(a, Annotate(t, c), Annotate(ib, c), AnnotateAll(eibs, c), Annotate(eb, c))
    case ElseIfBlock(a, cond, b) => ElseIfBlock(a, Annotate(cond, c), Annotate(b, c))
    case ForStatement(a, v, st, li, sp, b) =>
      ForStatement(a, Annotate(v, c), Annotate(st, c), Annotate(li, c), Annotate(sp, c), Annotate(b, c))
    case ForInStatement(a, names, es, b) => ForInStatement(a, names, AnnotateAll(es, c), Annotate(b, c))
    case FunctionStatement(a, name, ps, b) => FunctionStatement(a, Annotate(name, c), ps, Annotate(b, c))
    case LocalFunctionStatement(a, name, ps, b) => LocalFunctionStatement(a, Annotate(name, c), ps, Annotate(b, c))
    case LocalVariableDeclaration(a, vars, vals) => LocalVariableDeclaration(a, AnnotateAll(vars, c), AnnotateAll(vals, c))
    case AssignmentStatement(a, vars, vals) => AssignmentStatement(a, AnnotateAll(vars, c), AnnotateAll(vals, c))
    case ReturnStatement(a, es) => ReturnStatement(a, AnnotateAll(es, c))
    case Register(a, i, rc, slot) =>
      if RegisterId(a, slot) in c then Register(a, i, c[RegisterId(a, slot)], slot) else n
    case FunctionCall(a, f, args) => FunctionCall(a, Annotate(f, c), AnnotateAll(args, c))
    case BinaryExpression(a, l, r, op) => BinaryExpression(a, Annotate(l, c), Annotate(r, c), op)
    case UnaryExpression(a, e, op) => UnaryExpression(a, Annotate(e, c), op)
    case TableConstructor(a, ks, vs) => TableConstructor(a, AnnotateAll(ks, c), AnnotateAll(vs, c))
    case TableAccess(a, t, k) => TableAccess(a, Annotate(t, c), Annotate(k, c))
    case AsmAssign(a, lhs, rhs) => AsmAssign(a, AnnotateAll(lhs, c), AnnotateAll(rhs, c))
    case Test(a, e) => Test(a, Annotate(e, c))
    case AsmForPrep(a, ri, rl, rs, rv) =>
      AsmForPrep(a, Annotate(ri, c), Annotate(rl, c), Annotate(rs, c), Annotate(rv, c))
    case AsmForLoop(a, e, off) => AsmForLoop(a, Annotate(e, c), off)
    case _ => n
  }

  function AnnotateAll(ns: seq<Node>, c: map<RegisterId, int>): seq<Node>
    decreases ns, 0
  {
    seq(|ns|, i requires 0 <= i < |ns| => Annotate(ns[i], c))
  }

  /** The whole pass over a chunk: the walk from the initial state, then the counts written into the tree. */
  function RefCount(chunk: Node): Result<Node>
  {
    var s :- CountNode(chunk, Initial);
    Ok(Annotate(chunk, s.counts))
  }

  // ---------------------------------------------------------------------------
  // Properties of the walk

  /** Every identity on the stack has a count. */
  predicate Bound(s: CountState)
  {
    forall k :: 0 <= k < |s.stack| ==> s.stack[k] in s.counts
  }

  /** `t` follows `s`: the stack has not shrunk, and no count has gone away or gone down. */
  predicate Grows(s: CountState, t: CountState)
  {
    |t.stack| >= |s.stack|
    && (forall id :: id in s.counts ==> id in t.counts && t.counts[id] >= s.counts[id])
  }

  /**
   * `Grows`; the stack keeps having a count for every identity on it; and a
   * flag that was clear is clear again.
   */
  predicate Follows(s: CountState, t: CountState)
  {
    Grows(s, t) && (Bound(s) ==> Bound(t)) && (!s.lvalue ==> !t.lvalue)
  }

  lemma FollowsTrans(s: CountState, t: CountState, u: CountState)
    requires Follows(s, t) && Follows(t, u)
    ensures Follows(s, u)
  {
  }

  /** A value register adds exactly one to the count of the node in its slot and changes nothing else. */
  lemma RValueIncrements(n: Node, s: CountState)
    requires n.Register? && !s.lvalue && Bound(s)
    ensures CountRegister(n, s).Ok? <==> 0 <= n.index < |s.stack|
    ensures CountRegister(n, s).Ok? ==>
      var t := CountRegister(n, s).value;
      var id := s.stack[n.index];
      t.stack == s.stack && t.lvalue == s.lvalue
      && id in t.counts && t.counts[id] == s.counts[id] + 1
      && (forall other :: other != id ==>
            (other in t.counts <==> other in s.counts) && (other in s.counts ==> t.counts[other] == s.counts[other]))
  {
  }

  /**
   * A target register takes slot `index` when that is the next free slot
   * (the stack grows by one) or an existing slot (the stack keeps its
   * length), and fails otherwise.
   */
  lemma LValueBinds(n: Node, s: CountState)
    requires n.Register? && s.lvalue
    ensures CountRegister(n, s).Ok? <==> 0 <= n.index <= |s.stack|
    ensures CountRegister(n, s).Ok? ==>
      var t := CountRegister(n, s).value;
      |t.stack| == (if n.index == |s.stack| then |s.stack| + 1 else |s.stack|)
      && t.stack[n.index] == IdOf(n)
      && (forall k :: 0 <= k < |s.stack| && k != n.index ==> t.stack[k] == s.stack[k])
      && IdOf(n) in t.counts && Follows(s, t)
  {
  }

  /**
   * The walk only ever pushes slots and raises counts, keeps every slot
   * counted, and leaves the target flag clear when it found it clear: every
   * statement is visited with the flag clear.
   */
  lemma {:induction false} NodeFollows(n: Node, s: CountState)
    ensures CountNode(n, s).Ok? ==> Follows(s, CountNode(n, s).value)
    decreases n, 3
  {
    if n.Chunk? || n.Block? {
      ListFollows(n.statements, s);
    } else if n.ForStatement? {
      ForFollows(n, s);
    } else if n.FunctionStatement? {
      NodeFollows(n.body, s);
    } else if n.AssignmentStatement? {
      AssignFollows(n, n.variables, n.values, s);
    } else if n.ReturnStatement? {
      ListFollows(n.expressions, s);
    } else if n.FunctionCall? {
      CallFollows(n, s);
    } else if n.BinaryExpression? {
      PairFollows(n, n.left, n.right, s);
    } else if n.UnaryExpression? {
      NodeFollows(n.operand, s);
    } else if n.TableAccess? {
      PairFollows(n, n.table, n.key, s);
    } else if n.AsmAssign? {
      AssignFollows(n, n.lhs, n.rhs, s);
    } else if n.Test? {
      NodeFollows(n.expression, s);
    } else if n.AsmForPrep? {
      PrepFollows(n, s);
    }
  }

  lemma {:induction false} ForFollows(n: Node, s: CountState)
    requires n.ForStatement?
    ensures CountFor(n, s).Ok? ==> Follows(s, CountFor(n, s).value)
    decreases n, 2
  {
    NodeFollows(n.start, s);
    if CountNode(n.start, s).Ok? {
      var s1 := CountNode(n.start, s).value;
      NodeFollows(n.limit, s1);
      if CountNode(n.limit, s1).Ok? {
        var s2 := CountNode(n.limit, s1).value;
        NodeFollows(n.step, s2);
        if CountNode(n.step, s2).Ok? {
          var s3 := CountNode(n.step, s2).value;
          TargetFollows(n.variable, s3);
          if CountTarget(n.variable, s3).Ok? {
            var s4 := CountTarget(n.variable, s3).value;
            NodeFollows(n.body, s4);
            if CountNode(n.body, s4).Ok? {
              FollowsTrans(s, s1, s2);
              FollowsTrans(s, s2, s3);
              FollowsTrans(s, s3, s4);
              FollowsTrans(s, s4, CountNode(n.body, s4).value);
            }
          }
        }
      }
    }
  }

  lemma {:induction false} PrepFollows(n: Node, s: CountState)
    requires n.AsmForPrep?
    ensures CountForPrep(n, s).Ok? ==> Follows(s, CountForPrep(n, s).value)
    decreases n, 2
  {
    NodeFollows(n.rinit, s);
    if CountNode(n.rinit, s).Ok? {
      var s1 := CountNode(n.rinit, s).value;
      NodeFollows(n.rlimit, s1);
      if CountNode(n.rlimit, s1).Ok? {
        var s2 := CountNode(n.rlimit, s1).value;
        NodeFollows(n.rstep, s2);
        if CountNode(n.rstep, s2).Ok? {
          var s3 := CountNode(n.rstep, s2).value;
          TargetFollows(n.rvar, s3);
          if CountTarget(n.rvar, s3).Ok? {
            FollowsTrans(s, s1, s2);
            FollowsTrans(s, s2, s3);
            FollowsTrans(s, s3, CountTarget(n.rvar, s3).value);
          }
        }
      }
    }
  }

  lemma {:induction false} AssignFollows(n: Node, vars: seq<Node>, vals: seq<Node>, s: CountState)
    requires (n.AssignmentStatement? && vars == n.variables && vals == n.values)
      || (n.AsmAssign? && vars == n.lhs && vals == n.rhs)
    ensures CountAssignment(n, vars, vals, s).Ok? ==> Follows(s, CountAssignment(n, vars, vals, s).value)
    decreases n, 2
  {
    ListFollows(vals, s);
    if CountList(vals, s).Ok? {
      var s1 := CountList(vals, s).value;
      TargetsFollow(vars, s1);
      if CountTargets(vars, s1).Ok? {
        FollowsTrans(s, s1, CountTargets(vars, s1).value);
      }
    }
  }

  lemma {:induction false} CallFollows(n: Node, s: CountState)
    requires n.FunctionCall?
    ensures CountCall(n, s).Ok? ==> Follows(s, CountCall(n, s).value)
    decreases n, 2
  {
    NodeFollows(n.callee, s);
    if CountNode(n.callee, s).Ok? {
      var s1 := CountNode(n.callee, s).value;
      ListFollows(n.arguments, s1);
      if CountList(n.arguments, s1).Ok? {
        FollowsTrans(s, s1, CountList(n.arguments, s1).value);
      }
    }
  }

  lemma {:induction false} PairFollows(n: Node, a: Node, b: Node, s: CountState)
    requires (n.BinaryExpression? && a == n.left && b == n.right) || (n.TableAccess? && a == n.table && b == n.key)
    ensures CountPair(n, a, b, s).Ok? ==> Follows(s, CountPair(n, a, b, s).value)
    decreases n, 2
  {
    NodeFollows(a, s);
    if CountNode(a, s).Ok? {
      var s1 := CountNode(a, s).value;
      NodeFollows(b, s1);
      if CountNode(b, s1).Ok? {
        FollowsTrans(s, s1, CountNode(b, s1).value);
      }
    }
  }

  lemma {:induction false} TargetFollows(v: Node, s: CountState)
    ensures CountTarget(v, s).Ok? ==> Follows(s, CountTarget(v, s).value)
    decreases v, 4
  {
    NodeFollows(v, s.(lvalue := true));
  }

  lemma {:induction false} ListFollows(ns: seq<Node>, s: CountState)
    ensures CountList(ns, s).Ok? ==> Follows(s, CountList(ns, s).value)
    decreases ns, 0
  {
    if |ns| > 0 {
      ListFollows(ns[..|ns| - 1], s);
      if CountList(ns[..|ns| - 1], s).Ok? {
        var t := CountList(ns[..|ns| - 1], s).value;
        NodeFollows(ns[|ns| - 1], t);
        if CountNode(ns[|ns| - 1], t).Ok? {
          FollowsTrans(s, t, CountNode(ns[|ns| - 1], t).value);
        }
      }
    }
  }

  lemma {:induction false} TargetsFollow(ns: seq<Node>, s: CountState)
    ensures CountTargets(ns, s).Ok? ==> Follows(s, CountTargets(ns, s).value)
    decreases ns, 1
  {
    if |ns| > 0 {
      TargetsFollow(ns[..|ns| - 1], s);
      if CountTargets(ns[..|ns| - 1], s).Ok? {
        var t := CountTargets(ns[..|ns| - 1], s).value;
        TargetFollows(ns[|ns| - 1], t);
        if CountTarget(ns[|ns| - 1], t).Ok? {
          FollowsTrans(s, t, CountTarget(ns[|ns| - 1], t).value);
        }
      }
    }
  }

  /** Once a prefix of a list fails, the whole list fails with the same error. */
  lemma {:induction false} ListErrStays(ns: seq<Node>, j: nat, s: CountState)
    requires j <= |ns| && CountList(ns[..j], s).Err?
    ensures CountList(ns, s) == CountList(ns[..j], s)
    decreases |ns| - j
  {
    if j < |ns| {
      assert ns[..j + 1][..j] == ns[..j];
      ListErrStays(ns, j + 1, s);
    } else {
      assert ns[..j] == ns;
    }
  }

  lemma {:induction false} TargetsErrStays(ns: seq<Node>, j: nat, s: CountState)
    requires j <= |ns| && CountTargets(ns[..j], s).Err?
    ensures CountTargets(ns, s) == CountTargets(ns[..j], s)
    decreases |ns| - j
  {
    if j < |ns| {
      assert ns[..j + 1][..j] == ns[..j];
      TargetsErrStays(ns, j + 1, s);
    } else {
      assert ns[..j] == ns;
    }
  }

  /**
   * In `R(i) = R(i)` the value is read before the target is bound: the read
   * adds one to the node previously in slot `i`, and only then does the
   * target take the slot.
   */
  lemma ReadBeforeBind(addr: int, target: Node, value: Node, s: CountState)
    requires target.Register? && value.Register? && target.index == value.index
    requires 0 <= value.index < |s.stack| && !s.lvalue && Bound(s)
    requires IdOf(target) != s.stack[value.index]
    ensures CountNode(Assign(addr, target, value), s).Ok?
    ensures
      var t := CountNode(Assign(addr, target, value), s).value;
      var previous := s.stack[value.index];
      previous in t.counts && t.counts[previous] == s.counts[previous] + 1
      && t.stack == s.stack[value.index := IdOf(target)]
      && !t.lvalue
  {
    SingleValue(value, s);
    RValueIncrements(value, s);
    var s1 := CountRegister(value, s).value;
    SingleTarget(target, s1);
    LValueBinds(target, s1.(lvalue := true));
    assert CountNode(Assign(addr, target, value), s) == CountTargets([target], s1);
  }

  /** A list of one value is that value's visit. */
  lemma SingleValue(value: Node, s: CountState)
    requires value.Register?
    ensures CountList([value], s) == CountRegister(value, s)
  {
    assert [value][..0] == [];
  }

  /** A list of one target is that target's visit, with the flag cleared after it. */
  lemma SingleTarget(target: Node, s: CountState)
    requires target.Register?
    ensures CountTargets([target], s) == (var t :- CountRegister(target, s.(lvalue := true)); Ok(t.(lvalue := false)))
  {
    assert [target][..0] == [];
    assert CountNode(target, s.(lvalue := true)) == CountRegister(target, s.(lvalue := true));
  }

  /** The statement kinds the pass leaves alone, and the leaves, change nothing. */
  lemma QuietKinds(n: Node, s: CountState)
    requires n.DoStatement? || n.WhileStatement? || n.RepeatUntilStatement? || n.IfStatement?
      || n.ElseIfBlock? || n.ForInStatement? || n.LocalFunctionStatement? || n.LocalVariableDeclaration?
      || n.TableConstructor? || n.Jump? || n.AsmForLoop? || n.AsmTForLoop?
      || n.Closure? || n.Identifier? || n.NilLiteral? || n.BooleanLiteral? || n.NumberLiteral?
      || n.StringLiteral? || n.VarargsLiteral?
    ensures CountNode(n, s) == Ok(s)
  {
  }

  /** The method's outcome matches the function's result, and on success so does the state. */
  predicate Agrees(r: Result<CountState>, o: Outcome, s: CountState)
  {
    match r
    case Ok(t) => o == Pass && s == t
    case Err(e) => o == Fail(e)
  }

  /** `PassRefCounter`: the visitor with its slot stack and target flag. */
  class RefCounter {
    var stack: seq<RegisterId>
    var lvalue: bool
    /** The reference counts of the register nodes bound so far, by identity. */
    var counts: map<RegisterId, int>

    function State(): CountState
      reads this
    {
      CountState(stack, lvalue, counts)
    }

    constructor()
      ensures State() == Initial
    {
      stack := [];
      lvalue := false;
      counts := map[];
    }

    method Visit(n: Node) returns (o: Outcome)
      modifies this
      ensures Agrees(CountNode(n, old(State())), o, State())
      decreases n, 3
    {
      if n.Chunk? || n.Block? {
        o := VisitList(n.statements);
      } else if n.ForStatement? {
        o := VisitFor(n);
      } else if n.FunctionStatement? {
        o := Visit(n.body);
      } else if n.AssignmentStatement? {
        o := VisitAssignment(n, n.variables, n.values);
      } else if n.ReturnStatement? {
        o := VisitList(n.expressions);
      } else if n.Register? || n.FunctionCall? || n.BinaryExpression? || n.UnaryExpression? || n.TableAccess? {
        o := VisitExpression(n);
      } else if n.AsmAssign? {
        o := VisitAssignment(n, n.lhs, n.rhs);
      } else if n.Test? {
        o := Visit(n.expression);
      } else if n.AsmForPrep? {
        o := VisitForPrep(n);
      } else {
        // every other kind has an empty visit
        o := Pass;
      }
    }

    /** The expression kinds with something to visit: registers, calls, operators and table accesses. */
    method VisitExpression(n: Node) returns (o: Outcome)
      requires n.Register? || n.FunctionCall? || n.BinaryExpression? || n.UnaryExpression? || n.TableAccess?
      modifies this
      ensures Agrees(CountNode(n, old(State())), o, State())
      decreases n, 2
    {
      if n.Register? {
        o := VisitRegister(n);
      } else if n.FunctionCall? {
        o := VisitCall(n);
      } else if n.BinaryExpression? {
        o := VisitPair(n, n.left, n.right);
      } else if n.UnaryExpression? {
        o := Visit(n.operand);
      } else {
        o := VisitPair(n, n.table, n.key);
      }
    }

    /** A call: the callee, then the arguments in order. */
    method VisitCall(n: Node) returns (o: Outcome)
      requires n.FunctionCall?
      modifies this
      ensures Agrees(CountCall(n, old(State())), o, State())
      decreases n, 1
    {
      o := Visit(n.callee);
      if o.Fail? { return; }
      o := VisitList(n.arguments);
    }

    /** A binary expression (left, right) or a table access (table, key). */
    method VisitPair(n: Node, a: Node, b: Node) returns (o: Outcome)
      requires (n.BinaryExpression? && a == n.left && b == n.right) || (n.TableAccess? && a == n.table && b == n.key)
      modifies this
      ensures Agrees(CountPair(n, a, b, old(State())), o, State())
      decreases n, 1
    {
      o := Visit(a);
      if o.Fail? { return; }
      o := Visit(b);
    }

    /** A register: bound to its slot as a target, counted against its slot as a value. */
    method VisitRegister(n: Node) returns (o: Outcome)
      requires n.Register?
      modifies this
      ensures Agrees(CountRegister(n, old(State())), o, State())
    {
      if lvalue {
        if |stack| == n.index {
          stack := stack + [IdOf(n)];
        } else if |stack| > n.index {
          if n.index < 0 {
            return Fail(OutOfRange);
          }
          stack := stack[n.index := IdOf(n)];
        } else {
          return Fail(BareException);
        }
        counts := Bind(counts, n);
      } else {
        if !(0 <= n.index < |stack|) {
          return Fail(OutOfRange);
        }
        var id := stack[n.index];
        counts := counts[id := CountOf(counts, id) + 1];
      }
      o := Pass;
    }

    /** Start, limit and step as values, then the variable as a target, then the body. */
    method VisitFor(n: Node) returns (o: Outcome)
      requires n.ForStatement?
      modifies this
      ensures Agrees(CountFor(n, old(State())), o, State())
      decreases n, 1
    {
      o := Visit(n.start);
      if o.Fail? { return; }
      o := Visit(n.limit);
      if o.Fail? { return; }
      o := Visit(n.step);
      if o.Fail? { return; }
      o := VisitTarget(n.variable);
      if o.Fail? { return; }
      o := Visit(n.body);
    }

    /** The three loop registers as values, then the loop variable as a target. */
    method VisitForPrep(n: Node) returns (o: Outcome)
      requires n.AsmForPrep?
      modifies this
      ensures Agrees(CountForPrep(n, old(State())), o, State())
      decreases n, 1
    {
      o := Visit(n.rinit);
      if o.Fail? { return; }
      o := Visit(n.rlimit);
      if o.Fail? { return; }
      o := Visit(n.rstep);
      if o.Fail? { return; }
      o := VisitTarget(n.rvar);
    }

    /** An assignment of either kind: every value first, then every target. */
    method VisitAssignment(n: Node, vars: seq<Node>, vals: seq<Node>) returns (o: Outcome)
      requires (n.AssignmentStatement? && vars == n.variables && vals == n.values)
        || (n.AsmAssign? && vars == n.lhs && vals == n.rhs)
      modifies this
      ensures Agrees(CountAssignment(n, vars, vals, old(State())), o, State())
      decreases n, 1
    {
      o := VisitList(vals);
      if o.Fail? { return; }
      o := VisitTargets(vars);
    }

    /** One target, with the flag set for its visit and cleared after it. */
    method VisitTarget(v: Node) returns (o: Outcome)
      modifies this
      ensures Agrees(CountTarget(v, old(State())), o, State())
      decreases v, 4
    {
      lvalue := true;
      o := Visit(v);
      if o.Fail? { return; }
      lvalue := false;
    }

    /** The nodes of a list in order, stopping at the first failure. */
    method VisitList(ns: seq<Node>) returns (o: Outcome)
      modifies this
      ensures Agrees(CountList(ns, old(State())), o, State())
      decreases ns, 0
    {
      ghost var s0 := State();
      var i := 0;
      while i < |ns|
        invariant i <= |ns|
        invariant CountList(ns[..i], s0) == Ok(State())
      {
        assert ns[..i + 1][..i] == ns[..i] && ns[..i + 1][i] == ns[i];
        o := Visit(ns[i]);
        if o.Fail? {
          ListErrStays(ns, i + 1, s0);
          return;
        }
        i := i + 1;
      }
      assert ns[..i] == ns;
      o := Pass;
    }

    /** The targets of a list in order, stopping at the first failure. */
    method VisitTargets(ns: seq<Node>) returns (o: Outcome)
      modifies this
      ensures Agrees(CountTargets(ns, old(State())), o, State())
      decreases ns, 1
    {
      ghost var s0 := State();
      var i := 0;
      while i < |ns|
        invariant i <= |ns|
        invariant CountTargets(ns[..i], s0) == Ok(State())
      {
        assert ns[..i + 1][..i] == ns[..i] && ns[..i + 1][i] == ns[i];
        o := VisitTarget(ns[i]);
        if o.Fail? {
          TargetsErrStays(ns, i + 1, s0);
          return;
        }
        i := i + 1;
      }
      assert ns[..i] == ns;
      o := Pass;
    }
  }
}
