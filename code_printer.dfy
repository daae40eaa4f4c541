/**
 * The pseudo-source printer of the Havok Script decompiler
 * (`CodePrinterVisitor`).
 *
 * The printer appends to one growing text, trims a trailing separator after
 * each list with `StringBuilder.Remove`, and keeps two fields that the visits
 * toggle: `lvalue`, set while assignment targets print, and `indent`, raised
 * by four around a block. `Emit` is that process as a function of the node and
 * the printer state; class `Printer` performs it in place, and its methods are
 * proved to agree with `Emit`. `Text` is an independent description of the
 * output, written with `Join` instead of append-then-trim, and `EmitText`
 * proves that for every well-formed tree the printer writes exactly `Text`
 * and leaves `lvalue` and `indent` as it found them.
 *
 * How a number prints (`double.ToString`) is a parameter, `num`.
 */
module CodePrinter {

  import opened Common
  import opened LuaAst

  /** The printer's fields: the text so far, the `lvalue` flag and the indent. */
  datatype PrintState = PrintState(out: string, lvalue: bool, indent: int)

  /** A fresh printer: empty text, not printing targets, indent 0. */
  const Fresh := PrintState("", false, 0)

  /** The printer after appending `t`. */
  function Append(s: PrintState, t: string): PrintState
  {
    PrintState(s.out + t, s.lvalue, s.indent)
  }

  /**
   * `Remove(Length - k, k)`: drop the last `k` characters, which throws
   * ArgumentOutOfRange when the text is shorter than `k`.
   */
  function Trim(s: PrintState, k: nat): (r: Result<PrintState>)
    ensures r.Ok? <==> |s.out| >= k
    ensures r.Ok? ==> r.value.lvalue == s.lvalue && r.value.indent == s.indent
    ensures r.Ok? ==> r.value.out + s.out[|s.out| - k..] == s.out
  {
    if |s.out| < k then Err(OutOfRange) else Ok(PrintState(s.out[..|s.out| - k], s.lvalue, s.indent))
  }

  /**
   * `AppendFormat("{0, indent}", "")`: the empty string padded to the width
   * `indent`, which .NET pads on the left for a positive width and on the right
   * for a negative one; either way |indent| spaces.
   */
  function Pad(indent: int): (r: string)
    ensures |r| == (if indent < 0 then -indent else indent)
  {
    Spaces(if indent < 0 then -indent else indent)
  }

  /** `String.Replace` of a one-character string `c` by `r`. */
  function Replace(t: string, c: char, r: string): string
  {
    if |t| == 0 then "" else (if t[0] == c then r else [t[0]]) + Replace(t[1..], c, r)
  }

  /** The body of a string literal: backslashes doubled first, then quotes escaped. */
  function Quoted(t: string): string
  {
    Replace(Replace(t, '\\', "\\\\"), '"', "\\\"")
  }

  /** How the printer lays out the items of one list. */
  datatype Layout =
    | Items       // each item, then ", "
    | Targets     // `lvalue` set, the item, ", ", `lvalue` cleared
    | Lines       // indent spaces, the item, "\n"
    | Terminated  // the item, then "\n"
    | Bare        // the items one after another

  // ---------------------------------------------------------------------------
  // The printer as a function of its state

  /** The visit of `n` (`n.Accept(this)`) from state `s`. */
  function Emit(n: Node, s: PrintState, num: Number -> string): Result<PrintState>
    decreases n, 3
  {
    if IsCompound(n) then EmitCompound(n, s, num)
    else if IsHeaded(n) then EmitHeaded(n, s, num)
    else if IsListed(n) then EmitListed(n, s, num)
    else EmitSimple(n, s, num)
  }

  predicate IsCompound(n: Node)
  {
    n.Chunk? || n.Block? || n.DoStatement? || n.WhileStatement? || n.RepeatUntilStatement?
    || n.IfStatement? || n.ElseIfBlock?
  }

  predicate IsHeaded(n: Node)
  {
    n.ForStatement? || n.ForInStatement? || n.FunctionStatement? || n.LocalFunctionStatement?
  }

  predicate IsListed(n: Node)
  {
    n.LocalVariableDeclaration? || n.AssignmentStatement? || n.AsmAssign? || n.ReturnStatement?
    || n.FunctionCall?
  }

  /** The items of `ns`, each laid out by `layout`, in order. */
  function Each(ns: seq<Node>, s: PrintState, layout: Layout, num: Number -> string): Result<PrintState>
    decreases ns, 1
  {
    if |ns| == 0 then Ok(s)
    else
      var t :- Each(ns[..|ns| - 1], s, layout, num);
      var x := ns[|ns| - 1];
      assert x in ns;
      Item(x, t, layout, num)
  }

  /** One item of a list, laid out by `layout`. */
  function Item(x: Node, t: PrintState, layout: Layout, num: Number -> string): Result<PrintState>
    decreases x, 4
  {
    var u :- Emit(x, ItemStart(t, layout), num);
    Ok(ItemEnd(u, layout))
  }

  /** What follows an item: a comma, a line end, or nothing; a target clears `lvalue`. */
  function ItemEnd(u: PrintState, layout: Layout): PrintState
  {
    match layout
    case Items => Append(u, ", ")
    case Targets => PrintState(u.out + ", ", false, u.indent)
    case Lines => Append(u, "\n")
    case Terminated => Append(u, "\n")
    case Bare => u
  }

  /** Chunk, block, do, while, repeat, if and else-if. */
  function EmitCompound(n: Node, s: PrintState, num: Number -> string): Result<PrintState>
    requires IsCompound(n)
    decreases n, 2
  {
    match n
    case Chunk(_, ss) =>
      Each(ss, s, Terminated, num)
    case Block(_, ss) =>
      var t :- Each(ss, PrintState(s.out, s.lvalue, s.indent + 4), Lines, num);
      var u :- Trim(t, 1);
      Ok(PrintState(u.out, u.lvalue, u.indent - 4))
    case DoStatement(_, body) =>
      var t :- Emit(body, Append(s, "do\n"), num);
      Ok(Append(t, Pad(t.indent) + "end"))
    case WhileStatement(_, test, body) =>
      var t :- Emit(test, Append(s, "while "), num);
      var u :- Emit(body, Append(t, " do\n"), num);
      Ok(Append(u, "\n" + Pad(u.indent) + "end"))
    case RepeatUntilStatement(_, test, body) =>
      var t :- Emit(body, Append(s, "repeat\n"), num);
      Emit(test, Append(t, "\n" + Pad(t.indent) + "until "), num)
    case IfStatement(_, test, ifBlock, elseifBlocks, elseBlock) =>
      var t :- Emit(test, Append(s, "if "), num);
      var u :- Emit(ifBlock, Append(t, " then\n"), num);
      // the loop over `elseifBlocks` writes what the visit of an ElseIfBlock writes
      var v :- Each(elseifBlocks, u, Bare, num);
      var w :- Emit(elseBlock, Append(v, Pad(v.indent) + "else\n"), num);
      Ok(Append(w, "\nend"))
    case ElseIfBlock(_, condition, block) =>
      var t :- Emit(condition, Append(s, Pad(s.indent) + "elseif "), num);
      Emit(block, Append(t, " then\n"), num)
  }

  /** A block: its statements on lines one level deeper, less the last newline, back at the outer level. */
  lemma BlockSteps(n: Node, s: PrintState, num: Number -> string)
    requires n.Block?
    ensures var t := Each(n.statements, PrintState(s.out, s.lvalue, s.indent + 4), Lines, num);
      && (t.Err? ==> EmitCompound(n, s, num) == Err(t.error))
      && (t.Ok? && Trim(t.value, 1).Err? ==> EmitCompound(n, s, num) == Err(Trim(t.value, 1).error))
      && (t.Ok? && Trim(t.value, 1).Ok? ==>
            var u := Trim(t.value, 1).value; EmitCompound(n, s, num) == Ok(PrintState(u.out, u.lvalue, u.indent - 4)))
  {
  }

  /**
   * A parameter list as the printer leaves it: each name followed by ", ",
   * and the last two characters removed when there is at least one name.
   */
  function ParameterText(names: seq<string>): string
  {
    var t := Concat(Suffixed(names, ", "));
    if |names| > 0 && |t| >= 2 then t[..|t| - 2] else t
  }

  /** For, generic for, function and local function. */
  function EmitHeaded(n: Node, s: PrintState, num: Number -> string): Result<PrintState>
    requires IsHeaded(n)
    decreases n, 2
  {
    match n
    case ForStatement(_, variable, start, limit, step, body) =>
      var a :- Emit(variable, Append(s, "for "), num);
      var b :- Emit(start, Append(a, " = "), num);
      var c :- Emit(limit, Append(b, ", "), num);
      var d :- Emit(step, Append(c, ", "), num);
      var e :- Emit(body, Append(d, " do\n"), num);
      Ok(Append(e, "\n" + Pad(e.indent) + "end"))
    case ForInStatement(_, names, expressions, body) =>
      var a :- Each(expressions, Append(s, "for " + Concat(Suffixed(names, ", ")) + "in "), Items, num);
      var b :- Trim(a, 2);
      var c :- Emit(body, Append(b, " do\n"), num);
      Ok(Append(c, "\n" + Pad(c.indent) + "end"))
    case FunctionStatement(_, name, parameters, body) =>
      var a :- Emit(name, Append(s, "function "), num);
      var b :- Emit(body, Append(a, "(" + ParameterText(parameters) + ")\n"), num);
      Ok(Append(b, "\nend"))
    case LocalFunctionStatement(_, name, parameters, body) =>
      var a :- Emit(name, Append(s, "local function "), num);
      var b :- Emit(body, Append(a, "(" + ParameterText(parameters) + ")\n"), num);
      Ok(Append(b, "\nend"))
  }

  /** The targets and values of an assignment or an AsmAssign. */
  function Sides(n: Node): (seq<Node>, seq<Node>)
    requires n.AssignmentStatement? || n.AsmAssign?
  {
    if n.AsmAssign? then (n.lhs, n.rhs) else (n.variables, n.values)
  }

  /** Local declaration, assignment, AsmAssign, return and call. */
  function EmitListed(n: Node, s: PrintState, num: Number -> string): Result<PrintState>
    requires IsListed(n)
    decreases n, 2
  {
    match n
    case LocalVariableDeclaration(_, variables, values) =>
      var a :- Each(variables, Append(s, "local "), Items, num);
      var b :- Trim(a, 2);
      if |values| == 0 then Ok(b)
      else
        var c :- Each(values, Append(b, " = "), Items, num);
        Trim(c, 2)
    case AssignmentStatement(_, _, _) =>
      EmitAssign(n, s, num)
    case AsmAssign(_, _, _) =>
      EmitAssign(n, s, num)
    case ReturnStatement(_, expressions) =>
      var a :- Each(expressions, Append(s, "return"), Items, num);
      if |expressions| > 0 then Trim(a, 2) else Ok(a)
    case FunctionCall(_, callee, arguments) =>
      var a :- Emit(callee, s, num);
      var b :- Each(arguments, Append(a, "("), Items, num);
      var c :- Trim(b, 2);
      Ok(Append(c, ")"))
  }

  /** The visits of AssignmentStatement and AsmAssign, which write the same. */
  function EmitAssign(n: Node, s: PrintState, num: Number -> string): Result<PrintState>
    requires n.AssignmentStatement? || n.AsmAssign?
    decreases n, 1
  {
    var (targets, values) := Sides(n);
    var a :- Each(targets, s, Targets, num);
    var b :- Trim(a, 2);
    var c :- Each(values, Append(b, " = "), Items, num);
    Trim(c, 2)
  }

  /** The simple kinds whose text has other nodes' text inside it. */
  predicate HasOperands(n: Node)
  {
    n.BinaryExpression? || n.UnaryExpression? || n.TableAccess? || n.Test? || n.AsmForPrep?
  }

  /** Literals, names, registers, operators, table access and the pseudo-instructions. */
  function EmitSimple(n: Node, s: PrintState, num: Number -> string): Result<PrintState>
    requires !IsCompound(n) && !IsHeaded(n) && !IsListed(n)
    decreases n, 2
  {
    match n
    case VarargsLiteral(_) => Ok(Append(s, "..."))
    case NilLiteral(_) => Ok(Append(s, "nil"))
    case BooleanLiteral(_, flag) => Ok(Append(s, if flag then "true" else "false"))
    case NumberLiteral(_, number) => Ok(Append(s, num(number)))
    case StringLiteral(_, text) => Ok(Append(s, "\"" + Quoted(text) + "\""))
    case Closure(_, index) => Ok(Append(s, "C" + SignedDecimal(index)))
    case Register(_, index, refcount, _) =>
      if s.lvalue then Ok(Append(s, "R" + SignedDecimal(index) + "(" + SignedDecimal(refcount) + ")"))
      else Ok(Append(s, "R" + SignedDecimal(index)))
    case Identifier(_, identifier) => Ok(Append(s, identifier))
    case BinaryExpression(_, left, right, op) =>
      var a :- Emit(left, s, num);
      Emit(right, Append(a, " " + op + " "), num)
    case UnaryExpression(_, operand, op) =>
      Emit(operand, Append(s, op), num)
    case TableConstructor(_, _, _) => Ok(s)
    case TableAccess(_, table, key) =>
      var a :- Emit(table, s, num);
      Emit(key, Append(a, "."), num)
    case Test(_, expression) =>
      var a :- Emit(expression, Append(s, "asm_test( "), num);
      Ok(Append(a, " )"))
    case Jump(_, offset) => Ok(Append(s, "asm_jump( " + SignedDecimal(offset) + " )"))
    case AsmForPrep(_, rinit, rlimit, rstep, rvar) =>
      var a :- Emit(rinit, Append(s, "asm_forprep( "), num);
      var b :- Emit(rlimit, Append(a, ", "), num);
      var c :- Emit(rstep, Append(b, ", "), num);
      var d :- Emit(rvar, Append(c, ", "), num);
      Ok(Append(d, " )"))
    case AsmForLoop(_, _, offset) => Ok(Append(s, "asm_forloop( " + SignedDecimal(offset) + " )"))
    case AsmTForLoop(_) => Ok(Append(s, "asm_tforloop()"))
  }

  /** `GetCode()` after visiting `n` with a fresh printer. */
  function PrintCode(n: Node, num: Number -> string): Result<string>
  {
    var t :- Emit(n, Fresh, num);
    Ok(t.out)
  }

  // ---------------------------------------------------------------------------
  // What the output is meant to be

  /** Backslash and double quote each preceded by a backslash; other characters as they are. */
  function Escape(t: string): string
  {
    if |t| == 0 then "" else EscapeChar(t[0]) + Escape(t[1..])
  }

  function EscapeChar(c: char): string
  {
    if c == '\\' then "\\\\" else if c == '"' then "\\\"" else [c]
  }

  /** Reading an escaped body back: a backslash takes the next character literally. */
  function Unescape(e: string): string
  {
    if |e| == 0 then ""
    else if e[0] == '\\' && |e| >= 2 then [e[1]] + Unescape(e[2..])
    else [e[0]] + Unescape(e[1..])
  }

  /** The texts of `ns`, in order. */
  function Texts(ns: seq<Node>, lv: bool, indent: int, num: Number -> string): (r: seq<string>)
    ensures |r| == |ns|
    decreases ns, 0
  {
    if |ns| == 0 then [] else Texts(ns[..|ns| - 1], lv, indent, num) + [Text(ns[|ns| - 1], lv, indent, num)]
  }

  /**
   * The source text of `n` at indent `indent`; `lv` says whether registers
   * print their reference counts. Lists are joined with their separators;
   * a block puts each statement on its own line, indented four more than
   * its statement, with no newline after the last.
   */
  function Text(n: Node, lv: bool, indent: int, num: Number -> string): string
    decreases n, 1
  {
    match n
    case Chunk(_, ss) => Concat(Suffixed(Texts(ss, false, indent, num), "\n"))
    case Block(_, ss) => Join(Prefixed(Texts(ss, false, indent + 4, num), Pad(indent + 4)), "\n")
    case DoStatement(_, body) => "do\n" + Text(body, false, indent, num) + (Pad(indent) + "end")
    case WhileStatement(_, test, body) =>
      "while " + Text(test, false, indent, num) + " do\n" + Text(body, false, indent, num)
      + ("\n" + Pad(indent) + "end")
    case RepeatUntilStatement(_, test, body) =>
      "repeat\n" + Text(body, false, indent, num) + ("\n" + Pad(indent) + "until ") + Text(test, false, indent, num)
    case IfStatement(_, test, ifBlock, elseifBlocks, elseBlock) =>
      "if " + Text(test, false, indent, num) + " then\n" + Text(ifBlock, false, indent, num)
      + Concat(Texts(elseifBlocks, false, indent, num))
      + (Pad(indent) + "else\n") + Text(elseBlock, false, indent, num) + "\nend"
    case ElseIfBlock(_, condition, block) =>
      (Pad(indent) + "elseif ") + Text(condition, false, indent, num) + " then\n" + Text(block, false, indent, num)
    case ForStatement(_, variable, start, limit, step, body) =>
      "for " + Text(variable, false, indent, num) + " = " + Text(start, false, indent, num)
      + ", " + Text(limit, false, indent, num) + ", " + Text(step, false, indent, num)
      + " do\n" + Text(body, false, indent, num) + ("\n" + Pad(indent) + "end")
    case ForInStatement(_, names, expressions, body) =>
      ("for " + Concat(Suffixed(names, ", ")) + "in ") + Join(Texts(expressions, false, indent, num), ", ")
      + " do\n" + Text(body, false, indent, num) + ("\n" + Pad(indent) + "end")
    case FunctionStatement(_, name, parameters, body) =>
      "function " + Text(name, false, indent, num) + ("(" + Join(parameters, ", ") + ")\n")
      + Text(body, false, indent, num) + "\nend"
    case LocalFunctionStatement(_, name, parameters, body) =>
      "local function " + Text(name, false, indent, num) + ("(" + Join(parameters, ", ") + ")\n")
      + Text(body, false, indent, num) + "\nend"
    case LocalVariableDeclaration(_, variables, values) =>
      if |values| == 0 then "local " + Join(Texts(variables, false, indent, num), ", ")
      else "local " + Join(Texts(variables, false, indent, num), ", ") + " = " + Join(Texts(values, false, indent, num), ", ")
    case AssignmentStatement(_, variables, values) =>
      Join(Texts(variables, true, indent, num), ", ") + " = " + Join(Texts(values, false, indent, num), ", ")
    case AsmAssign(_, lhs, rhs) =>
      Join(Texts(lhs, true, indent, num), ", ") + " = " + Join(Texts(rhs, false, indent, num), ", ")
    case ReturnStatement(_, expressions) => "return" + Join(Texts(expressions, false, indent, num), ", ")
    case VarargsLiteral(_) => "..."
    case NilLiteral(_) => "nil"
    case BooleanLiteral(_, flag) => if flag then "true" else "false"
    case NumberLiteral(_, number) => num(number)
    case StringLiteral(_, text) => "\"" + Escape(text) + "\""
    case Closure(_, index) => "C" + SignedDecimal(index)
    case Register(_, index, refcount, _) =>
      if lv then "R" + SignedDecimal(index) + "(" + SignedDecimal(refcount) + ")" else "R" + SignedDecimal(index)
    case Identifier(_, identifier) => identifier
    case FunctionCall(_, callee, arguments) =>
      Text(callee, lv, indent, num) + "(" + Join(Texts(arguments, lv, indent, num), ", ") + ")"
    case BinaryExpression(_, left, right, op) =>
      Text(left, lv, indent, num) + (" " + op + " ") + Text(right, lv, indent, num)
    case UnaryExpression(_, operand, op) => op + Text(operand, lv, indent, num)
    case TableConstructor(_, _, _) => ""
    case TableAccess(_, table, key) => Text(table, lv, indent, num) + "." + Text(key, lv, indent, num)
    case Test(_, expression) => "asm_test( " + Text(expression, false, indent, num) + " )"
    case Jump(_, offset) => "asm_jump( " + SignedDecimal(offset) + " )"
    case AsmForPrep(_, rinit, rlimit, rstep, rvar) =>
      "asm_forprep( " + Text(rinit, false, indent, num) + ", " + Text(rlimit, false, indent, num)
      + ", " + Text(rstep, false, indent, num) + ", " + Text(rvar, false, indent, num) + " )"
    case AsmForLoop(_, _, offset) => "asm_forloop( " + SignedDecimal(offset) + " )"
    case AsmTForLoop(_) => "asm_tforloop()"
  }

  /**
   * The trees the decompiler builds: expressions where the C# declares an
   * `Expression`, statements where it declares a `Block` or `Statement`, and
   * at least one item in every list the printer trims unconditionally.
   */
  predicate WellFormed(n: Node)
    decreases n, 1
  {
    match n
    case Chunk(_, ss) => Stmts(ss)
    case Block(_, ss) => |ss| > 0 && Stmts(ss)
    case DoStatement(_, body) => Stmt(body)
    case WhileStatement(_, test, body) => Expr(test) && Stmt(body)
    case RepeatUntilStatement(_, test, body) => Expr(test) && Stmt(body)
    case IfStatement(_, test, ifBlock, elseifBlocks, elseBlock) =>
      Expr(test) && Stmt(ifBlock) && Stmts(elseifBlocks) && Stmt(elseBlock)
    case ElseIfBlock(_, condition, block) => Expr(condition) && Stmt(block)
    case ForStatement(_, variable, start, limit, step, body) =>
      Expr(variable) && Expr(start) && Expr(limit) && Expr(step) && Stmt(body)
    case ForInStatement(_, _, expressions, body) => |expressions| > 0 && Exprs(expressions) && Stmt(body)
    case FunctionStatement(_, name, _, body) => Expr(name) && Stmt(body)
    case LocalFunctionStatement(_, name, _, body) => Expr(name) && Stmt(body)
    case LocalVariableDeclaration(_, variables, values) => |variables| > 0 && Exprs(variables) && Exprs(values)
    case AssignmentStatement(_, variables, values) =>
      |variables| > 0 && |values| > 0 && Exprs(variables) && Exprs(values)
    case AsmAssign(_, lhs, rhs) => |lhs| > 0 && |rhs| > 0 && Exprs(lhs) && Exprs(rhs)
    case ReturnStatement(_, expressions) => Exprs(expressions)
    case FunctionCall(_, callee, arguments) => Expr(callee) && |arguments| > 0 && Exprs(arguments)
    case BinaryExpression(_, left, right, _) => Expr(left) && Expr(right)
    case UnaryExpression(_, operand, _) => Expr(operand)
    case TableAccess(_, table, key) => Expr(table) && Expr(key)
    case Test(_, expression) => Expr(expression)
    case AsmForPrep(_, rinit, rlimit, rstep, rvar) => Expr(rinit) && Expr(rlimit) && Expr(rstep) && Expr(rvar)
    case _ => true
  }

  predicate Expr(n: Node)
    decreases n, 2
  {
    IsExpression(n) && WellFormed(n)
  }

  predicate Stmt(n: Node)
    decreases n, 2
  {
    !IsExpression(n) && WellFormed(n)
  }

  predicate Exprs(ns: seq<Node>)
    decreases ns, 0
  {
    forall x | x in ns :: Expr(x)
  }

  predicate Stmts(ns: seq<Node>)
    decreases ns, 0
  {
    forall x | x in ns :: Stmt(x)
  }

  // ---------------------------------------------------------------------------
  // String literals

  lemma {:induction false} ReplaceAppend(a: string, b: string, c: char, r: string)
    ensures Replace(a + b, c, r) == Replace(a, c, r) + Replace(b, c, r)
    decreases |a|
  {
    if |a| > 0 {
      assert (a + b)[1..] == a[1..] + b;
      ReplaceAppend(a[1..], b, c, r);
    } else {
      assert a + b == b;
    }
  }

  /** The two `Replace` passes escape each backslash and each quote exactly once. */
  lemma {:induction false} QuotedEscapes(t: string)
    ensures Quoted(t) == Escape(t)
    decreases |t|
  {
    if |t| > 0 {
      var head := if t[0] == '\\' then "\\\\" else [t[0]];
      assert Replace(t, '\\', "\\\\") == head + Replace(t[1..], '\\', "\\\\");
      ReplaceAppend(head, Replace(t[1..], '\\', "\\\\"), '"', "\\\"");
      if t[0] == '\\' {
        assert Replace(head, '"', "\\\"") == "\\\\" by {
          assert head[1..] == "\\";
          assert Replace(head[1..], '"', "\\\"") == "\\";
        }
      } else {
        assert Replace(head, '"', "\\\"") == EscapeChar(t[0]) by {
          assert head[1..] == "";
        }
      }
      QuotedEscapes(t[1..]);
    }
  }

  /** Reading the escaped body back recovers the text. */
  lemma {:induction false} UnescapeEscape(t: string)
    ensures Unescape(Escape(t)) == t
    decreases |t|
  {
    if |t| > 0 {
      var e := Escape(t);
      UnescapeEscape(t[1..]);
      if t[0] == '\\' || t[0] == '"' {
        assert e[0] == '\\' && |e| >= 2 && e[1] == t[0] && e[2..] == Escape(t[1..]);
      } else {
        assert e[0] == t[0] && e[1..] == Escape(t[1..]);
      }
      assert t == [t[0]] + t[1..];
    }
  }

  /** Two different strings never print as the same literal. */
  lemma StringLiteralInjective(addr: int, a: string, b: string, s: PrintState, num: Number -> string)
    ensures Emit(StringLiteral(addr, a), s, num) == Emit(StringLiteral(addr, b), s, num) <==> a == b
  {
    LeafText(StringLiteral(addr, a), s, num);
    LeafText(StringLiteral(addr, b), s, num);
    if Emit(StringLiteral(addr, a), s, num) == Emit(StringLiteral(addr, b), s, num) {
      Unquote(s.out, Escape(a), Escape(b));
      UnescapeEscape(a);
      UnescapeEscape(b);
    }
  }

  lemma Unquote(o: string, x: string, y: string)
    requires o + ("\"" + x + "\"") == o + ("\"" + y + "\"")
    ensures x == y
  {
    var u, v := o + ("\"" + x + "\""), o + ("\"" + y + "\"");
    assert u[|o| + 1..|u| - 1] == x;
    assert v[|o| + 1..|v| - 1] == y;
  }

  // ---------------------------------------------------------------------------
  // Lists: appending with a separator, then trimming it, is joining

  /** Each item followed by `sep`, all together, is the items joined by `sep` and one more `sep`. */
  lemma {:induction false} SuffixedJoin(xs: seq<string>, sep: string)
    requires |xs| > 0
    ensures Concat(Suffixed(xs, sep)) == Join(xs, sep) + sep
    decreases |xs|
  {
    var ys := Suffixed(xs, sep);
    assert ys == Suffixed(xs[..|xs| - 1], sep) + [xs[|xs| - 1] + sep];
    ConcatSnoc(Suffixed(xs[..|xs| - 1], sep), xs[|xs| - 1] + sep);
    if |xs| > 1 {
      SuffixedJoin(xs[..|xs| - 1], sep);
    } else {
      assert Suffixed(xs[..0], sep) == [];
    }
  }

  /** The parameter list is the parameter names joined by ", ". */
  lemma ParameterTextJoin(names: seq<string>)
    ensures ParameterText(names) == Join(names, ", ")
  {
    if |names| > 0 {
      SuffixedJoin(names, ", ");
      var j := Join(names, ", ");
      assert (j + ", ")[..|j + ", "| - 2] == j;
    }
  }

  /** Removing the separator just appended leaves the text before it. */
  lemma TrimSeparator(s: PrintState, body: string, sep: string)
    ensures Trim(Append(s, body + sep), |sep|) == Ok(Append(s, body))
  {
    var o := s.out + (body + sep);
    assert o[..|o| - |sep|] == s.out + body;
  }

  /** What one item of a list contributes. */
  function Decorate(x: string, layout: Layout, indent: int): string
  {
    match layout
    case Items => x + ", "
    case Targets => x + ", "
    case Lines => Pad(indent) + x + "\n"
    case Terminated => x + "\n"
    case Bare => x
  }

  function Decorated(xs: seq<string>, layout: Layout, indent: int): (r: seq<string>)
    ensures |r| == |xs|
  {
    seq(|xs|, i requires 0 <= i < |xs| => Decorate(xs[i], layout, indent))
  }

  /** Whether the items of a list print with reference counts. */
  function ItemLvalue(layout: Layout, lv: bool): bool
  {
    match layout
    case Items => lv
    case Targets => true
    case _ => false
  }

  /** Items and targets are expressions; lines, terminated and bare items are statements. */
  predicate Fits(ns: seq<Node>, layout: Layout)
  {
    if layout.Items? || layout.Targets? then Exprs(ns) else Stmts(ns)
  }

  lemma DecoratedAs(xs: seq<string>, layout: Layout, indent: int)
    ensures layout.Items? || layout.Targets? ==> Decorated(xs, layout, indent) == Suffixed(xs, ", ")
    ensures layout.Lines? ==> Decorated(xs, layout, indent) == Suffixed(Prefixed(xs, Pad(indent)), "\n")
    ensures layout.Terminated? ==> Decorated(xs, layout, indent) == Suffixed(xs, "\n")
    ensures layout.Bare? ==> Decorated(xs, layout, indent) == xs
  {
  }

  lemma DecoratedSnoc(xs: seq<string>, x: string, layout: Layout, indent: int)
    ensures Decorated(xs + [x], layout, indent) == Decorated(xs, layout, indent) + [Decorate(x, layout, indent)]
  {
  }

  /** The joined texts of a non-empty list of expressions, as a list with ", " after each item writes them. */
  lemma JoinedItems(ns: seq<Node>, s: PrintState, num: Number -> string)
    requires |ns| > 0 && Exprs(ns)
    ensures Each(ns, s, Items, num) == Ok(Append(s, Join(Texts(ns, s.lvalue, s.indent, num), ", ") + ", "))
    decreases ns, 2
  {
    EachText(ns, s, Items, num);
    DecoratedAs(Texts(ns, s.lvalue, s.indent, num), Items, s.indent);
    SuffixedJoin(Texts(ns, s.lvalue, s.indent, num), ", ");
  }

  /** The joined texts of a non-empty list of targets, as a list with ", " after each target writes them. */
  lemma JoinedTargets(ns: seq<Node>, s: PrintState, num: Number -> string)
    requires |ns| > 0 && Exprs(ns) && !s.lvalue
    ensures Each(ns, s, Targets, num) == Ok(Append(s, Join(Texts(ns, true, s.indent, num), ", ") + ", "))
    decreases ns, 2
  {
    EachText(ns, s, Targets, num);
    DecoratedAs(Texts(ns, true, s.indent, num), Targets, s.indent);
    SuffixedJoin(Texts(ns, true, s.indent, num), ", ");
  }

  /** The right-hand side of an assignment: " = ", then the values joined by ", ". */
  lemma ValuesText(ns: seq<Node>, b: PrintState, num: Number -> string)
    requires |ns| > 0 && Exprs(ns) && !b.lvalue
    ensures var c := Each(ns, Append(b, " = "), Items, num);
      c.Ok? && Trim(c.value, 2) == Ok(Append(b, " = " + Join(Texts(ns, false, b.indent, num), ", ")))
    decreases ns, 3
  {
    var b1 := Append(b, " = ");
    var xs := Join(Texts(ns, b1.lvalue, b1.indent, num), ", ");
    JoinedItems(ns, b1, num);
    assert Each(ns, b1, Items, num) == Ok(Append(b1, xs + ", "));
    TrimSeparator(b1, xs, ", ");
    Then(b, " = ", xs);
  }

  // ---------------------------------------------------------------------------
  // The printer writes the text

  /**
   * Visiting a well-formed tree appends its text and leaves `lvalue` and
   * `indent` as they were; statements are visited with `lvalue` clear.
   */
  lemma EmitText(n: Node, s: PrintState, num: Number -> string)
    requires WellFormed(n)
    requires !IsExpression(n) ==> !s.lvalue
    ensures Emit(n, s, num) == Ok(Append(s, Text(n, s.lvalue, s.indent, num)))
    decreases n, 2
  {
    if IsCompound(n) || IsHeaded(n) {
      StatementText(n, s, num);
    } else if IsListed(n) {
      ListedText(n, s, num);
    } else if HasOperands(n) {
      OperandsText(n, s, num);
    } else {
      LeafText(n, s, num);
    }
  }

  /** A list visit appends each item's text, laid out as `layout` says. */
  lemma {:induction false} EachText(ns: seq<Node>, s: PrintState, layout: Layout, num: Number -> string)
    requires Fits(ns, layout)
    requires !layout.Items? ==> !s.lvalue
    ensures Each(ns, s, layout, num)
         == Ok(Append(s, Concat(Decorated(Texts(ns, ItemLvalue(layout, s.lvalue), s.indent, num), layout, s.indent))))
    decreases ns, 1
  {
    if |ns| > 0 {
      var init, x := ns[..|ns| - 1], ns[|ns| - 1];
      assert x in ns;
      assert Fits(init, layout) by {
        forall y | y in init ensures y in ns { }
      }
      assert WellFormed(x) && (IsExpression(x) || !(layout.Items? || layout.Targets?)) by {
        if layout.Items? || layout.Targets? { assert Expr(x); } else { assert Stmt(x); }
      }
      EachText(init, s, layout, num);
      var lv := ItemLvalue(layout, s.lvalue);
      var c0, tx := Concat(Decorated(Texts(init, lv, s.indent, num), layout, s.indent)), Text(x, lv, s.indent, num);
      assert ns[..|ns| - 1] == init;
      EachLast(ns, s, Append(s, c0), layout, num);
      Then(s, c0, Decorate(tx, layout, s.indent));
      assert Texts(ns, lv, s.indent, num) == Texts(init, lv, s.indent, num) + [tx];
      DecoratedSnoc(Texts(init, lv, s.indent, num), tx, layout, s.indent);
      ConcatSnoc(Decorated(Texts(init, lv, s.indent, num), layout, s.indent), Decorate(tx, layout, s.indent));
    } else {
      assert s.out + "" == s.out;
    }
  }

  /** The last item of a list visit appends its text, laid out as `layout` says, to what the others left. */
  lemma EachLast(ns: seq<Node>, s: PrintState, t: PrintState, layout: Layout, num: Number -> string)
    requires |ns| > 0 && Each(ns[..|ns| - 1], s, layout, num) == Ok(t)
    requires t.lvalue == s.lvalue && t.indent == s.indent && (!layout.Items? ==> !s.lvalue)
    requires var x := ns[|ns| - 1]; WellFormed(x) && (IsExpression(x) || !(layout.Items? || layout.Targets?))
    ensures var x := ns[|ns| - 1];
      Each(ns, s, layout, num) == Ok(Append(t, Decorate(Text(x, ItemLvalue(layout, s.lvalue), s.indent, num), layout, s.indent)))
    decreases ns, 0
  {
    var x := ns[|ns| - 1];
    assert x in ns;
    assert Each(ns, s, layout, num) == Item(x, t, layout, num);
    ItemText(x, t, layout, num);
  }

  /** An item appends its text, laid out as `layout` says. */
  lemma ItemText(x: Node, t: PrintState, layout: Layout, num: Number -> string)
    requires WellFormed(x) && (IsExpression(x) || !(layout.Items? || layout.Targets?))
    requires !layout.Items? ==> !t.lvalue
    ensures Item(x, t, layout, num) == Ok(Append(t, Decorate(Text(x, ItemLvalue(layout, t.lvalue), t.indent, num), layout, t.indent)))
    decreases x, 3
  {
    var u := ItemStart(t, layout);
    EmitText(x, u, num);
    ItemAppends(x, t, layout, num, Text(x, u.lvalue, u.indent, num));
  }

  /** Where the visit of an item starts: after the indent of a line, with `lvalue` set for a target. */
  function ItemStart(t: PrintState, layout: Layout): (u: PrintState)
    ensures u.indent == t.indent && u.lvalue == (layout.Targets? || t.lvalue)
  {
    match layout
    case Targets => PrintState(t.out, true, t.indent)
    case Lines => Append(t, Pad(t.indent))
    case _ => t
  }

  /** An item whose visit appends `tx` appends `tx` laid out as `layout` says. */
  lemma ItemAppends(x: Node, t: PrintState, layout: Layout, num: Number -> string, tx: string)
    requires !layout.Items? ==> !t.lvalue
    requires Emit(x, ItemStart(t, layout), num) == Ok(Append(ItemStart(t, layout), tx))
    ensures Item(x, t, layout, num) == Ok(Append(t, Decorate(tx, layout, t.indent)))
  {
    match layout {
      case Items => Then(t, tx, ", ");
      case Targets => assert t.out + tx + ", " == t.out + (tx + ", ");
      case Lines => assert t.out + Pad(t.indent) + tx + "\n" == t.out + (Pad(t.indent) + tx + "\n");
      case Terminated => Then(t, tx, "\n");
      case Bare =>
    }
  }

  /** One more name of a suffixed list adds that name and the suffix to its text. */
  lemma SuffixedStep(names: seq<string>, i: nat, t: string)
    requires i < |names|
    ensures Concat(Suffixed(names[..i + 1], t)) == Concat(Suffixed(names[..i], t)) + (names[i] + t)
  {
    assert Suffixed(names[..i + 1], t) == Suffixed(names[..i], t) + [names[i] + t];
    ConcatSnoc(Suffixed(names[..i], t), names[i] + t);
  }

  /** Text appended piece by piece, regrouped around the item. */
  lemma Regroup(o: string, c: string, x: string, y: string)
    ensures o + c + x + y == o + (c + (x + y))
  {
  }

  lemma RegroupLine(o: string, c: string, p: string, x: string, y: string)
    ensures o + c + p + x + y == o + (c + (p + x + y))
  {
  }

  /** Two appends are one append of both parts. */
  lemma Then(s: PrintState, a: string, b: string)
    ensures Append(Append(s, a), b) == Append(s, a + b)
  {
    assert s.out + a + b == s.out + (a + b);
  }

  /** The kinds whose visit appends one fixed piece of text. */
  predicate IsLeaf(n: Node)
  {
    n.VarargsLiteral? || n.NilLiteral? || n.BooleanLiteral? || n.NumberLiteral? || n.StringLiteral?
    || n.Closure? || n.Register? || n.Identifier? || n.TableConstructor? || n.Jump? || n.AsmForLoop?
    || n.AsmTForLoop?
  }

  lemma StatementText(n: Node, s: PrintState, num: Number -> string)
    requires IsCompound(n) || IsHeaded(n)
    requires WellFormed(n) && !s.lvalue
    ensures Emit(n, s, num) == Ok(Append(s, Text(n, s.lvalue, s.indent, num)))
    decreases n, 1
  {
    match n
    case Chunk(_, _) => ChunkText(n, s, num);
    case Block(_, _) => BlockText(n, s, num);
    case DoStatement(_, _) => DoText(n, s, num);
    case WhileStatement(_, _, _) => WhileText(n, s, num);
    case RepeatUntilStatement(_, _, _) => RepeatText(n, s, num);
    case IfStatement(_, _, _, _, _) => IfText(n, s, num);
    case ElseIfBlock(_, _, _) => ElseIfText(n, s, num);
    case ForStatement(_, _, _, _, _, _) => ForText(n, s, num);
    case ForInStatement(_, _, _, _) => ForInText(n, s, num);
    case FunctionStatement(_, _, _, _) => FunctionText(n, s, num);
    case LocalFunctionStatement(_, _, _, _) => FunctionText(n, s, num);
  }

  lemma ListedText(n: Node, s: PrintState, num: Number -> string)
    requires IsListed(n) && WellFormed(n)
    requires !IsExpression(n) ==> !s.lvalue
    ensures Emit(n, s, num) == Ok(Append(s, Text(n, s.lvalue, s.indent, num)))
    decreases n, 1
  {
    match n
    case LocalVariableDeclaration(_, _, _) => LocalText(n, s, num);
    case AssignmentStatement(_, _, _) => AssignText(n, s, num);
    case AsmAssign(_, _, _) => AssignText(n, s, num);
    case ReturnStatement(_, _) => ReturnText(n, s, num);
    case FunctionCall(_, _, _) => CallText(n, s, num);
  }

  lemma OperandsText(n: Node, s: PrintState, num: Number -> string)
    requires HasOperands(n) && WellFormed(n)
    requires !IsExpression(n) ==> !s.lvalue
    ensures Emit(n, s, num) == Ok(Append(s, Text(n, s.lvalue, s.indent, num)))
    decreases n, 1
  {
    match n
    case BinaryExpression(_, _, _, _) => BinaryText(n, s, num);
    case UnaryExpression(_, _, _) => UnaryText(n, s, num);
    case TableAccess(_, _, _) => AccessText(n, s, num);
    case Test(_, _) => TestText(n, s, num);
    case AsmForPrep(_, _, _, _, _) => ForPrepText(n, s, num);
  }

  lemma LeafText(n: Node, s: PrintState, num: Number -> string)
    requires IsLeaf(n)
    ensures Emit(n, s, num) == Ok(Append(s, Text(n, s.lvalue, s.indent, num)))
  {
    if n.StringLiteral? {
      QuotedEscapes(n.text);
    } else if n.TableConstructor? {
      assert s.out + "" == s.out;
    } else if n.Closure? || n.Register? {
      SlotLeafText(n, s, num);
    } else if n.Jump? || n.AsmForLoop? || n.AsmTForLoop? {
      PseudoLeafText(n, s, num);
    } else {
      LiteralLeafText(n, s, num);
    }
  }

  /** A closure prints as C and its index; a register as R and its index, and its count when a target. */
  lemma SlotLeafText(n: Node, s: PrintState, num: Number -> string)
    requires n.Closure? || n.Register?
    ensures Emit(n, s, num) == Ok(Append(s, Text(n, s.lvalue, s.indent, num)))
  {
  }

  /** The jump and loop pseudo-instructions print as calls of `asm_` functions. */
  lemma PseudoLeafText(n: Node, s: PrintState, num: Number -> string)
    requires n.Jump? || n.AsmForLoop? || n.AsmTForLoop?
    ensures Emit(n, s, num) == Ok(Append(s, Text(n, s.lvalue, s.indent, num)))
  {
  }

  /** `...`, `nil`, a boolean, a number and a name print as themselves. */
  lemma LiteralLeafText(n: Node, s: PrintState, num: Number -> string)
    requires n.VarargsLiteral? || n.NilLiteral? || n.BooleanLiteral? || n.NumberLiteral? || n.Identifier?
    ensures Emit(n, s, num) == Ok(Append(s, Text(n, s.lvalue, s.indent, num)))
  {
  }

  lemma ChunkText(n: Node, s: PrintState, num: Number -> string)
    requires n.Chunk? && WellFormed(n) && !s.lvalue
    ensures Emit(n, s, num) == Ok(Append(s, Text(n, s.lvalue, s.indent, num)))
    decreases n, 0
  {
    EachText(n.statements, s, Terminated, num);
    DecoratedAs(Texts(n.statements, false, s.indent, num), Terminated, s.indent);
  }

  lemma BlockText(n: Node, s: PrintState, num: Number -> string)
    requires n.Block? && WellFormed(n) && !s.lvalue
    ensures Emit(n, s, num) == Ok(Append(s, Text(n, s.lvalue, s.indent, num)))
    decreases n, 0
  {
    var s4 := PrintState(s.out, s.lvalue, s.indent + 4);
    var ts := Prefixed(Texts(n.statements, false, s.indent + 4, num), Pad(s.indent + 4));
    EachText(n.statements, s4, Lines, num);
    DecoratedAs(Texts(n.statements, false, s.indent + 4, num), Lines, s.indent + 4);
    SuffixedJoin(ts, "\n");
    TrimSeparator(s4, Join(ts, "\n"), "\n");
  }

  lemma DoText(n: Node, s: PrintState, num: Number -> string)
    requires n.DoStatement? && WellFormed(n) && !s.lvalue
    ensures Emit(n, s, num) == Ok(Append(s, Text(n, s.lvalue, s.indent, num)))
    decreases n, 0
  {
    var b := Text(n.body, false, s.indent, num);
    EmitText(n.body, Append(s, "do\n"), num);
    Then(s, "do\n", b);
    Then(s, "do\n" + b, Pad(s.indent) + "end");
  }

  lemma WhileText(n: Node, s: PrintState, num: Number -> string)
    requires n.WhileStatement? && WellFormed(n) && !s.lvalue
    ensures Emit(n, s, num) == Ok(Append(s, Text(n, s.lvalue, s.indent, num)))
    decreases n, 0
  {
    var t, b := Text(n.test, false, s.indent, num), Text(n.body, false, s.indent, num);
    EmitText(n.test, Append(s, "while "), num);
    Then(s, "while ", t);
    Then(s, "while " + t, " do\n");
    EmitText(n.body, Append(s, "while " + t + " do\n"), num);
    Then(s, "while " + t + " do\n", b);
    Then(s, "while " + t + " do\n" + b, "\n" + Pad(s.indent) + "end");
  }

  lemma RepeatText(n: Node, s: PrintState, num: Number -> string)
    requires n.RepeatUntilStatement? && WellFormed(n) && !s.lvalue
    ensures Emit(n, s, num) == Ok(Append(s, Text(n, s.lvalue, s.indent, num)))
    decreases n, 0
  {
    var t, b := Text(n.test, false, s.indent, num), Text(n.body, false, s.indent, num);
    var until := "\n" + Pad(s.indent) + "until ";
    EmitText(n.body, Append(s, "repeat\n"), num);
    Then(s, "repeat\n", b);
    Then(s, "repeat\n" + b, until);
    EmitText(n.test, Append(s, "repeat\n" + b + until), num);
    Then(s, "repeat\n" + b + until, t);
  }

  lemma IfText(n: Node, s: PrintState, num: Number -> string)
    requires n.IfStatement? && WellFormed(n) && !s.lvalue
    ensures Emit(n, s, num) == Ok(Append(s, Text(n, s.lvalue, s.indent, num)))
    decreases n, 0
  {
    var i := s.indent;
    var t, b, e := Text(n.test, false, i, num), Text(n.ifBlock, false, i, num), Text(n.elseBlock, false, i, num);
    var c := Concat(Texts(n.elseifBlocks, false, i, num));
    EmitText(n.test, Append(s, "if "), num);
    Then(s, "if ", t);
    Then(s, "if " + t, " then\n");
    EmitText(n.ifBlock, Append(s, "if " + t + " then\n"), num);
    Then(s, "if " + t + " then\n", b);
    EachText(n.elseifBlocks, Append(s, "if " + t + " then\n" + b), Bare, num);
    DecoratedAs(Texts(n.elseifBlocks, false, i, num), Bare, i);
    Then(s, "if " + t + " then\n" + b, c);
    Then(s, "if " + t + " then\n" + b + c, Pad(i) + "else\n");
    EmitText(n.elseBlock, Append(s, "if " + t + " then\n" + b + c + (Pad(i) + "else\n")), num);
    Then(s, "if " + t + " then\n" + b + c + (Pad(i) + "else\n"), e);
    Then(s, "if " + t + " then\n" + b + c + (Pad(i) + "else\n") + e, "\nend");
  }

  lemma ElseIfText(n: Node, s: PrintState, num: Number -> string)
    requires n.ElseIfBlock? && WellFormed(n) && !s.lvalue
    ensures Emit(n, s, num) == Ok(Append(s, Text(n, s.lvalue, s.indent, num)))
    decreases n, 0
  {
    var head := Pad(s.indent) + "elseif ";
    var c, b := Text(n.condition, false, s.indent, num), Text(n.block, false, s.indent, num);
    EmitText(n.condition, Append(s, head), num);
    Then(s, head, c);
    Then(s, head + c, " then\n");
    EmitText(n.block, Append(s, head + c + " then\n"), num);
    Then(s, head + c + " then\n", b);
  }

  lemma ForText(n: Node, s: PrintState, num: Number -> string)
    requires n.ForStatement? && WellFormed(n) && !s.lvalue
    ensures Emit(n, s, num) == Ok(Append(s, Text(n, s.lvalue, s.indent, num)))
    decreases n, 0
  {
    var i := s.indent;
    var v, st, l := Text(n.variable, false, i, num), Text(n.start, false, i, num), Text(n.limit, false, i, num);
    var sp, b := Text(n.step, false, i, num), Text(n.body, false, i, num);
    EmitText(n.variable, Append(s, "for "), num);
    Then(s, "for ", v);
    Then(s, "for " + v, " = ");
    EmitText(n.start, Append(s, "for " + v + " = "), num);
    Then(s, "for " + v + " = ", st);
    Then(s, "for " + v + " = " + st, ", ");
    EmitText(n.limit, Append(s, "for " + v + " = " + st + ", "), num);
    Then(s, "for " + v + " = " + st + ", ", l);
    Then(s, "for " + v + " = " + st + ", " + l, ", ");
    EmitText(n.step, Append(s, "for " + v + " = " + st + ", " + l + ", "), num);
    Then(s, "for " + v + " = " + st + ", " + l + ", ", sp);
    Then(s, "for " + v + " = " + st + ", " + l + ", " + sp, " do\n");
    EmitText(n.body, Append(s, "for " + v + " = " + st + ", " + l + ", " + sp + " do\n"), num);
    Then(s, "for " + v + " = " + st + ", " + l + ", " + sp + " do\n", b);
    Then(s, "for " + v + " = " + st + ", " + l + ", " + sp + " do\n" + b, "\n" + Pad(i) + "end");
  }

  lemma ForInText(n: Node, s: PrintState, num: Number -> string)
    requires n.ForInStatement? && WellFormed(n) && !s.lvalue
    ensures Emit(n, s, num) == Ok(Append(s, Text(n, s.lvalue, s.indent, num)))
    decreases n, 0
  {
    var head := "for " + Concat(Suffixed(n.names, ", ")) + "in ";
    var j, b := Join(Texts(n.expressions, false, s.indent, num), ", "), Text(n.body, false, s.indent, num);
    JoinedItems(n.expressions, Append(s, head), num);
    TrimSeparator(Append(s, head), j, ", ");
    Then(s, head, j);
    Then(s, head + j, " do\n");
    EmitText(n.body, Append(s, head + j + " do\n"), num);
    Then(s, head + j + " do\n", b);
    Then(s, head + j + " do\n" + b, "\n" + Pad(s.indent) + "end");
  }

  lemma FunctionText(n: Node, s: PrintState, num: Number -> string)
    requires (n.FunctionStatement? || n.LocalFunctionStatement?) && WellFormed(n) && !s.lvalue
    ensures Emit(n, s, num) == Ok(Append(s, Text(n, s.lvalue, s.indent, num)))
    decreases n, 0
  {
    var keyword := if n.FunctionStatement? then "function " else "local function ";
    var f, b := Text(n.name, false, s.indent, num), Text(n.body, false, s.indent, num);
    var params := "(" + ParameterText(n.parameters) + ")\n";
    ParameterTextJoin(n.parameters);
    EmitText(n.name, Append(s, keyword), num);
    Then(s, keyword, f);
    Then(s, keyword + f, params);
    EmitText(n.body, Append(s, keyword + f + params), num);
    Then(s, keyword + f + params, b);
    Then(s, keyword + f + params + b, "\nend");
  }

  lemma LocalText(n: Node, s: PrintState, num: Number -> string)
    requires n.LocalVariableDeclaration? && WellFormed(n) && !s.lvalue
    ensures Emit(n, s, num) == Ok(Append(s, Text(n, s.lvalue, s.indent, num)))
    decreases n, 0
  {
    var vs := Join(Texts(n.variables, false, s.indent, num), ", ");
    JoinedItems(n.variables, Append(s, "local "), num);
    TrimSeparator(Append(s, "local "), vs, ", ");
    Then(s, "local ", vs);
    if |n.values| > 0 {
      var xs := Join(Texts(n.values, false, s.indent, num), ", ");
      Then(s, "local " + vs, " = ");
      JoinedItems(n.values, Append(s, "local " + vs + " = "), num);
      TrimSeparator(Append(s, "local " + vs + " = "), xs, ", ");
      Then(s, "local " + vs + " = ", xs);
    }
  }

  lemma AssignText(n: Node, s: PrintState, num: Number -> string)
    requires (n.AssignmentStatement? || n.AsmAssign?) && WellFormed(n) && !s.lvalue
    ensures Emit(n, s, num) == Ok(Append(s, Text(n, s.lvalue, s.indent, num)))
    decreases n, 0
  {
    var (targets, values) := Sides(n);
    var ts := Join(Texts(targets, true, s.indent, num), ", ");
    var xs := Join(Texts(values, false, s.indent, num), ", ");
    JoinedTargets(targets, s, num);
    TrimSeparator(s, ts, ", ");
    ValuesText(values, Append(s, ts), num);
    Then(s, ts, " = " + xs);
    assert ts + (" = " + xs) == ts + " = " + xs;
    assert EmitAssign(n, s, num) == Ok(Append(s, ts + " = " + xs));
    assert Text(n, s.lvalue, s.indent, num) == ts + " = " + xs;
    assert Emit(n, s, num) == EmitAssign(n, s, num);
  }

  lemma ReturnText(n: Node, s: PrintState, num: Number -> string)
    requires n.ReturnStatement? && WellFormed(n) && !s.lvalue
    ensures Emit(n, s, num) == Ok(Append(s, Text(n, s.lvalue, s.indent, num)))
    decreases n, 0
  {
    if |n.expressions| > 0 {
      var j := Join(Texts(n.expressions, false, s.indent, num), ", ");
      JoinedItems(n.expressions, Append(s, "return"), num);
      TrimSeparator(Append(s, "return"), j, ", ");
      Then(s, "return", j);
    } else {
      assert Texts(n.expressions, false, s.indent, num) == [];
      assert "return" + "" == "return";
      assert Each(n.expressions, Append(s, "return"), Items, num) == Ok(Append(s, "return"));
      assert Text(n, s.lvalue, s.indent, num) == "return";
    }
  }

  lemma CallText(n: Node, s: PrintState, num: Number -> string)
    requires n.FunctionCall? && WellFormed(n)
    ensures Emit(n, s, num) == Ok(Append(s, Text(n, s.lvalue, s.indent, num)))
    decreases n, 0
  {
    var f := Text(n.callee, s.lvalue, s.indent, num);
    var j := Join(Texts(n.arguments, s.lvalue, s.indent, num), ", ");
    EmitText(n.callee, s, num);
    Then(s, f, "(");
    JoinedItems(n.arguments, Append(s, f + "("), num);
    TrimSeparator(Append(s, f + "("), j, ", ");
    Then(s, f + "(", j);
    Then(s, f + "(" + j, ")");
  }

  lemma BinaryText(n: Node, s: PrintState, num: Number -> string)
    requires n.BinaryExpression? && WellFormed(n)
    ensures Emit(n, s, num) == Ok(Append(s, Text(n, s.lvalue, s.indent, num)))
    decreases n, 0
  {
    var l, r := Text(n.left, s.lvalue, s.indent, num), Text(n.right, s.lvalue, s.indent, num);
    var op := " " + n.op + " ";
    EmitText(n.left, s, num);
    Then(s, l, op);
    EmitText(n.right, Append(s, l + op), num);
    Then(s, l + op, r);
  }

  lemma UnaryText(n: Node, s: PrintState, num: Number -> string)
    requires n.UnaryExpression? && WellFormed(n)
    ensures Emit(n, s, num) == Ok(Append(s, Text(n, s.lvalue, s.indent, num)))
    decreases n, 0
  {
    EmitText(n.operand, Append(s, n.op), num);
    Then(s, n.op, Text(n.operand, s.lvalue, s.indent, num));
  }

  lemma AccessText(n: Node, s: PrintState, num: Number -> string)
    requires n.TableAccess? && WellFormed(n)
    ensures Emit(n, s, num) == Ok(Append(s, Text(n, s.lvalue, s.indent, num)))
    decreases n, 0
  {
    var t, k := Text(n.table, s.lvalue, s.indent, num), Text(n.key, s.lvalue, s.indent, num);
    EmitText(n.table, s, num);
    Then(s, t, ".");
    EmitText(n.key, Append(s, t + "."), num);
    Then(s, t + ".", k);
  }

  lemma TestText(n: Node, s: PrintState, num: Number -> string)
    requires n.Test? && WellFormed(n) && !s.lvalue
    ensures Emit(n, s, num) == Ok(Append(s, Text(n, s.lvalue, s.indent, num)))
    decreases n, 0
  {
    var e := Text(n.expression, false, s.indent, num);
    EmitText(n.expression, Append(s, "asm_test( "), num);
    Then(s, "asm_test( ", e);
    Then(s, "asm_test( " + e, " )");
  }

  lemma ForPrepText(n: Node, s: PrintState, num: Number -> string)
    requires n.AsmForPrep? && WellFormed(n) && !s.lvalue
    ensures Emit(n, s, num) == Ok(Append(s, Text(n, s.lvalue, s.indent, num)))
    decreases n, 0
  {
    var i := s.indent;
    var a, b, c, d := Text(n.rinit, false, i, num), Text(n.rlimit, false, i, num), Text(n.rstep, false, i, num), Text(n.rvar, false, i, num);
    var h := "asm_forprep( ";
    EmitText(n.rinit, Append(s, h), num);
    Then(s, h, a);
    Then(s, h + a, ", ");
    EmitText(n.rlimit, Append(s, h + a + ", "), num);
    Then(s, h + a + ", ", b);
    Then(s, h + a + ", " + b, ", ");
    EmitText(n.rstep, Append(s, h + a + ", " + b + ", "), num);
    Then(s, h + a + ", " + b + ", ", c);
    Then(s, h + a + ", " + b + ", " + c, ", ");
    EmitText(n.rvar, Append(s, h + a + ", " + b + ", " + c + ", "), num);
    Then(s, h + a + ", " + b + ", " + c + ", ", d);
    Then(s, h + a + ", " + b + ", " + c + ", " + d, " )");
  }

  // ---------------------------------------------------------------------------
  // Consequences

  /** A fresh printer's code for a well-formed chunk or statement is its text at indent 0. */
  lemma PrintCodeText(n: Node, num: Number -> string)
    requires WellFormed(n) && !IsExpression(n)
    ensures PrintCode(n, num) == Ok(Text(n, false, 0, num))
  {
    EmitText(n, Fresh, num);
    assert "" + Text(n, false, 0, num) == Text(n, false, 0, num);
  }

  /**
   * In `R<i> = R<j>` the target register prints its reference count and the
   * value register does not, whatever the counts are.
   */
  lemma AssignedRegister(addr: int, target: Node, value: Node, s: PrintState, num: Number -> string)
    requires target.Register? && value.Register? && !s.lvalue
    ensures Emit(Assign(addr, target, value), s, num)
         == Ok(Append(s, ("R" + SignedDecimal(target.index) + "(" + SignedDecimal(target.refcount) + ")")
                         + " = " + ("R" + SignedDecimal(value.index))))
  {
    var n := Assign(addr, target, value);
    assert Exprs([target]) && Exprs([value]);
    EmitText(n, s, num);
    assert Texts([target], true, s.indent, num) == [Text(target, true, s.indent, num)];
    assert Texts([value], false, s.indent, num) == [Text(value, false, s.indent, num)];
  }

  /**
   * A call without arguments loses the last character before its "(": the
   * trim meant for the trailing ", " removes "(" and one character of the
   * callee's text, and fails when there is none.
   */
  lemma ZeroArgumentCall(n: Node, s: PrintState, num: Number -> string)
    requires n.FunctionCall? && n.arguments == [] && n.callee.Identifier?
    ensures var o := s.out + n.callee.identifier;
      Emit(n, s, num) == if |o| == 0 then Err(OutOfRange) else Ok(PrintState(o[..|o| - 1] + ")", s.lvalue, s.indent))
  {
    var o := s.out + n.callee.identifier;
    LeafText(n.callee, s, num);
    EmptyCall(n, s, num);
    if |o| > 0 {
      assert (o + "(")[..|o| - 1] == o[..|o| - 1];
    }
  }

  lemma EmptyCall(n: Node, s: PrintState, num: Number -> string)
    requires n.FunctionCall? && n.arguments == [] && Emit(n.callee, s, num).Ok?
    ensures var a := Emit(n.callee, s, num).value;
      Emit(n, s, num) == (var c :- Trim(Append(a, "("), 2); Ok(Append(c, ")")))
  {
    var a := Emit(n.callee, s, num).value;
    assert Each([], Append(a, "("), Items, num) == Ok(Append(a, "("));
  }

  // ---------------------------------------------------------------------------
  // The printer object

  /** The outcome `o` and the state `s` after a visit are what `r` says. */
  predicate Agrees(r: Result<PrintState>, o: Outcome, s: PrintState)
  {
    match r
    case Ok(x) => o == Pass && s == x
    case Err(e) => o == Fail(e)
  }

  /** An error in the first `k` items of a list is the error of the whole list. */
  lemma {:induction false} EachErrStays(ns: seq<Node>, k: nat, s: PrintState, layout: Layout, num: Number -> string)
    requires k <= |ns| && Each(ns[..k], s, layout, num).Err?
    ensures Each(ns, s, layout, num) == Each(ns[..k], s, layout, num)
    decreases |ns| - k
  {
    if k < |ns| {
      var init := ns[..|ns| - 1];
      assert init[..k] == ns[..k];
      EachErrStays(init, k, s, layout, num);
    } else {
      assert ns[..k] == ns;
    }
  }

  /** The first `i + 1` items of a list are the first `i` and then item `i`. */
  lemma EachSnoc(ns: seq<Node>, i: nat, s: PrintState, layout: Layout, num: Number -> string, t: PrintState)
    requires i < |ns| && Each(ns[..i], s, layout, num) == Ok(t)
    ensures Each(ns[..i + 1], s, layout, num) == Item(ns[i], t, layout, num)
  {
    assert ns[..i + 1][..i] == ns[..i];
  }

  /** `CodePrinterVisitor`: the text built so far, the `lvalue` flag and the indent. */
  class Printer {
    var buffer: string
    var lvalue: bool
    var indent: int
    /** How a number literal prints. */
    const num: Number -> string

    function State(): PrintState
      reads this
    {
      PrintState(buffer, lvalue, indent)
    }

    constructor(num: Number -> string)
      ensures State() == Fresh && this.num == num
    {
      buffer, lvalue, indent := "", false, 0;
      this.num := num;
    }

    /** `stringBuilder.Append(t)`. */
    method Write(t: string)
      modifies this
      ensures State() == Append(old(State()), t)
    {
      buffer := buffer + t;
    }

    /** `stringBuilder.Remove(Length - k, k)`. */
    method Remove(k: nat) returns (o: Outcome)
      modifies this
      ensures Agrees(Trim(old(State()), k), o, State())
    {
      if |buffer| < k {
        return Fail(OutOfRange);
      }
      buffer := buffer[..|buffer| - k];
      o := Pass;
    }

    /** The loop that appends each name and ", ". */
    method WriteNames(names: seq<string>)
      modifies this
      ensures State() == Append(old(State()), Concat(Suffixed(names, ", ")))
    {
      ghost var s0 := State();
      for i := 0 to |names|
        invariant State() == Append(s0, Concat(Suffixed(names[..i], ", ")))
      {
        SuffixedStep(names, i, ", ");
        Regroup(s0.out, Concat(Suffixed(names[..i], ", ")), names[i], ", ");
        buffer := buffer + names[i];
        buffer := buffer + ", ";
      }
      assert names[..|names|] == names;
    }

    /** `node.Accept(this)`. */
    method Visit(n: Node) returns (o: Outcome)
      modifies this
      ensures Agrees(Emit(n, old(State()), num), o, State())
      decreases n, 3
    {
      if IsCompound(n) {
        o := VisitCompound(n);
      } else if IsHeaded(n) {
        o := VisitHeaded(n);
      } else if IsListed(n) {
        o := VisitListed(n);
      } else {
        o := VisitSimple(n);
      }
    }

    /** A `foreach` over the items of a list, each laid out by `layout`. */
    method VisitEach(ns: seq<Node>, layout: Layout) returns (o: Outcome)
      modifies this
      ensures Agrees(Each(ns, old(State()), layout, num), o, State())
      decreases ns, 1
    {
      ghost var s0 := State();
      for i := 0 to |ns|
        invariant Each(ns[..i], s0, layout, num) == Ok(State())
      {
        ghost var t := State();
        o := VisitItem(ns[i], layout);
        EachSnoc(ns, i, s0, layout, num, t);
        if o.Fail? {
          EachErrStays(ns, i + 1, s0, layout, num);
          return;
        }
      }
      assert ns[..|ns|] == ns;
      o := Pass;
    }

    /** One item of a `foreach`, laid out by `layout`. */
    method VisitItem(x: Node, layout: Layout) returns (o: Outcome)
      modifies this
      ensures Agrees(Item(x, old(State()), layout, num), o, State())
      decreases x, 4
    {
      StartItem(layout);
      o := Visit(x);
      if o.Pass? {
        EndItem(layout);
      }
    }

    /** Sets `lvalue` before a target, writes the indent before a line. */
    method StartItem(layout: Layout)
      modifies this
      ensures State() == ItemStart(old(State()), layout)
    {
      match layout {
        case Targets => lvalue := true;
        case Lines => buffer := buffer + Pad(indent);
        case _ =>
      }
    }

    /** Writes what follows an item and clears `lvalue` after a target. */
    method EndItem(layout: Layout)
      modifies this
      ensures State() == ItemEnd(old(State()), layout)
    {
      match layout {
        case Items => buffer := buffer + ", ";
        case Targets => buffer, lvalue := buffer + ", ", false;
        case Lines => buffer := buffer + "\n";
        case Terminated => buffer := buffer + "\n";
        case Bare =>
      }
    }

    method VisitCompound(n: Node) returns (o: Outcome)
      requires IsCompound(n)
      modifies this
      ensures Agrees(EmitCompound(n, old(State()), num), o, State())
      decreases n, 2
    {
      if n.Chunk? || n.Block? {
        o := VisitStatements(n);
      } else if n.IfStatement? || n.ElseIfBlock? {
        o := VisitIf(n);
      } else {
        o := VisitLoop(n);
      }
    }

    /** A chunk and a block: their statements, a block's indented one level deeper. */
    method VisitStatements(n: Node) returns (o: Outcome)
      requires n.Chunk? || n.Block?
      modifies this
      ensures Agrees(EmitCompound(n, old(State()), num), o, State())
      decreases n, 1
    {
      if n.Chunk? {
        o := VisitEach(n.statements, Terminated);
      } else {
        ghost var s0 := State();
        BlockSteps(n, s0, num);
        indent := indent + 4;
        o := VisitEach(n.statements, Lines);
        if o.Fail? { return; }
        o := Remove(1);
        if o.Fail? { return; }
        indent := indent - 4;
      }
    }

    /** `do`, `while` and `repeat`. */
    method VisitLoop(n: Node) returns (o: Outcome)
      requires n.DoStatement? || n.WhileStatement? || n.RepeatUntilStatement?
      modifies this
      ensures Agrees(EmitCompound(n, old(State()), num), o, State())
      decreases n, 1
    {
      match n
      case DoStatement(_, body) =>
        Write("do\n");
        o := Visit(body);
        if o.Fail? { return; }
        Write(Pad(indent) + "end");
      case WhileStatement(_, test, body) =>
        Write("while ");
        o := Visit(test);
        if o.Fail? { return; }
        Write(" do\n");
        o := Visit(body);
        if o.Fail? { return; }
        Write("\n" + Pad(indent) + "end");
      case RepeatUntilStatement(_, test, body) =>
        Write("repeat\n");
        o := Visit(body);
        if o.Fail? { return; }
        Write("\n" + Pad(indent) + "until ");
        o := Visit(test);
    }

    /** `if` with its else-if blocks and its else block, and one else-if block. */
    method VisitIf(n: Node) returns (o: Outcome)
      requires n.IfStatement? || n.ElseIfBlock?
      modifies this
      ensures Agrees(EmitCompound(n, old(State()), num), o, State())
      decreases n, 1
    {
      match n
      case IfStatement(_, test, ifBlock, elseifBlocks, elseBlock) =>
        Write("if ");
        o := Visit(test);
        if o.Fail? { return; }
        Write(" then\n");
        o := Visit(ifBlock);
        if o.Fail? { return; }
        o := VisitEach(elseifBlocks, Bare);
        if o.Fail? { return; }
        Write(Pad(indent) + "else\n");
        o := Visit(elseBlock);
        if o.Fail? { return; }
        Write("\nend");
      case ElseIfBlock(_, condition, block) =>
        Write(Pad(indent) + "elseif ");
        o := Visit(condition);
        if o.Fail? { return; }
        Write(" then\n");
        o := Visit(block);
    }

    method VisitHeaded(n: Node) returns (o: Outcome)
      requires IsHeaded(n)
      modifies this
      ensures Agrees(EmitHeaded(n, old(State()), num), o, State())
      decreases n, 2
    {
      match n
      case ForStatement(_, variable, start, limit, step, body) =>
        Write("for ");
        o := Visit(variable);
        if o.Fail? { return; }
        Write(" = ");
        o := Visit(start);
        if o.Fail? { return; }
        Write(", ");
        o := Visit(limit);
        if o.Fail? { return; }
        Write(", ");
        o := Visit(step);
        if o.Fail? { return; }
        Write(" do\n");
        o := Visit(body);
        if o.Fail? { return; }
        Write("\n" + Pad(indent) + "end");
      case ForInStatement(_, names, expressions, body) =>
        ghost var s0 := State();
        Write("for ");
        WriteNames(names);
        Write("in ");
        Then(s0, "for ", Concat(Suffixed(names, ", ")));
        Then(s0, "for " + Concat(Suffixed(names, ", ")), "in ");
        o := VisitEach(expressions, Items);
        if o.Fail? { return; }
        o := Remove(2);
        if o.Fail? { return; }
        Write(" do\n");
        o := Visit(body);
        if o.Fail? { return; }
        Write("\n" + Pad(indent) + "end");
      case FunctionStatement(_, name, parameters, body) =>
        Write("function ");
        o := Visit(name);
        if o.Fail? { return; }
        WriteParameters(parameters);
        o := Visit(body);
        if o.Fail? { return; }
        Write("\nend");
      case LocalFunctionStatement(_, name, parameters, body) =>
        Write("local function ");
        o := Visit(name);
        if o.Fail? { return; }
        WriteParameters(parameters);
        o := Visit(body);
        if o.Fail? { return; }
        Write("\nend");
    }

    /** "(", each parameter and ", ", the last ", " removed if there was one, then ")\n". */
    method WriteParameters(names: seq<string>)
      modifies this
      ensures State() == Append(old(State()), "(" + ParameterText(names) + ")\n")
    {
      ghost var s0 := State();
      Write("(");
      WriteNames(names);
      Then(s0, "(", Concat(Suffixed(names, ", ")));
      var t := Concat(Suffixed(names, ", "));
      if |names| > 0 {
        SuffixedJoin(names, ", ");
        assert buffer == s0.out + ("(" + t) && |t| >= 2;
        buffer := buffer[..|buffer| - 2];
        assert buffer == s0.out + ("(" + t[..|t| - 2]);
      }
      Write(")\n");
      Then(s0, "(" + ParameterText(names), ")\n");
    }

    method VisitListed(n: Node) returns (o: Outcome)
      requires IsListed(n)
      modifies this
      ensures Agrees(EmitListed(n, old(State()), num), o, State())
      decreases n, 2
    {
      match n
      case LocalVariableDeclaration(_, variables, values) =>
        Write("local ");
        o := VisitEach(variables, Items);
        if o.Fail? { return; }
        o := Remove(2);
        if o.Fail? { return; }
        if |values| > 0 {
          Write(" = ");
          o := VisitEach(values, Items);
          if o.Fail? { return; }
          o := Remove(2);
        }
      case AssignmentStatement(_, _, _) =>
        o := VisitAssign(n);
      case AsmAssign(_, _, _) =>
        o := VisitAssign(n);
      case ReturnStatement(_, expressions) =>
        Write("return");
        o := VisitEach(expressions, Items);
        if o.Fail? { return; }
        if |expressions| > 0 {
          o := Remove(2);
        }
      case FunctionCall(_, callee, arguments) =>
        o := Visit(callee);
        if o.Fail? { return; }
        Write("(");
        o := VisitEach(arguments, Items);
        if o.Fail? { return; }
        o := Remove(2);
        if o.Fail? { return; }
        Write(")");
    }

    method VisitAssign(n: Node) returns (o: Outcome)
      requires n.AssignmentStatement? || n.AsmAssign?
      modifies this
      ensures Agrees(EmitAssign(n, old(State()), num), o, State())
      decreases n, 1
    {
      var (targets, values) := Sides(n);
      o := VisitEach(targets, Targets);
      if o.Fail? { return; }
      o := Remove(2);
      if o.Fail? { return; }
      Write(" = ");
      o := VisitEach(values, Items);
      if o.Fail? { return; }
      o := Remove(2);
    }

    method VisitSimple(n: Node) returns (o: Outcome)
      requires !IsCompound(n) && !IsHeaded(n) && !IsListed(n)
      modifies this
      ensures Agrees(EmitSimple(n, old(State()), num), o, State())
      decreases n, 2
    {
      if HasOperands(n) {
        o := VisitOperands(n);
      } else {
        o := VisitLeaf(n);
      }
    }

    /** The simple kinds that write one piece of text. */
    method VisitLeaf(n: Node) returns (o: Outcome)
      requires !IsCompound(n) && !IsHeaded(n) && !IsListed(n) && !HasOperands(n)
      modifies this
      ensures Agrees(EmitSimple(n, old(State()), num), o, State())
    {
      o := Pass;
      match n
      case VarargsLiteral(_) => Write("...");
      case NilLiteral(_) => Write("nil");
      case BooleanLiteral(_, flag) => Write(if flag then "true" else "false");
      case NumberLiteral(_, number) => Write(num(number));
      case StringLiteral(_, text) => Write("\"" + Quoted(text) + "\"");
      case Closure(_, index) => Write("C" + SignedDecimal(index));
      case Register(_, index, refcount, _) =>
        if lvalue {
          Write("R" + SignedDecimal(index) + "(" + SignedDecimal(refcount) + ")");
        } else {
          Write("R" + SignedDecimal(index));
        }
      case Identifier(_, identifier) => Write(identifier);
      case TableConstructor(_, _, _) =>
      case Jump(_, offset) => Write("asm_jump( " + SignedDecimal(offset) + " )");
      case AsmForLoop(_, _, offset) => Write("asm_forloop( " + SignedDecimal(offset) + " )");
      case AsmTForLoop(_) => Write("asm_tforloop()");
    }

    /** The simple kinds that visit their operands between pieces of text. */
    method VisitOperands(n: Node) returns (o: Outcome)
      requires !IsCompound(n) && !IsHeaded(n) && !IsListed(n) && HasOperands(n)
      modifies this
      ensures Agrees(EmitSimple(n, old(State()), num), o, State())
      decreases n, 1
    {
      match n
      case BinaryExpression(_, left, right, op) =>
        o := Visit(left);
        if o.Fail? { return; }
        Write(" " + op + " ");
        o := Visit(right);
      case UnaryExpression(_, operand, op) =>
        Write(op);
        o := Visit(operand);
      case TableAccess(_, table, key) =>
        o := Visit(table);
        if o.Fail? { return; }
        Write(".");
        o := Visit(key);
      case Test(_, expression) =>
        Write("asm_test( ");
        o := Visit(expression);
        if o.Fail? { return; }
        Write(" )");
      case AsmForPrep(_, rinit, rlimit, rstep, rvar) =>
        Write("asm_forprep( ");
        o := Visit(rinit);
        if o.Fail? { return; }
        Write(", ");
        o := Visit(rlimit);
        if o.Fail? { return; }
        Write(", ");
        o := Visit(rstep);
        if o.Fail? { return; }
        Write(", ");
        o := Visit(rvar);
        if o.Fail? { return; }
        Write(" )");
    }

    /** `GetCode()`. */
    function GetCode(): (r: string)
      reads this
      ensures r == State().out
    {
      buffer
    }
  }

  /** A fresh printer visits `n`; its code is the result, or the error that stopped it. */
  method PrintTree(n: Node, num: Number -> string) returns (r: Result<string>)
    ensures r == PrintCode(n, num)
  {
    var printer := new Printer(num);
    var o := printer.Visit(n);
    if o.Fail? {
      return Err(o.error);
    }
    r := Ok(printer.GetCode());
  }
}
