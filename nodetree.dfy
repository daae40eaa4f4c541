/**
 * The syntax tree of the C++ decompiler (src/utils/types/nodetree.hpp) and
 * its printer.
 *
 * Each `node_*` struct is one constructor of `Node`. The `location` string
 * every node carries is never read by a printer and is not modelled; the
 * `shared_ptr` children become plain values, which is exact here because no
 * node is changed after it is built.
 *
 * Printing is pure string building except for one piece of state: the
 * static `node::indent`, which a function raises by four around its body and
 * a block reads. `Text` is what a node prints at a given indent, written as
 * joins of the children's texts; `Printer` holds the static and walks the
 * tree with the source's loops, and is proved to produce `Text` and to leave
 * the indent as it found it.
 */
module NodeTree {

  import opened Common

  /** `std::uint32_t` */
  type U32 = x: int | 0 <= x < 0x1_0000_0000

  datatype Node =
    | Null                                        // the base `node`, printing nothing
    | Nil
    | Boolean(flag: bool)
    | Identifier(value: string)
    | String(value: string)
    | Number(value: string)
    | Length(obj: Node)
    | Field(obj: Node, field: Node)
    | Method(obj: Node, field: Node)
    | Vararg
    | NewTable
    | Concatenation(list: seq<Node>)
    | Call(callee: Node, params: Node)
    | Assign(lvalue: Node, rvalue: Node)
    | Equal(lvalue: Node, rvalue: Node)
    | NotEqual(lvalue: Node, rvalue: Node)
    | Return(stmts: seq<Node>)
    | Block(stmts: seq<Node>)
    | Parameters(list: seq<Node>, vararg: bool)
    | Function(name: Node, params: Node, block: Node, subFuncs: seq<Node>)
    | Script(main: Node)
    | Test(cond: Node, isNot: bool)
    | Jump(target: Node)
    | Label(loc: string)
    | Debug(data: string)

  // ---------------------------------------------------------------------------
  // Indentation

  /**
   * `indented(n)`: `snprintf` of `n` spaces into a 100-byte buffer, so at
   * most 99 of them survive.
   */
  function Indented(n: U32): (s: string)
    ensures forall i :: 0 <= i < |s| ==> s[i] == ' '
  {
    Spaces(if n < 99 then n else 99)
  }

  /** An indent is printed as that many spaces, up to 99; wider indents all print as 99. */
  lemma IndentedWidth(m: U32, n: U32)
    ensures |Indented(n)| == if n < 99 then n else 99
    ensures m <= n ==> Indented(m) <= Indented(n)
    ensures 99 <= m && 99 <= n ==> Indented(m) == Indented(n)
  {
  }

  /** `indent += 4` on a `std::uint32_t`. */
  function Deeper(indent: U32): U32
  {
    (indent + 4) % 0x1_0000_0000
  }

  /** `indent -= 4` on a `std::uint32_t`. */
  function Shallower(indent: U32): U32
  {
    (indent - 4) % 0x1_0000_0000
  }

  /** Lowering an indent that was raised gives it back, wrap-around included. */
  lemma ShallowerUndoesDeeper(indent: U32)
    ensures Shallower(Deeper(indent)) == indent
  {
    if indent + 4 >= 0x1_0000_0000 {
      assert Deeper(indent) == indent + 4 - 0x1_0000_0000;
    } else {
      assert Deeper(indent) == indent + 4;
    }
  }

  // ---------------------------------------------------------------------------
  // What each node prints

  function Texts(ns: seq<Node>, indent: U32): (r: seq<string>)
    ensures |r| == |ns|
    decreases ns, 0
  {
    if |ns| == 0 then [] else Texts(ns[..|ns| - 1], indent) + [Text(ns[|ns| - 1], indent)]
  }

  lemma TextsAt(ns: seq<Node>, indent: U32, i: nat)
    requires i < |ns|
    ensures Texts(ns, indent)[i] == Text(ns[i], indent)
    ensures Texts(ns[..i + 1], indent) == Texts(ns[..i], indent) + [Text(ns[i], indent)]
    decreases |ns|
  {
    assert ns[..i + 1][..i] == ns[..i];
    if i < |ns| - 1 {
      TextsAt(ns[..|ns| - 1], indent, i);
      assert ns[..|ns| - 1][..i + 1] == ns[..i + 1];
      assert ns[..|ns| - 1][..i] == ns[..i];
    }
  }

  /**
   * The text of `n` when the static indent is `indent`. Lists are joined by
   * their separators; a return puts a space after "return" only when it has
   * values; a block starts each statement on a new line at the current
   * indent; a function other than the chunk's "_init_" is a `local function`
   * whose body and nested functions print four deeper.
   */
  function Text(n: Node, indent: U32): string
    decreases n, 1
  {
    match n
    case Null => ""
    case Nil => "nil"
    case Boolean(flag) => if flag then "true" else "false"
    case Identifier(value) => value
    case String(value) => value
    case Number(value) => value
    case Length(obj) => "#" + Text(obj, indent)
    case Field(obj, field) => Text(obj, indent) + "." + Text(field, indent)
    case Method(obj, field) => Text(obj, indent) + ":" + Text(field, indent)
    case Vararg => "..."
    case NewTable => "{}"
    case Concatenation(list) => Join(Texts(list, indent), " .. ")
    case Call(callee, params) => Text(callee, indent) + "(" + Text(params, indent) + ")"
    case Assign(lvalue, rvalue) => Text(lvalue, indent) + " = " + Text(rvalue, indent)
    case Equal(lvalue, rvalue) => Text(lvalue, indent) + " == " + Text(rvalue, indent)
    case NotEqual(lvalue, rvalue) => Text(lvalue, indent) + " ~= " + Text(rvalue, indent)
    case Return(stmts) => if |stmts| == 0 then "return" else "return " + Join(Texts(stmts, indent), ", ")
    case Block(stmts) => Concat(Prefixed(Texts(stmts, indent), "\n" + Indented(indent)))
    case Parameters(list, vararg) => if vararg then " ... " else Join(Texts(list, indent), ", ")
    case Function(name, params, block, subFuncs) =>
      if Text(name, indent) == "_init_" then
        Text(block, indent) + Concat(Prefixed(Texts(subFuncs, indent), "\n"))
      else
        "\n" + Indented(indent) + "local function " + Text(name, indent) + "(" + Text(params, indent) + ")"
        + Text(block, Deeper(indent)) + Concat(Prefixed(Texts(subFuncs, Deeper(indent)), "\n"))
        + ("\n" + Indented(indent) + "end")
    case Script(main) => Text(main, indent) + "\n"
    case Test(cond, isNot) => "if " + (if isNot then "not " else "") + Text(cond, indent) + " then"
    case Jump(target) => "jump(" + Text(target, indent) + ")"
    case Label(loc) => "-- " + loc + ":"
    case Debug(data) => "-- " + data
  }

  // ---------------------------------------------------------------------------
  // Properties of the printed text

  /** A script prints as its main function and a newline. */
  lemma ScriptText(main: Node, indent: U32)
    ensures Text(Script(main), indent) == Text(main, indent) + "\n"
  {
  }

  /** A return prints as the bare keyword exactly when it returns nothing. */
  lemma ReturnBare(stmts: seq<Node>, indent: U32)
    ensures Text(Return(stmts), indent) == "return" <==> |stmts| == 0
  {
    if |stmts| > 0 {
      assert |Text(Return(stmts), indent)| >= 7;
    }
  }

  /** Lines of single-line statements: a block has one newline per statement. */
  lemma {:induction false} BlockLines(stmts: seq<Node>, indent: U32)
    requires forall i :: 0 <= i < |stmts| ==> Count(Text(stmts[i], indent), '\n') == 0
    ensures Count(Text(Block(stmts), indent), '\n') == |stmts|
  {
    var ts := Texts(stmts, indent);
    var lines := Prefixed(ts, "\n" + Indented(indent));
    forall i | 0 <= i < |lines|
      ensures Count(lines[i], '\n') == 1
    {
      TextsAt(stmts, indent, i);
      var pad := Indented(indent);
      CountAppend("\n", pad, '\n');
      CountAbsent(pad, '\n');
      assert Count("\n", '\n') == 1 by {
        assert "\n"[..0] == "";
      }
      CountAppend("\n" + pad, ts[i], '\n');
    }
    ConcatCount(lines, '\n');
  }

  /**
   * A named function prints as a `local function` header on its own line and
   * an `end` line at the indent it started at, with everything between them
   * one level deeper; "_init_" prints without either.
   */
  lemma FunctionFrame(name: Node, params: Node, block: Node, subFuncs: seq<Node>, indent: U32)
    ensures var t := Text(Function(name, params, block, subFuncs), indent);
      var head := "\n" + Indented(indent) + "local function " + Text(name, indent) + "(" + Text(params, indent) + ")";
      var tail := "\n" + Indented(indent) + "end";
      var body := Text(block, Deeper(indent)) + Concat(Prefixed(Texts(subFuncs, Deeper(indent)), "\n"));
      if Text(name, indent) == "_init_" then
        t == Text(block, indent) + Concat(Prefixed(Texts(subFuncs, indent), "\n"))
      else
        FramedBy(t, head, body, tail)
  {
    if Text(name, indent) != "_init_" {
      LocalFunctionFrame(name, params, block, subFuncs, indent);
    } else {
      InitUnframed(name, params, block, subFuncs, indent);
    }
  }

  lemma InitUnframed(name: Node, params: Node, block: Node, subFuncs: seq<Node>, indent: U32)
    requires Text(name, indent) == "_init_"
    ensures Text(Function(name, params, block, subFuncs), indent) == Text(block, indent) + Concat(Prefixed(Texts(subFuncs, indent), "\n"))
  {
  }

  lemma LocalFunctionFrame(name: Node, params: Node, block: Node, subFuncs: seq<Node>, indent: U32)
    requires Text(name, indent) != "_init_"
    ensures var head := "\n" + Indented(indent) + "local function " + Text(name, indent) + "(" + Text(params, indent) + ")";
      var body := Text(block, Deeper(indent)) + Concat(Prefixed(Texts(subFuncs, Deeper(indent)), "\n"));
      FramedBy(Text(Function(name, params, block, subFuncs), indent), head, body, "\n" + Indented(indent) + "end")
  {
    var head := "\n" + Indented(indent) + "local function " + Text(name, indent) + "(" + Text(params, indent) + ")";
    var tail := "\n" + Indented(indent) + "end";
    var b, fs := Text(block, Deeper(indent)), Concat(Prefixed(Texts(subFuncs, Deeper(indent)), "\n"));
    assert Text(Function(name, params, block, subFuncs), indent) == head + b + fs + tail;
    assert head + b + fs + tail == head + (b + fs) + tail;
    Framed(head, b + fs, tail);
  }

  /** `t` starts with `head`, ends with `tail` and has `body` between them. */
  predicate FramedBy(t: string, head: string, body: string, tail: string)
  {
    |t| >= |head| + |tail| && t[..|head|] == head && t[|t| - |tail|..] == tail
    && t[|head|..|t| - |tail|] == body
  }

  lemma Framed(head: string, body: string, tail: string)
    ensures FramedBy(head + body + tail, head, body, tail)
  {
  }

  /** What `node_return::print` has built after `i` of the values' texts `ts`. */
  function Returned(ts: seq<string>, i: nat): string
    requires i <= |ts|
  {
    if i == 0 then "return" else "return " + Join(ts[..i], ", ") + (if i < |ts| then "," else "")
  }

  /** One more value: a space, the value, and a comma unless it is the last. */
  lemma ReturnedStep(ts: seq<string>, i: nat)
    requires i < |ts|
    ensures Returned(ts, i) + (" " + ts[i]) + (if i != |ts| - 1 then "," else "") == Returned(ts, i + 1)
  {
    var c := if i != |ts| - 1 then "," else "";
    if i == 0 {
      assert Join(ts[..1], ", ") == ts[0];
      assert "return" + (" " + ts[0]) == "return " + ts[0];
      assert Returned(ts, 1) == "return " + ts[0] + c;
    } else {
      JoinStep(ts, i, ", ");
      ReturnedNext(Join(ts[..i], ", "), ts[i], c);
      assert Returned(ts, i + 1) == "return " + (Join(ts[..i], ", ") + ", " + ts[i]) + c;
    }
  }

  lemma ReturnedNext(j: string, x: string, c: string)
    ensures "return " + j + "," + (" " + x) + c == "return " + (j + ", " + x) + c
  {
    assert "return " + j + "," + (" " + x) == "return " + (j + ", " + x);
  }

  /** After the last value, the text is "return" and the values joined by ", ". */
  lemma ReturnedAll(ts: seq<string>)
    ensures Returned(ts, |ts|) == if |ts| == 0 then "return" else "return " + Join(ts, ", ")
  {
    assert ts[..|ts|] == ts;
  }

  // ---------------------------------------------------------------------------
  // The printer

  /**
   * The `print()` methods of the node structs, sharing the static
   * `node::indent`, which is this object's only field.
   */
  class Printer {
    var indent: U32

    /** The static starts at zero. */
    constructor()
      ensures indent == 0
    {
      indent := 0;
    }

    /** `n->print()`: the text of `n` at the current indent, which it leaves unchanged. */
    method Print(n: Node) returns (t: string)
      modifies this
      ensures t == Text(n, old(indent)) && indent == old(indent)
      decreases n, 3
    {
      match n {
        case Null => t := "";
        case Nil => t := "nil";
        case Boolean(flag) => t := if flag then "true" else "false";
        case Identifier(value) => t := value;
        case String(value) => t := value;
        case Number(value) => t := value;
        case Length(obj) =>
          var o := Print(obj);
          t := "#" + o;
        case Field(_, _) => t := PrintPair(n);
        case Method(_, _) => t := PrintPair(n);
        case Vararg => t := "...";
        case NewTable => t := "{}";
        case Concatenation(list) => t := PrintList(list, " .. ");
        case Call(_, _) => t := PrintPair(n);
        case Assign(_, _) => t := PrintPair(n);
        case Equal(_, _) => t := PrintPair(n);
        case NotEqual(_, _) => t := PrintPair(n);
        case Return(stmts) => t := PrintReturn(stmts);
        case Block(stmts) => t := PrintBlock(stmts);
        case Parameters(list, vararg) =>
          if vararg {
            t := " ... ";
          } else {
            t := PrintList(list, ", ");
          }
        case Function(name, params, block, subFuncs) => t := PrintFunction(name, params, block, subFuncs);
        case Script(main) =>
          var m := Print(main);
          t := m + "\n";
        case Test(cond, isNot) =>
          t := "if ";
          t := t + (if isNot then "not " else "");
          var c := Print(cond);
          t := t + (c + " then");
        case Jump(target) =>
          var l := Print(target);
          t := "jump(" + l + ")";
        case Label(loc) => t := "-- " + loc + ":";
        case Debug(data) => t := "-- " + data;
      }
    }

    /** The kinds whose text joins the texts of two nodes. */
    method PrintPair(n: Node) returns (t: string)
      requires n.Field? || n.Method? || n.Call? || n.Assign? || n.Equal? || n.NotEqual?
      modifies this
      ensures t == Text(n, old(indent)) && indent == old(indent)
      decreases n, 0
    {
      match n {
        case Field(obj, field) =>
          var o := Print(obj);
          var f := Print(field);
          t := o + "." + f;
        case Method(obj, field) =>
          var o := Print(obj);
          var f := Print(field);
          t := o + ":" + f;
        case Call(callee, params) =>
          var c := Print(callee);
          var p := Print(params);
          t := c + "(" + p + ")";
        case Assign(lvalue, rvalue) =>
          var l := Print(lvalue);
          var r := Print(rvalue);
          t := l + " = " + r;
        case Equal(lvalue, rvalue) =>
          var l := Print(lvalue);
          var r := Print(rvalue);
          t := l + " == " + r;
        case NotEqual(lvalue, rvalue) =>
          var l := Print(lvalue);
          var r := Print(rvalue);
          t := l + " ~= " + r;
      }
    }

    /** The loop of `node_concat` and `node_parameters`: each item, then `sep` unless it is the last. */
    method PrintList(list: seq<Node>, sep: string) returns (t: string)
      modifies this
      ensures t == Join(Texts(list, old(indent)), sep) && indent == old(indent)
      decreases list, 0
    {
      t := "";
      for i := 0 to |list|
        invariant indent == old(indent)
        invariant t == if i == 0 then "" else Join(Texts(list[..i], indent), sep) + (if i < |list| then sep else "")
      {
        var p := Print(list[i]);
        TextsAt(list, indent, i);
        t := t + p;
        if i != |list| - 1 {
          t := t + sep;
        }
      }
      assert list[..|list|] == list;
    }

    /** `node_return::print`: "return", then " " and each value, with "," between values. */
    method PrintReturn(stmts: seq<Node>) returns (t: string)
      modifies this
      ensures t == Text(Return(stmts), old(indent)) && indent == old(indent)
      decreases stmts, 0
    {
      ghost var ts := Texts(stmts, indent);
      t := "return";
      for i := 0 to |stmts|
        invariant indent == old(indent)
        invariant t == Returned(ts, i)
      {
        var p := Print(stmts[i]);
        TextsAt(stmts, indent, i);
        ReturnedStep(ts, i);
        t := t + (" " + p);
        if i != |stmts| - 1 {
          t := t + ",";
        }
      }
      ReturnedAll(ts);
    }

    /** `node_block::print`: each statement on a new line, at the current indent. */
    method PrintBlock(stmts: seq<Node>) returns (t: string)
      modifies this
      ensures t == Text(Block(stmts), old(indent)) && indent == old(indent)
      decreases stmts, 0
    {
      t := "";
      var pad := Indented(indent);
      for i := 0 to |stmts|
        invariant indent == old(indent)
        invariant t == Concat(Prefixed(Texts(stmts[..i], indent), "\n" + pad))
      {
        var p := Print(stmts[i]);
        TextsAt(stmts, indent, i);
        assert Prefixed(Texts(stmts[..i + 1], indent), "\n" + pad)
          == Prefixed(Texts(stmts[..i], indent), "\n" + pad) + ["\n" + pad + p];
        ConcatSnoc(Prefixed(Texts(stmts[..i], indent), "\n" + pad), "\n" + pad + p);
        t := t + ("\n" + pad + p);
      }
      assert stmts[..|stmts|] == stmts;
    }

    /** The loop over `sub_funcs`: each nested function on a new line. */
    method PrintSubFunctions(subFuncs: seq<Node>) returns (t: string)
      modifies this
      ensures t == Concat(Prefixed(Texts(subFuncs, old(indent)), "\n")) && indent == old(indent)
      decreases subFuncs, 0
    {
      t := "";
      for i := 0 to |subFuncs|
        invariant indent == old(indent)
        invariant t == Concat(Prefixed(Texts(subFuncs[..i], indent), "\n"))
      {
        var p := Print(subFuncs[i]);
        TextsAt(subFuncs, indent, i);
        assert Prefixed(Texts(subFuncs[..i + 1], indent), "\n")
          == Prefixed(Texts(subFuncs[..i], indent), "\n") + ["\n" + p];
        ConcatSnoc(Prefixed(Texts(subFuncs[..i], indent), "\n"), "\n" + p);
        t := t + ("\n" + p);
      }
      assert subFuncs[..|subFuncs|] == subFuncs;
    }

    /**
     * `node_function::print`: "_init_" prints its body and nested functions
     * as they are; any other name opens a `local function`, raises the indent
     * by four for the body and the nested functions, lowers it again and
     * closes with `end`.
     */
    method PrintFunction(name: Node, params: Node, block: Node, subFuncs: seq<Node>) returns (t: string)
      modifies this
      ensures t == Text(Function(name, params, block, subFuncs), old(indent)) && indent == old(indent)
      decreases Function(name, params, block, subFuncs), 2
    {
      var nm := Print(name);
      if nm == "_init_" {
        var b := Print(block);
        var s := PrintSubFunctions(subFuncs);
        t := b + s;
      } else {
        t := PrintLocalFunction(name, params, block, subFuncs);
      }
    }

    /** A function other than "_init_": its `local function` line, its body one level deeper, and `end`. */
    method PrintLocalFunction(name: Node, params: Node, block: Node, subFuncs: seq<Node>) returns (t: string)
      requires Text(name, indent) != "_init_"
      modifies this
      ensures t == Text(Function(name, params, block, subFuncs), old(indent)) && indent == old(indent)
      decreases Function(name, params, block, subFuncs), 1
    {
      ghost var outer := indent;
      var pad := Indented(indent);
      var n2 := Print(name);
      var p := Print(params);
      t := "\n" + pad + "local function " + n2 + "(" + p + ")";
      indent := Deeper(indent);
      var b := Print(block);
      t := t + b;
      var s := PrintSubFunctions(subFuncs);
      t := t + s;
      indent := Shallower(indent);
      ShallowerUndoesDeeper(outer);
      t := t + ("\n" + pad + "end");
    }
  }
}
