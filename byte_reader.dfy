/**
 * The cursor over a byte array that the C# disassembler reads from
 * (src/LuiTool/Utils/Reader.cs).
 *
 * The array never changes; reading advances the cursor by the width read.
 * A read whose bytes are not all inside the array fails with OutOfRange and
 * leaves the cursor where it was. The cursor is an unbounded integer here
 * (the source's 32-bit `int` is not wrapped).
 */
module ByteReader {

  import opened Common
  import opened Bytes

  /** C#'s `%`: the remainder takes the sign of the dividend. */
  function TruncatedRem(a: int, b: int): (r: int)
    requires b != 0
    ensures a >= 0 ==> 0 <= r
    ensures a <= 0 ==> r <= 0
    ensures (if r < 0 then -r else r) < (if b < 0 then -b else b)
  {
    var m := if b < 0 then -b else b;
    if a >= 0 then a % m else -((-a) % m)
  }

  /**
   * Where `Pad(padding)` leaves a cursor: unchanged when it is already a
   * multiple of `padding`, else moved by `padding - cursor % padding`.
   */
  function Padded(cursor: int, padding: int): Result<int>
  {
    if padding == 0 then Err(DivideByZero)
    else if TruncatedRem(cursor, padding) != 0 then Ok(cursor + (padding - TruncatedRem(cursor, padding)))
    else Ok(cursor)
  }

  /** For a non-negative cursor and positive padding, Pad moves to the next multiple of the padding, and not past it. */
  lemma PaddedIsNextMultiple(cursor: int, padding: int)
    requires cursor >= 0 && padding > 0
    ensures Padded(cursor, padding).Ok?
    ensures var c := Padded(cursor, padding).value;
      cursor <= c < cursor + padding && c % padding == 0
  {
    var rem := cursor % padding;
    var c := Padded(cursor, padding).value;
    if rem != 0 {
      DivMod(c, padding, cursor / padding + 1, 0);
    }
  }

  /** The `width` bytes at `pos` are all inside `data`. */
  predicate InBounds(data: seq<Byte>, pos: int, width: int)
  {
    0 <= pos && 0 <= width && pos + width <= |data|
  }

  /** Unsigned value of the `width` bytes at `pos`, in the given byte order. */
  function Unsigned(data: seq<Byte>, littleEndian: bool, pos: int, width: int): (n: nat)
    requires InBounds(data, pos, width)
    ensures n < Pow256(width)
  {
    if littleEndian then LittleEndian(data[pos..pos + width]) else BigEndian(data[pos..pos + width])
  }

  /** A decoded value and the position just after it. */
  datatype Parsed<T> = Parsed(value: T, next: int)

  /** An unsigned little-endian field of `width` bytes at `pos`, and the position after it. */
  function ReadUnsigned(data: seq<Byte>, pos: int, width: nat): (r: Result<Parsed<nat>>)
    ensures r.Ok? <==> InBounds(data, pos, width)
    ensures r.Ok? ==> r.value.next == pos + width && r.value.value < Pow256(width)
    ensures r.Ok? && width == 1 ==> r.value.value == data[pos]
    ensures r.Err? ==> r.error == OutOfRange
  {
    if InBounds(data, pos, width) then Ok(Parsed(Unsigned(data, true, pos, width), pos + width)) else Err(OutOfRange)
  }

  /** The `length` bytes at `pos` as they are, and the position after them. */
  function ReadRaw(data: seq<Byte>, pos: int, length: nat): (r: Result<Parsed<seq<Byte>>>)
    ensures r.Ok? <==> InBounds(data, pos, length)
    ensures r.Ok? ==> r.value.next == pos + length && |r.value.value| == length
  {
    if InBounds(data, pos, length) then Ok(Parsed(data[pos..pos + length], pos + length)) else Err(OutOfRange)
  }

  /** A reading method's result and its final cursor are what the layout function gives. */
  predicate Agrees<T(==)>(r: Result<T>, s: Result<Parsed<T>>, cursor: int)
  {
    match s
    case Ok(p) => r == Ok(p.value) && cursor == p.next
    case Err(e) => r == Err(e)
  }

  class Reader {
    const data: seq<Byte>
    var cursor: int
    var littleEndian: bool
    /** The saved cursors, the top of the stack last. */
    var cursorStack: seq<int>

    constructor (data: seq<Byte>, littleEndian: bool)
      ensures this.data == data && this.littleEndian == littleEndian
      ensures cursor == 0 && cursorStack == []
    {
      this.data := data;
      this.littleEndian := littleEndian;
      cursor := 0;
      cursorStack := [];
    }

    /** The `width` bytes from the cursor are all inside the array. */
    predicate CanRead(width: int)
      reads this
    {
      InBounds(data, cursor, width)
    }

    /** The `width` bytes under the cursor. */
    function Window(width: int): (bs: seq<Byte>)
      reads this
      requires CanRead(width)
      ensures |bs| == width
    {
      data[cursor..cursor + width]
    }

    /** Unsigned value of the bytes under the cursor in the current byte order. */
    function UnsignedAt(width: int): (n: nat)
      reads this
      requires CanRead(width)
      ensures n < Pow256(width)
    {
      Unsigned(data, littleEndian, cursor, width)
    }

    method SetLittleEndian(isLittleEndian: bool)
      modifies this`littleEndian
      ensures littleEndian == isLittleEndian
    {
      littleEndian := isLittleEndian;
    }

    method ReadUInt8() returns (r: Result<nat>)
      modifies this`cursor
      ensures old(CanRead(1)) ==> r == Ok(data[old(cursor)]) && cursor == old(cursor) + 1
      ensures !old(CanRead(1)) ==> r == Err(OutOfRange) && cursor == old(cursor)
    {
      if !(0 <= cursor < |data|) {
        return Err(OutOfRange);
      }
      r := Ok(data[cursor]);
      cursor := cursor + 1;
    }

    method ReadInt8() returns (r: Result<int>)
      modifies this`cursor
      ensures old(CanRead(1)) ==> r == Ok(ToSigned(data[old(cursor)], 1)) && cursor == old(cursor) + 1
      ensures !old(CanRead(1)) ==> r == Err(OutOfRange) && cursor == old(cursor)
    {
      var u :- ReadUInt8();
      r := Ok(ToSigned(u, 1));
    }

    /** The shared body of ReadInt16, ReadInt32 and ReadInt64: a span from the cursor, read in the current byte order. */
    method ReadSigned(width: nat) returns (r: Result<int>)
      requires width >= 1
      modifies this`cursor
      ensures old(CanRead(width)) ==> r == Ok(ToSigned(old(UnsignedAt(width)), width)) && cursor == old(cursor) + width
      ensures !old(CanRead(width)) ==> r == Err(OutOfRange) && cursor == old(cursor)
    {
      if !CanRead(width) {
        return Err(OutOfRange);
      }
      r := Ok(ToSigned(UnsignedAt(width), width));
      cursor := cursor + width;
    }

    method ReadInt16() returns (r: Result<int>)
      modifies this`cursor
      ensures old(CanRead(2)) ==> r == Ok(ToSigned(old(UnsignedAt(2)), 2)) && cursor == old(cursor) + 2
      ensures !old(CanRead(2)) ==> r == Err(OutOfRange) && cursor == old(cursor)
    {
      r := ReadSigned(2);
    }

    method ReadUInt16() returns (r: Result<nat>)
      modifies this`cursor
      ensures old(CanRead(2)) ==> r == Ok(old(UnsignedAt(2))) && cursor == old(cursor) + 2
      ensures !old(CanRead(2)) ==> r == Err(OutOfRange) && cursor == old(cursor)
    {
      ghost var u := if CanRead(2) then UnsignedAt(2) else 0;
      var i :- ReadInt16();
      UnsignedOfSigned(u, 2);
      r := Ok(ToUnsigned(i, 2));
    }

    method ReadInt32() returns (r: Result<int>)
      modifies this`cursor
      ensures old(CanRead(4)) ==> r == Ok(ToSigned(old(UnsignedAt(4)), 4)) && cursor == old(cursor) + 4
      ensures !old(CanRead(4)) ==> r == Err(OutOfRange) && cursor == old(cursor)
    {
      r := ReadSigned(4);
    }

    method ReadUInt32() returns (r: Result<nat>)
      modifies this`cursor
      ensures old(CanRead(4)) ==> r == Ok(old(UnsignedAt(4))) && cursor == old(cursor) + 4
      ensures !old(CanRead(4)) ==> r == Err(OutOfRange) && cursor == old(cursor)
    {
      ghost var u := if CanRead(4) then UnsignedAt(4) else 0;
      var i :- ReadInt32();
      UnsignedOfSigned(u, 4);
      r := Ok(ToUnsigned(i, 4));
    }

    method ReadInt64() returns (r: Result<int>)
      modifies this`cursor
      ensures old(CanRead(8)) ==> r == Ok(ToSigned(old(UnsignedAt(8)), 8)) && cursor == old(cursor) + 8
      ensures !old(CanRead(8)) ==> r == Err(OutOfRange) && cursor == old(cursor)
    {
      r := ReadSigned(8);
    }

    method ReadUInt64() returns (r: Result<nat>)
      modifies this`cursor
      ensures old(CanRead(8)) ==> r == Ok(old(UnsignedAt(8))) && cursor == old(cursor) + 8
      ensures !old(CanRead(8)) ==> r == Err(OutOfRange) && cursor == old(cursor)
    {
      ghost var u := if CanRead(8) then UnsignedAt(8) else 0;
      var i :- ReadInt64();
      UnsignedOfSigned(u, 8);
      r := Ok(ToUnsigned(i, 8));
    }

    /** ReadFloat, with the value left as its four bytes in file order. */
    method ReadFloat() returns (r: Result<seq<Byte>>)
      modifies this`cursor
      ensures old(CanRead(4)) ==> r == Ok(old(Window(4))) && cursor == old(cursor) + 4
      ensures !old(CanRead(4)) ==> r == Err(OutOfRange) && cursor == old(cursor)
    {
      r := ReadBytes(4);
    }

    /** ReadDouble, with the value left as its eight bytes in file order. */
    method ReadDouble() returns (r: Result<seq<Byte>>)
      modifies this`cursor
      ensures old(CanRead(8)) ==> r == Ok(old(Window(8))) && cursor == old(cursor) + 8
      ensures !old(CanRead(8)) ==> r == Err(OutOfRange) && cursor == old(cursor)
    {
      r := ReadBytes(8);
    }

    /** `length` bytes decoded as text, one character per byte. */
    method ReadString(length: int) returns (r: Result<string>)
      modifies this`cursor
      ensures old(CanRead(length)) ==> r == Ok(BytesToChars(old(Window(length)))) && cursor == old(cursor) + length
      ensures !old(CanRead(length)) ==> r == Err(OutOfRange) && cursor == old(cursor)
    {
      if !CanRead(length) {
        return Err(OutOfRange);
      }
      r := Ok(BytesToChars(Window(length)));
      cursor := cursor + length;
    }

    method ReadBytes(length: int) returns (r: Result<seq<Byte>>)
      modifies this`cursor
      ensures old(CanRead(length)) ==> r == Ok(old(Window(length))) && cursor == old(cursor) + length
      ensures !old(CanRead(length)) ==> r == Err(OutOfRange) && cursor == old(cursor)
    {
      if !CanRead(length) {
        return Err(OutOfRange);
      }
      r := Ok(Window(length));
      cursor := cursor + length;
    }

    method Skip(offset: int)
      modifies this`cursor
      ensures cursor == old(cursor) + offset
    {
      cursor := cursor + offset;
    }

    method Seek(position: int)
      modifies this`cursor
      ensures cursor == position
    {
      cursor := position;
    }

    method PushCursor()
      modifies this`cursorStack
      ensures cursorStack == old(cursorStack) + [cursor]
    {
      cursorStack := cursorStack + [cursor];
    }

    /** Pops the most recently pushed cursor and returns it; the cursor itself does not move. */
    method PopCursor() returns (r: Result<int>)
      modifies this`cursorStack
      ensures old(cursorStack) == [] ==> r == Err(EmptyStack) && cursorStack == []
      ensures old(cursorStack) != [] ==>
        r == Ok(old(cursorStack[|cursorStack| - 1])) && cursorStack == old(cursorStack[..|cursorStack| - 1])
    {
      if cursorStack == [] {
        return Err(EmptyStack);
      }
      r := Ok(cursorStack[|cursorStack| - 1]);
      cursorStack := cursorStack[..|cursorStack| - 1];
    }

    method Pad(padding: int) returns (r: Outcome)
      modifies this`cursor
      ensures Padded(old(cursor), padding).Err? ==> r == Fail(Padded(old(cursor), padding).error) && cursor == old(cursor)
      ensures Padded(old(cursor), padding).Ok? ==> r == Pass && cursor == Padded(old(cursor), padding).value
    {
      if padding == 0 {
        return Fail(DivideByZero);
      }
      if TruncatedRem(cursor, padding) != 0 {
        Skip(padding - TruncatedRem(cursor, padding));
      }
      r := Pass;
    }

    method GetPosition() returns (position: int)
      ensures position == cursor
    {
      position := cursor;
    }
  }
}
