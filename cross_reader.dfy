/**
 * The C# reader on what the C++ IW6 writer puts first: the header that
 * `assemble_header` writes is one `DisassembleHeader` accepts, as format 13
 * with an 8-byte `size_t`, so the C# reader then takes instruction counts and
 * string lengths as the 8-byte fields the C++ writer emits.
 *
 * The two readers differ on the type table: the C# one keeps all `length`
 * bytes of a name, so every name it reads ends in the NUL the writer put
 * after it.
 */
module CrossReader {

  import opened Common
  import opened Bytes
  import opened ByteReader
  import opened LuiAssembly
  import opened IW6Assembler
  import opened IW6RoundTrip
  import H = HksAssembly
  import D = HksDisassembler

  /** A type-table entry as the C# reader sees it: the name keeps its NUL. */
  function AsTypeMeta(t: TypeInfo): (m: H.TypeMeta)
    ensures m.id == t.id && |m.name| == |t.name| + 1 && m.name[..|t.name|] == t.name && m.name[|t.name|] == '\0'
  {
    H.TypeMeta(t.id, t.name + ['\0'])
  }

  function AsTypeMetas(types: seq<TypeInfo>): (ms: seq<H.TypeMeta>)
    ensures |ms| == |types| && forall j :: 0 <= j < |types| ==> ms[j] == AsTypeMeta(types[j])
  {
    seq(|types|, j requires 0 <= j < |types| => AsTypeMeta(types[j]))
  }

  /** An entry whose name length counting the NUL is a positive signed 32-bit number. */
  predicate CSharpReadable(t: TypeInfo)
  {
    t.id < 0x1_0000_0000 && |t.name| + 1 < 0x8000_0000
  }

  /** Every entry of a table is one the C# reader can read. */
  predicate AllReadable(types: seq<TypeInfo>)
  {
    forall j :: 0 <= j < |types| ==> CSharpReadable(types[j])
  }

  /** The characters of `write_c_string`'s bytes are the string and a NUL. */
  lemma CStringChars(s: ByteString)
    ensures BytesToChars(CString(s)) == s + ['\0']
  {
    var c := CString(s);
    forall j | 0 <= j < |s|
      ensures BytesToChars(c)[j] == s[j]
    {
      assert c[..|s|][j] == c[j];
      assert BytesToChars(c[..|s|])[j] as int == c[j];
    }
  }

  /** A length field below 2^31 reads the same as a signed 32-bit number. */
  lemma SignedLength(n: nat)
    requires n < 0x8000_0000
    ensures n < Pow256(4) && ToSigned(n, 4) == n
  {
    assert Pow256(3) == 0x100_0000 by { assert Pow256(2) == 0x1_0000; }
  }

  /** One entry the C++ writer puts in the type table, read by the C# reader. */
  lemma TypeEntryRead(out: seq<Byte>, t: TypeInfo, data: seq<Byte>)
    requires CSharpReadable(t)
    requires out + U32(t.id) + U32(|t.name| + 1) + CString(t.name) <= data
    ensures D.ParseTypeEntry(data, |out|) == Ok(Parsed(AsTypeMeta(t), |out| + 8 + |t.name| + 1))
  {
    var o1 := out + U32(t.id);
    var o2 := o1 + U32(|t.name| + 1);
    var o3 := o2 + CString(t.name);
    PrefixTrans(o2, o3, data);
    PrefixTrans(o1, o2, data);
    FieldReadBack(out, t.id, 4, data);
    Pow256Widths();
    FieldReadBack(o1, |t.name| + 1, 4, data);
    SignedLength(|t.name| + 1);
    Window(o2, CString(t.name), data);
    CStringChars(t.name);
  }

  /** The entries written from index `i` on, read by the C# reader after the ones before `i`. */
  lemma {:induction false} TypeEntriesRead(out: seq<Byte>, types: seq<TypeInfo>, i: nat, data: seq<Byte>)
    requires i <= |types| && AllReadable(types)
    requires WriteTypes(out, types, i) <= data
    ensures D.ParseTypeEntries(data, |out|, |types| - i, AsTypeMetas(types[..i]))
      == Ok(Parsed(AsTypeMetas(types), |WriteTypes(out, types, i)|))
    decreases |types| - i
  {
    if i < |types| {
      var o := TypeEntriesStep(out, types, i, data);
      TypeEntriesRead(o, types, i + 1, data);
    } else {
      TypeEntriesEnd(out, types, data);
    }
  }

  /** Past the last entry nothing is written and the C# reader has every entry. */
  lemma TypeEntriesEnd(out: seq<Byte>, types: seq<TypeInfo>, data: seq<Byte>)
    requires out <= data
    ensures WriteTypes(out, types, |types|) == out
    ensures D.ParseTypeEntries(data, |out|, 0, AsTypeMetas(types[..|types|])) == Ok(Parsed(AsTypeMetas(types), |out|))
  {
    assert types[..|types|] == types;
  }

  /** One entry of the list written from index `i`, read by the C# reader; `o` is the buffer after it. */
  lemma TypeEntriesStep(out: seq<Byte>, types: seq<TypeInfo>, i: nat, data: seq<Byte>) returns (o: seq<Byte>)
    requires i < |types| && AllReadable(types)
    requires WriteTypes(out, types, i) <= data
    ensures o == out + U32(types[i].id) + U32(|types[i].name| + 1) + CString(types[i].name)
    ensures WriteTypes(o, types, i + 1) == WriteTypes(out, types, i) && WriteTypes(o, types, i + 1) <= data
    ensures D.ParseTypeEntries(data, |out|, |types| - i, AsTypeMetas(types[..i]))
      == D.ParseTypeEntries(data, |o|, |types| - (i + 1), AsTypeMetas(types[..i + 1]))
  {
    var t := types[i];
    assert CSharpReadable(t);
    o := out + U32(t.id) + U32(|t.name| + 1) + CString(t.name);
    assert WriteTypes(out, types, i) == WriteTypes(o, types, i + 1);
    PrefixTrans(o, WriteTypes(out, types, i), data);
    TypeEntryRead(out, t, data);
    MetasOneMore(types, i);
    EntriesOneMore(data, |out|, |types| - i, AsTypeMetas(types[..i]), AsTypeMeta(t), |o|);
  }

  /** The C# reader's entry loop: one entry read, then the rest after it. */
  lemma EntriesOneMore(data: seq<Byte>, pos: int, count: nat, acc: seq<H.TypeMeta>, m: H.TypeMeta, next: int)
    requires count > 0 && D.ParseTypeEntry(data, pos) == Ok(Parsed(m, next))
    ensures D.ParseTypeEntries(data, pos, count, acc) == D.ParseTypeEntries(data, next, count - 1, acc + [m])
  {
  }

  lemma MetasOneMore(types: seq<TypeInfo>, i: nat)
    requires i < |types|
    ensures AsTypeMetas(types[..i]) + [AsTypeMeta(types[i])] == AsTypeMetas(types[..i + 1])
  {
  }

  /** Every name in the fixed table is short enough for the C# reader's signed length. */
  lemma TypeTableReadable()
    ensures AllReadable(TYPE_TABLE)
  {
    forall i | 0 <= i < |TYPE_TABLE|
      ensures CSharpReadable(TYPE_TABLE[i])
    {
      assert |TYPE_TABLE[i].name| <= 14;
    }
  }

  /** The header as the C# reader has it after reading what `assemble_header` wrote. */
  const CSHARP_HEADER: H.Header :=
    H.Header(SIGNATURE, 0x51, H.V13, 0x01, 0x04, 0x08, 0x04, 0x04, 0x00, 0x03, 0x00, AsTypeMetas(TYPE_TABLE))

  /**
   * `DisassembleHeader` accepts the header the IW6 assembler writes: format
   * 13, every fixed byte as written, and the 13 type entries in order with
   * their NULs, ending where the writer ended. Its size fields are then 8
   * bytes wide, the width the writer uses for the instruction count and for
   * string lengths.
   */
  lemma WrittenHeaderAccepted(out: seq<Byte>, data: seq<Byte>)
    requires WriteHeader(out) <= data
    ensures D.ParseHeader(data, |out|) == Ok(Parsed(CSHARP_HEADER, |WriteHeader(out)|))
    ensures D.SizeWidth(CSHARP_HEADER) == 8
  {
    var o := HeaderFieldsReadBack(out, data);
    TypeTableReadable();
    TypeTableInOrder();
    TypeMetaRead(|out| + 14, o, TYPE_TABLE, data);
    assert D.ParseFormat(data, |out| + 5) == Ok(Parsed(H.V13, |out| + 6));
  }

  /** A type count equal to the number of entries written after it, then those entries. */
  lemma TypeMetaRead(pos: nat, o: seq<Byte>, types: seq<TypeInfo>, data: seq<Byte>)
    requires AllReadable(types)
    requires WriteTypes(o, types, 0) <= data && |o| == pos + 4
    requires InBounds(data, pos, 4) && Unsigned(data, true, pos, 4) == |types|
    ensures D.ParseTypeMeta(data, pos) == Ok(Parsed(AsTypeMetas(types), |WriteTypes(o, types, 0)|))
  {
    TypeEntriesRead(o, types, 0, data);
    assert types[..0] == [];
  }

  /** Under that header a size field is the 8-byte field the C++ writer puts out, as for the instruction count. */
  lemma SizeFieldRead(out: seq<Byte>, n: nat, data: seq<Byte>)
    requires n < 0x1_0000_0000_0000_0000 && out + U64(n) <= data
    ensures D.ParseSize(CSHARP_HEADER, data, |out|) == Ok(Parsed(n, |out| + 8))
  {
    U64ReadBack(out, n, data);
  }

  /**
   * A string constant's length and text as the C++ writer puts them out read
   * back under that header as the same string: the C# reader drops the last
   * of the `length` bytes, which is the writer's NUL.
   */
  lemma StringRead(out: seq<Byte>, s: ByteString, data: seq<Byte>)
    requires |s| + 1 < 0x8000_0000 && out + U64(|s| + 1) + CString(s) <= data
    ensures D.ParseString(CSHARP_HEADER, data, |out|) == Ok(Parsed(s, |out| + 8 + |s| + 1))
  {
    var o := out + U64(|s| + 1);
    PrefixTrans(o, o + CString(s), data);
    SizeFieldRead(out, |s| + 1, data);
    D.StringOfSize(CSHARP_HEADER, data, |out|);
    Window(o, CString(s), data);
    assert data[|o|..|o| + |s|] == CString(s)[..|s|];
  }
}
