/**
 * The opcode/name table of the C++ tool chain (src/IW6/resolver.cpp): name
 * lookup by opcode, opcode lookup by name, and the table itself.
 */
module IW6Resolver {

  import opened Common
  import opened IW6

  /**
   * The entries of `opcode_map`, in the order they are listed. The map is an
   * `std::unordered_map`; its iteration order is taken here to be the listed
   * order, which does not change any result because no two entries share a
   * key or a name (KeysAscending, NamesDistinct).
   */
  const Entries: seq<(Opcode, string)> :=
    [(GETFIELD, "GETFIELD"), (TEST, "TEST"), (CALL_I, "CALL_I"), (EQ, "EQ"), (EQ_BK, "EQ_BK"), (GETGLOBAL, "GETGLOBAL")]
    + [(MOVE, "MOVE"), (SELF, "SELF"), (RETURN, "RETURN"), (GETTABLE_S, "GETTABLE_S"), (GETTABLE, "GETTABLE"), (LOADBOOL, "LOADBOOL")]
    + [(TFORLOOP, "TFORLOOP"), (SETFIELD, "SETFIELD"), (SETTABLE_S, "SETTABLE_S"), (SETTABLE_S_BK, "SETTABLE_S_BK"), (SETTABLE, "SETTABLE"), (SETTABLE_BK, "SETTABLE_BK")]
    + [(TAILCALL_I, "TAILCALL_I"), (LOADK, "LOADK"), (LOADNIL, "LOADNIL"), (SETGLOBAL, "SETGLOBAL"), (JMP, "JMP"), (CALL, "CALL")]
    + [(TAILCALL, "TAILCALL"), (GETUPVAL, "GETUPVAL"), (SETUPVAL, "SETUPVAL"), (ADD, "ADD"), (ADD_BK, "ADD_BK"), (SUB, "SUB")]
    + [(SUB_BK, "SUB_BK"), (MUL, "MUL"), (MUL_BK, "MUL_BK"), (DIV, "DIV"), (DIV_BK, "DIV_BK"), (MOD, "MOD")]
    + [(MOD_BK, "MOD_BK"), (POW, "POW"), (POW_BK, "POW_BK"), (NEWTABLE, "NEWTABLE"), (UNM, "UNM"), (NOT, "NOT")]
    + [(LEN, "LEN"), (LT, "LT"), (LT_BK, "LT_BK"), (LE, "LE"), (LE_BK, "LE_BK"), (CONCAT, "CONCAT")]
    + [(TESTSET, "TESTSET"), (FORPREP, "FORPREP"), (FORLOOP, "FORLOOP"), (SETLIST, "SETLIST"), (CLOSE, "CLOSE"), (CLOSURE, "CLOSURE")]
    + [(VARARG, "VARARG"), (TAILCALL_I_R1, "TAILCALL_I_R1"), (CALL_I_R1, "CALL_I_R1"), (SETUPVAL_R1, "SETUPVAL_R1"), (TEST_R1, "TEST_R1"), (NOT_R1, "NOT_R1")]
    + [(GETFIELD_R1, "GETFIELD_R1"), (SETFIELD_R1, "SETFIELD_R1"), (DATA, "DATA"), (GETGLOBAL_MEM, "GETGLOBAL_MEM")]

  /** Index of the first entry with key `id` from `from` on, if any. */
  function FindKey(id: Opcode, from: nat): (i: Option<nat>)
    requires from <= |Entries|
    ensures i.Some? ==> from <= i.value < |Entries| && Entries[i.value].0 == id
    ensures i.Some? ==> forall j :: from <= j < i.value ==> Entries[j].0 != id
    ensures i.None? ==> forall j :: from <= j < |Entries| ==> Entries[j].0 != id
    decreases |Entries| - from
  {
    if from == |Entries| then None
    else if Entries[from].0 == id then Some(from)
    else FindKey(id, from + 1)
  }

  /** Index of the first entry named `name` from `from` on, if any. */
  function FindName(name: string, from: nat): (i: Option<nat>)
    requires from <= |Entries|
    ensures i.Some? ==> from <= i.value < |Entries| && Entries[i.value].1 == name
    ensures i.Some? ==> forall j :: from <= j < i.value ==> Entries[j].1 != name
    ensures i.None? ==> forall j :: from <= j < |Entries| ==> Entries[j].1 != name
    decreases |Entries| - from
  {
    if from == |Entries| then None
    else if Entries[from].1 == name then Some(from)
    else FindName(name, from + 1)
  }

  /** `opcode_name`: the mapped name, or "" for an opcode the table does not list. */
  function OpcodeName(id: Opcode): (name: string)
    ensures (exists i :: 0 <= i < |Entries| && Entries[i].0 == id) <==> name != ""
    ensures forall i :: 0 <= i < |Entries| && Entries[i].0 == id ==> name == Entries[i].1
  {
    KeysAscending();
    NamesNonEmpty();
    match FindKey(id, 0)
    case Some(i) => Entries[i].1
    case None => ""
  }

  /** The text of an `UnhandledOpcode` failure: "Unhandled opcode " and the opcode's name. */
  function UnhandledText(op: Opcode): string
  {
    "Unhandled opcode " + OpcodeName(op)
  }

  /** The opcode `opcode_id` returns for `name`: the key of the first entry with that name, else MAX. */
  function IdOf(name: string): (id: Opcode)
    ensures (exists i :: 0 <= i < |Entries| && Entries[i].1 == name) ==> exists i :: 0 <= i < |Entries| && Entries[i] == (id, name)
    ensures (forall i :: 0 <= i < |Entries| ==> Entries[i].1 != name) ==> id == MAX
  {
    match FindName(name, 0)
    case Some(i) => Entries[i].0
    case None => MAX
  }

  /** `opcode_id`: a search of the table for an entry with the given name. */
  method OpcodeId(name: string) returns (id: Opcode)
    ensures id == IdOf(name)
  {
    var i := 0;
    while i < |Entries|
      invariant 0 <= i <= |Entries|
      invariant FindName(name, 0) == FindName(name, i)
    {
      if Entries[i].1 == name {
        return Entries[i].0;
      }
      i := i + 1;
    }
    return MAX;
  }

  /** Looking a listed opcode's name up again gives the opcode back. */
  lemma IdOfName(id: Opcode)
    requires exists i :: 0 <= i < |Entries| && Entries[i].0 == id
    ensures IdOf(OpcodeName(id)) == id
  {
    var i :| 0 <= i < |Entries| && Entries[i].0 == id;
    var name := OpcodeName(id);
    assert name == Entries[i].1;
    var j :| 0 <= j < |Entries| && Entries[j] == (IdOf(name), name);
    NameUnique(i, j);
  }

  /** Looking up the opcode of a listed name and naming it gives the name back. */
  lemma NameOfId(name: string)
    requires exists i :: 0 <= i < |Entries| && Entries[i].1 == name
    ensures OpcodeName(IdOf(name)) == name
  {
  }

  /** An opcode whose value falls strictly between two neighbouring keys is not listed and has the name "". */
  lemma BetweenKeysUnnamed(id: Opcode, k: nat)
    requires k + 1 < |Entries| && Entries[k].0 < id < Entries[k + 1].0
    ensures OpcodeName(id) == ""
  {
    KeysAscending();
    forall i | 0 <= i < |Entries|
      ensures Entries[i].0 != id
    {
      if i <= k {
        assert Entries[i].0 <= Entries[k].0;
      } else {
        assert Entries[k + 1].0 <= Entries[i].0;
      }
    }
  }

  /** CALL_C, GETTABLE_N and SETSLOT are among the enumerators the table leaves out. */
  lemma SomeEnumeratorsUnnamed()
    ensures OpcodeName(CALL_C) == "" && OpcodeName(GETTABLE_N) == "" && OpcodeName(SETSLOT) == ""
  {
    assert Entries[2].0 == CALL_I && Entries[3].0 == EQ;
    BetweenKeysUnnamed(CALL_C, 2);
    assert Entries[9].0 == GETTABLE_S && Entries[10].0 == GETTABLE;
    BetweenKeysUnnamed(GETTABLE_N, 9);
    assert Entries[62].0 == DATA && Entries[63].0 == GETGLOBAL_MEM;
    BetweenKeysUnnamed(SETSLOT, 62);
  }

  /** An unlisted name resolves to MAX. */
  lemma UnlistedNameIsMax(name: string)
    requires forall i :: 0 <= i < |Entries| ==> Entries[i].1 != name
    ensures IdOf(name) == MAX
  {
  }

  /** The table lists its keys in ascending order, so no key appears twice. */
  lemma KeysAscending()
    ensures |Entries| == 64
    ensures forall i, j :: 0 <= i < j < |Entries| ==> Entries[i].0 < Entries[j].0
  {
    KeysAscending0();
    KeysAscending1();
    KeysAscending2();
    KeysAscending3();
    KeysAscending4();
    KeysAscending5();
    KeysAscending6();
    KeysAscending7();
    forall i, j | 0 <= i < j < |Entries|
      ensures Entries[i].0 < Entries[j].0
    {
      KeysChain(i, j);
    }
  }

  lemma {:induction false} KeysChain(i: nat, j: nat)
    requires |Entries| == 64
    requires forall k :: 0 <= k < |Entries| - 1 ==> Entries[k].0 < Entries[k + 1].0
    requires i < j < |Entries|
    ensures Entries[i].0 < Entries[j].0
    decreases j - i
  {
    if i + 1 < j {
      KeysChain(i + 1, j);
    }
  }

  lemma KeysAscending0()
    ensures |Entries| == 64
    ensures forall i :: 0 <= i < 8 ==> Entries[i].0 < Entries[i + 1].0
  {
    assert Entries[0].0 < Entries[1].0;
    assert Entries[1].0 < Entries[2].0;
    assert Entries[2].0 < Entries[3].0;
    assert Entries[3].0 < Entries[4].0;
    assert Entries[4].0 < Entries[5].0;
    assert Entries[5].0 < Entries[6].0;
    assert Entries[6].0 < Entries[7].0;
    assert Entries[7].0 < Entries[8].0;
  }

  lemma KeysAscending1()
    ensures |Entries| == 64
    ensures forall i :: 8 <= i < 16 ==> Entries[i].0 < Entries[i + 1].0
  {
    assert Entries[8].0 < Entries[9].0;
    assert Entries[9].0 < Entries[10].0;
    assert Entries[10].0 < Entries[11].0;
    assert Entries[11].0 < Entries[12].0;
    assert Entries[12].0 < Entries[13].0;
    assert Entries[13].0 < Entries[14].0;
    assert Entries[14].0 < Entries[15].0;
    assert Entries[15].0 < Entries[16].0;
  }

  lemma KeysAscending2()
    ensures |Entries| == 64
    ensures forall i :: 16 <= i < 24 ==> Entries[i].0 < Entries[i + 1].0
  {
    assert Entries[16].0 < Entries[17].0;
    assert Entries[17].0 < Entries[18].0;
    assert Entries[18].0 < Entries[19].0;
    assert Entries[19].0 < Entries[20].0;
    assert Entries[20].0 < Entries[21].0;
    assert Entries[21].0 < Entries[22].0;
    assert Entries[22].0 < Entries[23].0;
    assert Entries[23].0 < Entries[24].0;
  }

  lemma KeysAscending3()
    ensures |Entries| == 64
    ensures forall i :: 24 <= i < 32 ==> Entries[i].0 < Entries[i + 1].0
  {
    assert Entries[24].0 < Entries[25].0;
    assert Entries[25].0 < Entries[26].0;
    assert Entries[26].0 < Entries[27].0;
    assert Entries[27].0 < Entries[28].0;
    assert Entries[28].0 < Entries[29].0;
    assert Entries[29].0 < Entries[30].0;
    assert Entries[30].0 < Entries[31].0;
    assert Entries[31].0 < Entries[32].0;
  }

  lemma KeysAscending4()
    ensures |Entries| == 64
    ensures forall i :: 32 <= i < 40 ==> Entries[i].0 < Entries[i + 1].0
  {
    assert Entries[32].0 < Entries[33].0;
    assert Entries[33].0 < Entries[34].0;
    assert Entries[34].0 < Entries[35].0;
    assert Entries[35].0 < Entries[36].0;
    assert Entries[36].0 < Entries[37].0;
    assert Entries[37].0 < Entries[38].0;
    assert Entries[38].0 < Entries[39].0;
    assert Entries[39].0 < Entries[40].0;
  }

  lemma KeysAscending5()
    ensures |Entries| == 64
    ensures forall i :: 40 <= i < 48 ==> Entries[i].0 < Entries[i + 1].0
  {
    assert Entries[40].0 < Entries[41].0;
    assert Entries[41].0 < Entries[42].0;
    assert Entries[42].0 < Entries[43].0;
    assert Entries[43].0 < Entries[44].0;
    assert Entries[44].0 < Entries[45].0;
    assert Entries[45].0 < Entries[46].0;
    assert Entries[46].0 < Entries[47].0;
    assert Entries[47].0 < Entries[48].0;
  }

  lemma KeysAscending6()
    ensures |Entries| == 64
    ensures forall i :: 48 <= i < 56 ==> Entries[i].0 < Entries[i + 1].0
  {
    assert Entries[48].0 < Entries[49].0;
    assert Entries[49].0 < Entries[50].0;
    assert Entries[50].0 < Entries[51].0;
    assert Entries[51].0 < Entries[52].0;
    assert Entries[52].0 < Entries[53].0;
    assert Entries[53].0 < Entries[54].0;
    assert Entries[54].0 < Entries[55].0;
    assert Entries[55].0 < Entries[56].0;
  }

  lemma KeysAscending7()
    ensures |Entries| == 64
    ensures forall i :: 56 <= i < 63 ==> Entries[i].0 < Entries[i + 1].0
  {
    assert Entries[56].0 < Entries[57].0;
    assert Entries[57].0 < Entries[58].0;
    assert Entries[58].0 < Entries[59].0;
    assert Entries[59].0 < Entries[60].0;
    assert Entries[60].0 < Entries[61].0;
    assert Entries[61].0 < Entries[62].0;
    assert Entries[62].0 < Entries[63].0;
  }

  /**
   * The index of the entry named `s`, found by a decision tree on the length
   * and on distinguishing characters; each name is compared in full only at
   * its own leaf. Only used to show that the names are distinct.
   */
  function NameIndex(s: string): Option<nat>
  {
    match |s|
    case 2 =>
      (match s[1]
      case 'E' =>
        if s == "LE" then Some(45) else None
      case 'Q' =>
        if s == "EQ" then Some(3) else None
      case 'T' =>
        if s == "LT" then Some(43) else None
      case _ => None)
    case 3 =>
      (match s[0]
      case 'A' =>
        if s == "ADD" then Some(27) else None
      case 'D' =>
        if s == "DIV" then Some(33) else None
      case 'J' =>
        if s == "JMP" then Some(22) else None
      case 'L' =>
        if s == "LEN" then Some(42) else None
      case 'M' =>
        (match s[1]
        case 'O' =>
          if s == "MOD" then Some(35) else None
        case 'U' =>
          if s == "MUL" then Some(31) else None
        case _ => None)
      case 'N' =>
        if s == "NOT" then Some(41) else None
      case 'P' =>
        if s == "POW" then Some(37) else None
      case 'S' =>
        if s == "SUB" then Some(29) else None
      case 'U' =>
        if s == "UNM" then Some(40) else None
      case _ => None)
    case 4 =>
      (match s[0]
      case 'C' =>
        if s == "CALL" then Some(23) else None
      case 'D' =>
        if s == "DATA" then Some(62) else None
      case 'M' =>
        if s == "MOVE" then Some(6) else None
      case 'S' =>
        if s == "SELF" then Some(7) else None
      case 'T' =>
        if s == "TEST" then Some(1) else None
      case _ => None)
    case 5 =>
      (match s[1]
      case 'E' =>
        if s == "LE_BK" then Some(46) else None
      case 'L' =>
        if s == "CLOSE" then Some(52) else None
      case 'O' =>
        if s == "LOADK" then Some(19) else None
      case 'Q' =>
        if s == "EQ_BK" then Some(4) else None
      case 'T' =>
        if s == "LT_BK" then Some(44) else None
      case _ => None)
    case 6 =>
      (match s[0]
      case 'A' =>
        if s == "ADD_BK" then Some(28) else None
      case 'C' =>
        (match s[1]
        case 'A' =>
          if s == "CALL_I" then Some(2) else None
        case 'O' =>
          if s == "CONCAT" then Some(47) else None
        case _ => None)
      case 'D' =>
        if s == "DIV_BK" then Some(34) else None
      case 'M' =>
        (match s[1]
        case 'O' =>
          if s == "MOD_BK" then Some(36) else None
        case 'U' =>
          if s == "MUL_BK" then Some(32) else None
        case _ => None)
      case 'N' =>
        if s == "NOT_R1" then Some(59) else None
      case 'P' =>
        if s == "POW_BK" then Some(38) else None
      case 'R' =>
        if s == "RETURN" then Some(8) else None
      case 'S' =>
        if s == "SUB_BK" then Some(30) else None
      case 'V' =>
        if s == "VARARG" then Some(54) else None
      case _ => None)
    case 7 =>
      (match s[4]
      case 'I' =>
        if s == "SETLIST" then Some(51) else None
      case 'N' =>
        if s == "LOADNIL" then Some(20) else None
      case 'O' =>
        if s == "FORLOOP" then Some(50) else None
      case 'R' =>
        if s == "FORPREP" then Some(49) else None
      case 'S' =>
        if s == "TESTSET" then Some(48) else None
      case 'U' =>
        if s == "CLOSURE" then Some(53) else None
      case '_' =>
        if s == "TEST_R1" then Some(58) else None
      case _ => None)
    case 8 =>
      (match s[3]
      case 'D' =>
        if s == "LOADBOOL" then Some(11) else None
      case 'F' =>
        (match s[0]
        case 'G' =>
          if s == "GETFIELD" then Some(0) else None
        case 'S' =>
          if s == "SETFIELD" then Some(13) else None
        case _ => None)
      case 'L' =>
        if s == "TAILCALL" then Some(24) else None
      case 'R' =>
        if s == "TFORLOOP" then Some(12) else None
      case 'T' =>
        (match s[0]
        case 'G' =>
          if s == "GETTABLE" then Some(10) else None
        case 'N' =>
          if s == "NEWTABLE" then Some(39) else None
        case 'S' =>
          if s == "SETTABLE" then Some(16) else None
        case _ => None)
      case 'U' =>
        (match s[0]
        case 'G' =>
          if s == "GETUPVAL" then Some(25) else None
        case 'S' =>
          if s == "SETUPVAL" then Some(26) else None
        case _ => None)
      case _ => None)
    case 9 =>
      (match s[0]
      case 'C' =>
        if s == "CALL_I_R1" then Some(56) else None
      case 'G' =>
        if s == "GETGLOBAL" then Some(5) else None
      case 'S' =>
        if s == "SETGLOBAL" then Some(21) else None
      case _ => None)
    case 10 =>
      (match s[0]
      case 'G' =>
        if s == "GETTABLE_S" then Some(9) else None
      case 'S' =>
        if s == "SETTABLE_S" then Some(14) else None
      case 'T' =>
        if s == "TAILCALL_I" then Some(18) else None
      case _ => None)
    case 11 =>
      (match s[3]
      case 'F' =>
        (match s[0]
        case 'G' =>
          if s == "GETFIELD_R1" then Some(60) else None
        case 'S' =>
          if s == "SETFIELD_R1" then Some(61) else None
        case _ => None)
      case 'T' =>
        if s == "SETTABLE_BK" then Some(17) else None
      case 'U' =>
        if s == "SETUPVAL_R1" then Some(57) else None
      case _ => None)
    case 13 =>
      (match s[0]
      case 'G' =>
        if s == "GETGLOBAL_MEM" then Some(63) else None
      case 'S' =>
        if s == "SETTABLE_S_BK" then Some(15) else None
      case 'T' =>
        if s == "TAILCALL_I_R1" then Some(55) else None
      case _ => None)
    case _ => None
  }

  /** No two entries share a name, and no name is empty. */
  lemma NamesDistinct()
    ensures forall i, j :: 0 <= i < |Entries| && 0 <= j < |Entries| && Entries[i].1 == Entries[j].1 ==> i == j
  {
    NamesDecode0();
    NamesDecode1();
    NamesDecode2();
    NamesDecode3();
    NamesDecode4();
    NamesDecode5();
    NamesDecode6();
    NamesDecode7();
    NamesDecode8();
    NamesDecode9();
    NamesDecode10();
  }

  /** Two entries with the same name are the same entry. */
  lemma NameUnique(i: nat, j: nat)
    requires i < |Entries| && j < |Entries| && Entries[i].1 == Entries[j].1
    ensures i == j
  {
    NamesDistinct();
  }

  lemma NamesNonEmpty()
    ensures forall i :: 0 <= i < |Entries| ==> Entries[i].1 != ""
  {
    NamesDecode0();
    NamesDecode1();
    NamesDecode2();
    NamesDecode3();
    NamesDecode4();
    NamesDecode5();
    NamesDecode6();
    NamesDecode7();
    NamesDecode8();
    NamesDecode9();
    NamesDecode10();
  }

  lemma NamesDecode0()
    ensures |Entries| == 64
    ensures forall i :: 0 <= i < 6 ==> NameIndex(Entries[i].1) == Some(i)
  {
    assert NameIndex(Entries[0].1) == Some(0);
    assert NameIndex(Entries[1].1) == Some(1);
    assert NameIndex(Entries[2].1) == Some(2);
    assert NameIndex(Entries[3].1) == Some(3);
    assert NameIndex(Entries[4].1) == Some(4);
    assert NameIndex(Entries[5].1) == Some(5);
  }

  lemma NamesDecode1()
    ensures |Entries| == 64
    ensures forall i :: 6 <= i < 12 ==> NameIndex(Entries[i].1) == Some(i)
  {
    assert NameIndex(Entries[6].1) == Some(6);
    assert NameIndex(Entries[7].1) == Some(7);
    assert NameIndex(Entries[8].1) == Some(8);
    assert NameIndex(Entries[9].1) == Some(9);
    assert NameIndex(Entries[10].1) == Some(10);
    assert NameIndex(Entries[11].1) == Some(11);
  }

  lemma NamesDecode2()
    ensures |Entries| == 64
    ensures forall i :: 12 <= i < 18 ==> NameIndex(Entries[i].1) == Some(i)
  {
    assert NameIndex(Entries[12].1) == Some(12);
    assert NameIndex(Entries[13].1) == Some(13);
    assert NameIndex(Entries[14].1) == Some(14);
    assert NameIndex(Entries[15].1) == Some(15);
    assert NameIndex(Entries[16].1) == Some(16);
    assert NameIndex(Entries[17].1) == Some(17);
  }

  lemma NamesDecode3()
    ensures |Entries| == 64
    ensures forall i :: 18 <= i < 24 ==> NameIndex(Entries[i].1) == Some(i)
  {
    assert NameIndex(Entries[18].1) == Some(18);
    assert NameIndex(Entries[19].1) == Some(19);
    assert NameIndex(Entries[20].1) == Some(20);
    assert NameIndex(Entries[21].1) == Some(21);
    assert NameIndex(Entries[22].1) == Some(22);
    assert NameIndex(Entries[23].1) == Some(23);
  }

  lemma NamesDecode4()
    ensures |Entries| == 64
    ensures forall i :: 24 <= i < 30 ==> NameIndex(Entries[i].1) == Some(i)
  {
    assert NameIndex(Entries[24].1) == Some(24);
    assert NameIndex(Entries[25].1) == Some(25);
    assert NameIndex(Entries[26].1) == Some(26);
    assert NameIndex(Entries[27].1) == Some(27);
    assert NameIndex(Entries[28].1) == Some(28);
    assert NameIndex(Entries[29].1) == Some(29);
  }

  lemma NamesDecode5()
    ensures |Entries| == 64
    ensures forall i :: 30 <= i < 36 ==> NameIndex(Entries[i].1) == Some(i)
  {
    assert NameIndex(Entries[30].1) == Some(30);
    assert NameIndex(Entries[31].1) == Some(31);
    assert NameIndex(Entries[32].1) == Some(32);
    assert NameIndex(Entries[33].1) == Some(33);
    assert NameIndex(Entries[34].1) == Some(34);
    assert NameIndex(Entries[35].1) == Some(35);
  }

  lemma NamesDecode6()
    ensures |Entries| == 64
    ensures forall i :: 36 <= i < 42 ==> NameIndex(Entries[i].1) == Some(i)
  {
    assert NameIndex(Entries[36].1) == Some(36);
    assert NameIndex(Entries[37].1) == Some(37);
    assert NameIndex(Entries[38].1) == Some(38);
    assert NameIndex(Entries[39].1) == Some(39);
    assert NameIndex(Entries[40].1) == Some(40);
    assert NameIndex(Entries[41].1) == Some(41);
  }

  lemma NamesDecode7()
    ensures |Entries| == 64
    ensures forall i :: 42 <= i < 48 ==> NameIndex(Entries[i].1) == Some(i)
  {
    assert NameIndex(Entries[42].1) == Some(42);
    assert NameIndex(Entries[43].1) == Some(43);
    assert NameIndex(Entries[44].1) == Some(44);
    assert NameIndex(Entries[45].1) == Some(45);
    assert NameIndex(Entries[46].1) == Some(46);
    assert NameIndex(Entries[47].1) == Some(47);
  }

  lemma NamesDecode8()
    ensures |Entries| == 64
    ensures forall i :: 48 <= i < 54 ==> NameIndex(Entries[i].1) == Some(i)
  {
    assert NameIndex(Entries[48].1) == Some(48);
    assert NameIndex(Entries[49].1) == Some(49);
    assert NameIndex(Entries[50].1) == Some(50);
    assert NameIndex(Entries[51].1) == Some(51);
    assert NameIndex(Entries[52].1) == Some(52);
    assert NameIndex(Entries[53].1) == Some(53);
  }

  lemma NamesDecode9()
    ensures |Entries| == 64
    ensures forall i :: 54 <= i < 60 ==> NameIndex(Entries[i].1) == Some(i)
  {
    assert NameIndex(Entries[54].1) == Some(54);
    assert NameIndex(Entries[55].1) == Some(55);
    assert NameIndex(Entries[56].1) == Some(56);
    assert NameIndex(Entries[57].1) == Some(57);
    assert NameIndex(Entries[58].1) == Some(58);
    assert NameIndex(Entries[59].1) == Some(59);
  }

  lemma NamesDecode10()
    ensures |Entries| == 64
    ensures forall i :: 60 <= i < 64 ==> NameIndex(Entries[i].1) == Some(i)
  {
    assert NameIndex(Entries[60].1) == Some(60);
    assert NameIndex(Entries[61].1) == Some(61);
    assert NameIndex(Entries[62].1) == Some(62);
    assert NameIndex(Entries[63].1) == Some(63);
  }

}
