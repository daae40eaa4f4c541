/**
 * Instruction field layout and the opcode enumeration of the C++ tool chain
 * (src/IW6/IW6.hpp).
 *
 * The C# tool chain's `HksOpCode` enumeration is not part of this model; both
 * tool chains are modelled with this one enumeration, its values and its
 * identifiers (without the `HKS_OPCODE_` prefix).
 */
module IW6 {

  import opened Common

  const SIZE_A: nat := 8
  const SIZE_C: nat := 9
  const SIZE_B: nat := 8
  const SIZE_Bx: nat := 17
  const SIZE_OP: nat := 7

  const POS_A: nat := 0
  const POS_C: nat := 8
  const POS_B: nat := 17
  const POS_Bx: nat := 8
  const POS_OP: nat := 25

  const MASK_A: bv32 := 0x0000_00FF
  const MASK_C: bv32 := 0x0001_FF00
  const MASK_B: bv32 := 0x01FE_0000
  const MASK_Bx: bv32 := 0x01FF_FF00
  const MASK_OP: bv32 := 0xFE00_0000

  /** `(1 << SIZE_Bx) - 1` */
  const MAXARG_Bx: nat := 0x1_FFFF
  /** `MAXARG_Bx >> 1` */
  const MAXARG_sBx: nat := MAXARG_Bx / 2

  /** A field of `size` bits starting at bit `pos`, as a mask. */
  function FieldMask(size: nat, pos: nat): bv32
    requires size + pos <= 32
  {
    (((1 as bv32) << size) - 1) << pos
  }

  /** Each mask is the field its SIZE and POS describe. */
  lemma MasksMatchLayout()
    ensures MASK_A == FieldMask(SIZE_A, POS_A)
    ensures MASK_B == FieldMask(SIZE_B, POS_B)
    ensures MASK_C == FieldMask(SIZE_C, POS_C)
    ensures MASK_Bx == FieldMask(SIZE_Bx, POS_Bx)
    ensures MASK_OP == FieldMask(SIZE_OP, POS_OP)
  {
  }

  /** The OP, B, C and A fields are pairwise disjoint, cover the word, and Bx is B and C together. */
  lemma MasksPartitionWord()
    ensures MASK_OP & MASK_B == 0 && MASK_OP & MASK_C == 0 && MASK_OP & MASK_A == 0
    ensures MASK_B & MASK_C == 0 && MASK_B & MASK_A == 0 && MASK_C & MASK_A == 0
    ensures MASK_OP | MASK_B | MASK_C | MASK_A == 0xFFFF_FFFF
    ensures MASK_Bx == MASK_B | MASK_C
  {
  }

  /** MAXARG_Bx is the largest Bx, and MAXARG_sBx is the bias that centres sBx. */
  lemma MaxArgs()
    ensures MAXARG_Bx + 1 == 0x2_0000 && MAXARG_sBx == 0xFFFF
  {
  }

  /**
   * `enum class opcode : std::uint8_t`. An opcode is any 8-bit value (the
   * disassembler converts the 7-bit OP field to it unchecked); the
   * enumerators name 0x00 to 0x5E.
   */
  type Opcode = v: nat | v < 0x100

  const GETFIELD: Opcode := 0x00
  const TEST: Opcode := 0x01
  const CALL_I: Opcode := 0x02
  const CALL_C: Opcode := 0x03
  const EQ: Opcode := 0x04
  const EQ_BK: Opcode := 0x05
  const GETGLOBAL: Opcode := 0x06
  const MOVE: Opcode := 0x07
  const SELF: Opcode := 0x08
  const RETURN: Opcode := 0x09
  const GETTABLE_S: Opcode := 0x0A
  const GETTABLE_N: Opcode := 0x0B
  const GETTABLE: Opcode := 0x0C
  const LOADBOOL: Opcode := 0x0D
  const TFORLOOP: Opcode := 0x0E
  const SETFIELD: Opcode := 0x0F
  const SETTABLE_S: Opcode := 0x10
  const SETTABLE_S_BK: Opcode := 0x11
  const SETTABLE_N: Opcode := 0x12
  const SETTABLE_N_BK: Opcode := 0x13
  const SETTABLE: Opcode := 0x14
  const SETTABLE_BK: Opcode := 0x15
  const TAILCALL_I: Opcode := 0x16
  const TAILCALL_C: Opcode := 0x17
  const TAILCALL_M: Opcode := 0x18
  const LOADK: Opcode := 0x19
  const LOADNIL: Opcode := 0x1A
  const SETGLOBAL: Opcode := 0x1B
  const JMP: Opcode := 0x1C
  const CALL_M: Opcode := 0x1D
  const CALL: Opcode := 0x1E
  const INTRINSIC_INDEX: Opcode := 0x1F
  const INTRINSIC_NEWINDEX: Opcode := 0x20
  const INTRINSIC_SELF: Opcode := 0x21
  const INTRINSIC_INDEX_LITERAL: Opcode := 0x22
  const INTRINSIC_NEWINDEX_LITERAL: Opcode := 0x23
  const INTRINSIC_SELF_LITERAL: Opcode := 0x24
  const TAILCALL: Opcode := 0x25
  const GETUPVAL: Opcode := 0x26
  const SETUPVAL: Opcode := 0x27
  const ADD: Opcode := 0x28
  const ADD_BK: Opcode := 0x29
  const SUB: Opcode := 0x2A
  const SUB_BK: Opcode := 0x2B
  const MUL: Opcode := 0x2C
  const MUL_BK: Opcode := 0x2D
  const DIV: Opcode := 0x2E
  const DIV_BK: Opcode := 0x2F
  const MOD: Opcode := 0x30
  const MOD_BK: Opcode := 0x31
  const POW: Opcode := 0x32
  const POW_BK: Opcode := 0x33
  const NEWTABLE: Opcode := 0x34
  const UNM: Opcode := 0x35
  const NOT: Opcode := 0x36
  const LEN: Opcode := 0x37
  const LT: Opcode := 0x38
  const LT_BK: Opcode := 0x39
  const LE: Opcode := 0x3A
  const LE_BK: Opcode := 0x3B
  const CONCAT: Opcode := 0x3C
  const TESTSET: Opcode := 0x3D
  const FORPREP: Opcode := 0x3E
  const FORLOOP: Opcode := 0x3F
  const SETLIST: Opcode := 0x40
  const CLOSE: Opcode := 0x41
  const CLOSURE: Opcode := 0x42
  const VARARG: Opcode := 0x43
  const TAILCALL_I_R1: Opcode := 0x44
  const CALL_I_R1: Opcode := 0x45
  const SETUPVAL_R1: Opcode := 0x46
  const TEST_R1: Opcode := 0x47
  const NOT_R1: Opcode := 0x48
  const GETFIELD_R1: Opcode := 0x49
  const SETFIELD_R1: Opcode := 0x4A
  const NEWSTRUCT: Opcode := 0x4B
  const DATA: Opcode := 0x4C
  const SETSLOTN: Opcode := 0x4D
  const SETSLOTI: Opcode := 0x4E
  const SETSLOT: Opcode := 0x4F
  const SETSLOTS: Opcode := 0x50
  const SETSLOTMT: Opcode := 0x51
  const CHECKTYPE: Opcode := 0x52
  const CHECKTYPES: Opcode := 0x53
  const GETSLOT: Opcode := 0x54
  const GETSLOTMT: Opcode := 0x55
  const SELFSLOT: Opcode := 0x56
  const SELFSLOTMT: Opcode := 0x57
  const GETFIELD_MM: Opcode := 0x58
  const CHECKTYPE_D: Opcode := 0x59
  const GETSLOT_D: Opcode := 0x5A
  const GETGLOBAL_MEM: Opcode := 0x5B
  const DELETE: Opcode := 0x5C
  const DELETE_BK: Opcode := 0x5D
  const MAX: Opcode := 0x5E

  /** The enumerators in declaration order. */
  const Enumerators: seq<Opcode> :=
    [GETFIELD, TEST, CALL_I, CALL_C, EQ, EQ_BK, GETGLOBAL, MOVE]
    + [SELF, RETURN, GETTABLE_S, GETTABLE_N, GETTABLE, LOADBOOL, TFORLOOP, SETFIELD]
    + [SETTABLE_S, SETTABLE_S_BK, SETTABLE_N, SETTABLE_N_BK, SETTABLE, SETTABLE_BK, TAILCALL_I, TAILCALL_C]
    + [TAILCALL_M, LOADK, LOADNIL, SETGLOBAL, JMP, CALL_M, CALL, INTRINSIC_INDEX]
    + [INTRINSIC_NEWINDEX, INTRINSIC_SELF, INTRINSIC_INDEX_LITERAL, INTRINSIC_NEWINDEX_LITERAL, INTRINSIC_SELF_LITERAL, TAILCALL, GETUPVAL, SETUPVAL]
    + [ADD, ADD_BK, SUB, SUB_BK, MUL, MUL_BK, DIV, DIV_BK]
    + [MOD, MOD_BK, POW, POW_BK, NEWTABLE, UNM, NOT, LEN]
    + [LT, LT_BK, LE, LE_BK, CONCAT, TESTSET, FORPREP, FORLOOP]
    + [SETLIST, CLOSE, CLOSURE, VARARG, TAILCALL_I_R1, CALL_I_R1, SETUPVAL_R1, TEST_R1]
    + [NOT_R1, GETFIELD_R1, SETFIELD_R1, NEWSTRUCT, DATA, SETSLOTN, SETSLOTI, SETSLOT]
    + [SETSLOTS, SETSLOTMT, CHECKTYPE, CHECKTYPES, GETSLOT, GETSLOTMT, SELFSLOT, SELFSLOTMT]
    + [GETFIELD_MM, CHECKTYPE_D, GETSLOT_D, GETGLOBAL_MEM, DELETE, DELETE_BK, MAX]

  /** The enumerators are numbered 0x00, 0x01, ... in declaration order, ending at MAX = 0x5E. */
  lemma EnumeratorsConsecutive()
    ensures |Enumerators| == MAX + 1
    ensures forall i :: 0 <= i < |Enumerators| ==> Enumerators[i] == i
  {
    EnumeratorsNumbered0();
    EnumeratorsNumbered1();
    EnumeratorsNumbered2();
    EnumeratorsNumbered3();
    EnumeratorsNumbered4();
    EnumeratorsNumbered5();
  }

  lemma EnumeratorsNumbered0()
    ensures |Enumerators| == MAX + 1
    ensures forall i :: 0 <= i < 16 ==> Enumerators[i] == i
  {
    assert Enumerators[0] == 0;
    assert Enumerators[1] == 1;
    assert Enumerators[2] == 2;
    assert Enumerators[3] == 3;
    assert Enumerators[4] == 4;
    assert Enumerators[5] == 5;
    assert Enumerators[6] == 6;
    assert Enumerators[7] == 7;
    assert Enumerators[8] == 8;
    assert Enumerators[9] == 9;
    assert Enumerators[10] == 10;
    assert Enumerators[11] == 11;
    assert Enumerators[12] == 12;
    assert Enumerators[13] == 13;
    assert Enumerators[14] == 14;
    assert Enumerators[15] == 15;
  }

  lemma EnumeratorsNumbered1()
    ensures |Enumerators| == MAX + 1
    ensures forall i :: 16 <= i < 32 ==> Enumerators[i] == i
  {
    assert Enumerators[16] == 16;
    assert Enumerators[17] == 17;
    assert Enumerators[18] == 18;
    assert Enumerators[19] == 19;
    assert Enumerators[20] == 20;
    assert Enumerators[21] == 21;
    assert Enumerators[22] == 22;
    assert Enumerators[23] == 23;
    assert Enumerators[24] == 24;
    assert Enumerators[25] == 25;
    assert Enumerators[26] == 26;
    assert Enumerators[27] == 27;
    assert Enumerators[28] == 28;
    assert Enumerators[29] == 29;
    assert Enumerators[30] == 30;
    assert Enumerators[31] == 31;
  }

  lemma EnumeratorsNumbered2()
    ensures |Enumerators| == MAX + 1
    ensures forall i :: 32 <= i < 48 ==> Enumerators[i] == i
  {
    assert Enumerators[32] == 32;
    assert Enumerators[33] == 33;
    assert Enumerators[34] == 34;
    assert Enumerators[35] == 35;
    assert Enumerators[36] == 36;
    assert Enumerators[37] == 37;
    assert Enumerators[38] == 38;
    assert Enumerators[39] == 39;
    assert Enumerators[40] == 40;
    assert Enumerators[41] == 41;
    assert Enumerators[42] == 42;
    assert Enumerators[43] == 43;
    assert Enumerators[44] == 44;
    assert Enumerators[45] == 45;
    assert Enumerators[46] == 46;
    assert Enumerators[47] == 47;
  }

  lemma EnumeratorsNumbered3()
    ensures |Enumerators| == MAX + 1
    ensures forall i :: 48 <= i < 64 ==> Enumerators[i] == i
  {
    assert Enumerators[48] == 48;
    assert Enumerators[49] == 49;
    assert Enumerators[50] == 50;
    assert Enumerators[51] == 51;
    assert Enumerators[52] == 52;
    assert Enumerators[53] == 53;
    assert Enumerators[54] == 54;
    assert Enumerators[55] == 55;
    assert Enumerators[56] == 56;
    assert Enumerators[57] == 57;
    assert Enumerators[58] == 58;
    assert Enumerators[59] == 59;
    assert Enumerators[60] == 60;
    assert Enumerators[61] == 61;
    assert Enumerators[62] == 62;
    assert Enumerators[63] == 63;
  }

  lemma EnumeratorsNumbered4()
    ensures |Enumerators| == MAX + 1
    ensures forall i :: 64 <= i < 80 ==> Enumerators[i] == i
  {
    assert Enumerators[64] == 64;
    assert Enumerators[65] == 65;
    assert Enumerators[66] == 66;
    assert Enumerators[67] == 67;
    assert Enumerators[68] == 68;
    assert Enumerators[69] == 69;
    assert Enumerators[70] == 70;
    assert Enumerators[71] == 71;
    assert Enumerators[72] == 72;
    assert Enumerators[73] == 73;
    assert Enumerators[74] == 74;
    assert Enumerators[75] == 75;
    assert Enumerators[76] == 76;
    assert Enumerators[77] == 77;
    assert Enumerators[78] == 78;
    assert Enumerators[79] == 79;
  }

  lemma EnumeratorsNumbered5()
    ensures |Enumerators| == MAX + 1
    ensures forall i :: 80 <= i < 95 ==> Enumerators[i] == i
  {
    assert Enumerators[80] == 80;
    assert Enumerators[81] == 81;
    assert Enumerators[82] == 82;
    assert Enumerators[83] == 83;
    assert Enumerators[84] == 84;
    assert Enumerators[85] == 85;
    assert Enumerators[86] == 86;
    assert Enumerators[87] == 87;
    assert Enumerators[88] == 88;
    assert Enumerators[89] == 89;
    assert Enumerators[90] == 90;
    assert Enumerators[91] == 91;
    assert Enumerators[92] == 92;
    assert Enumerators[93] == 93;
    assert Enumerators[94] == 94;
  }

  /** Every enumerator fits in the 7-bit OP field of an instruction word. */
  lemma EnumeratorsFitOpField(op: Opcode)
    requires op in Enumerators
    ensures op < 128
  {
    EnumeratorsConsecutive();
  }
}
