/**
 * Field extraction from a 32-bit Havok Script instruction word
 * (src/LuiTool/HavokScript/Assembly/HksOp.cs).
 *
 * Layout, most significant bit first:  code:7 | B:8 | C:9 | A:8.
 * Bx is the 17 bits B:C read as one unsigned number, sBx is Bx biased by 0xFFFF,
 * and the top bit of C says that C names a constant ("sZero").
 * A mask-and-shift `(op & M) >> k` over a field of w bits is written here as
 * `(op / 2^k) % 2^w`, which is the same number for every 32-bit word.
 */
module HksOp {

  import opened Common

  const WORD_LIMIT: nat := 0x1_0000_0000
  type Word = w: nat | w < WORD_LIMIT

  const SBX_BIAS: int := 0xFFFF

  /** Bits 25..31 (mask 0xFE000000). */
  function GetCode(op: Word): (r: nat)
    ensures r < 128
  {
    op / 0x200_0000
  }

  /** Bits 0..7 (mask 0x000000FF). */
  function GetArgA(op: Word): (r: nat)
    ensures r < 256
  {
    op % 0x100
  }

  /** Bits 17..24 (mask 0x01FE0000). */
  function GetArgB(op: Word): (r: nat)
    ensures r < 256
  {
    (op / 0x2_0000) % 0x100
  }

  /** Bits 8..16 (mask 0x0001FF00). */
  function GetArgC(op: Word): (r: nat)
    ensures r < 512
  {
    (op / 0x100) % 0x200
  }

  /** Bits 8..24 (mask 0x01FFFF00). */
  function GetArgBx(op: Word): (r: nat)
    ensures r < 0x2_0000
  {
    (op / 0x100) % 0x2_0000
  }

  function GetArgsBx(op: Word): (r: int)
    ensures -SBX_BIAS <= r <= 0x1_0000
  {
    GetArgBx(op) - SBX_BIAS
  }

  /** C at or above 0x100: C names the constant C - 0x100 rather than a register. */
  predicate GetsZero(op: Word)
  {
    GetArgC(op) >= 0x100
  }

  /** Bit 16 of the word, the top bit of the C field. */
  function Bit16(op: Word): (r: nat)
    ensures r < 2
  {
    (op / 0x1_0000) % 2
  }

  /** C names a constant exactly when bit 16 of the word is set. */
  lemma GetsZeroIsBit16(op: Word)
    ensures GetsZero(op) <==> Bit16(op) == 1
  {
    var x := op / 0x100;
    var c := x % 0x200;
    assert x / 0x100 == op / 0x1_0000 by { DivMod(op, 0x1_0000, x / 0x100, (x % 0x100) * 0x100 + op % 0x100); }
    var hi := (x / 0x100) % 2;
    var q := (x / 0x100) / 2;
    assert x == q * 0x200 + (hi * 0x100 + x % 0x100);
    DivMod(x, 0x200, q, hi * 0x100 + x % 0x100);
    assert c == hi * 0x100 + x % 0x100;
  }

  /** The word an assembler writes for an ABC instruction. */
  function EncodeABC(code: nat, a: nat, b: nat, c: nat): Word
    requires code < 128 && a < 256 && b < 256 && c < 512
  {
    code * 0x200_0000 + b * 0x2_0000 + c * 0x100 + a
  }

  /** The word an assembler writes for an ABx instruction. */
  function EncodeABx(code: nat, a: nat, bx: nat): Word
    requires code < 128 && a < 256 && bx < 0x2_0000
  {
    code * 0x200_0000 + bx * 0x100 + a
  }

  /** Decoding the fields of an encoded ABC word gives the fields back. */
  lemma DecodeEncodeABC(code: nat, a: nat, b: nat, c: nat)
    requires code < 128 && a < 256 && b < 256 && c < 512
    ensures GetCode(EncodeABC(code, a, b, c)) == code
    ensures GetArgA(EncodeABC(code, a, b, c)) == a
    ensures GetArgB(EncodeABC(code, a, b, c)) == b
    ensures GetArgC(EncodeABC(code, a, b, c)) == c
  {
    var w := EncodeABC(code, a, b, c);
    var low := b * 0x2_0000 + c * 0x100 + a;
    assert low < 0x200_0000;
    DivMod(w, 0x200_0000, code, low);
    DivMod(w, 0x100, code * 0x2_0000 + b * 0x200 + c, a);
    DivMod(w / 0x100, 0x200, code * 0x100 + b, c);
    DivMod(w / 0x2_0000, 0x100, code, b);
    assert w / 0x2_0000 == code * 0x100 + b by {
      DivMod(w, 0x2_0000, code * 0x100 + b, c * 0x100 + a);
    }
  }

  /** Every word is the encoding of its own fields: extraction loses no bit. */
  lemma EncodeDecodeABC(op: Word)
    ensures EncodeABC(GetCode(op), GetArgA(op), GetArgB(op), GetArgC(op)) == op
  {
    var q1 := op / 0x100;
    assert op == q1 * 0x100 + GetArgA(op);
    var q2 := q1 / 0x200;
    assert q1 == q2 * 0x200 + GetArgC(op);
    assert q2 == op / 0x2_0000 by { DivMod(op, 0x2_0000, q2, GetArgC(op) * 0x100 + GetArgA(op)); }
    var q3 := q2 / 0x100;
    assert q2 == q3 * 0x100 + GetArgB(op);
    assert q3 == GetCode(op) by { DivMod(op, 0x200_0000, q3, GetArgB(op) * 0x2_0000 + GetArgC(op) * 0x100 + GetArgA(op)); }
  }

  /** Bx is B and C read together: B supplies the high eight bits. */
  lemma BxIsBThenC(op: Word)
    ensures GetArgBx(op) == GetArgB(op) * 512 + GetArgC(op)
  {
    var q1 := op / 0x100;
    var q2 := q1 / 0x200;
    assert q1 == q2 * 0x200 + q1 % 0x200;
    assert q2 == op / 0x2_0000 by { DivMod(op, 0x2_0000, q2, (q1 % 0x200) * 0x100 + op % 0x100); }
    var hi := q2 / 0x100;
    assert q2 == hi * 0x100 + q2 % 0x100;
    assert q1 == hi * 0x2_0000 + ((q2 % 0x100) * 0x200 + q1 % 0x200);
    DivMod(q1, 0x2_0000, hi, (q2 % 0x100) * 0x200 + q1 % 0x200);
  }

  /** Decoding an encoded ABx word gives the code, A and Bx back. */
  lemma DecodeEncodeABx(code: nat, a: nat, bx: nat)
    requires code < 128 && a < 256 && bx < 0x2_0000
    ensures GetCode(EncodeABx(code, a, bx)) == code
    ensures GetArgA(EncodeABx(code, a, bx)) == a
    ensures GetArgBx(EncodeABx(code, a, bx)) == bx
  {
    var w := EncodeABx(code, a, bx);
    DivMod(w, 0x200_0000, code, bx * 0x100 + a);
    DivMod(w, 0x100, code * 0x2_0000 + bx, a);
    DivMod(w / 0x100, 0x2_0000, code, bx);
  }

  /** An ABx word splits into B and C as BxIsBThenC says, so ABC and ABx encodings agree. */
  lemma EncodeABxIsABC(code: nat, a: nat, bx: nat)
    requires code < 128 && a < 256 && bx < 0x2_0000
    ensures EncodeABx(code, a, bx) == EncodeABC(code, a, bx / 512, bx % 512)
  {
  }
}
