/**
 * The bit-field helpers of the executor and the decoding of the four
 * 16-bit Thumb forms it implements: MOV (immediate) T1, ADD (register) T1,
 * SUB (register) T1 and B T2 of chapter A7.7 of the ARMv7-M Architecture
 * Reference Manual.
 *
 * Shift amounts are kept as `bv32` (the C code passes small `int`
 * constants) so that every fact below stays in bit-vector arithmetic.
 */
module Decoder {

  /** The two's-complement reading of a 32-bit pattern, as a C `int32_t`. */
  function Signed(x: bv32): (r: int)
  {
    if x < 0x8000_0000 then x as int else x as int - 0x1_0000_0000
  }

  /**
   * `get_bits`: bits `start` to `end` (inclusive) of `value`, moved down to
   * bit 0. The result fits the field's width, and put back at `start` it is
   * exactly the part of `value` that lies between `start` and `end`.
   */
  function GetBits(value: bv32, start: bv32, end: bv32): (r: bv32)
    // the C mask `(1U << (end - start + 1)) - 1` is defined only below a 32-bit shift
    requires start <= end < 32 && end - start < 31
    ensures r < 1 << (end - start + 1)
    ensures r << start == value & (((1 << (end - start + 1)) - 1) << start)
  {
    var mask: bv32 := (1 << (end - start + 1)) - 1;
    (value >> start) & mask
  }

  /**
   * `sign_extend`: the `bits`-wide field `value` read as two's complement and
   * widened to 32 bits (the C result is an `int32_t`; here its bit pattern).
   * A field without its top bit is unchanged; one with it set stands for
   * `value - 2^bits`.
   */
  function SignExtend(value: bv32, bits: bv32): (r: bv32)
    requires 1 <= bits < 32
    ensures value < 1 << (bits - 1) ==> r == value
    ensures 1 << (bits - 1) <= value < 1 << bits ==> r == value - (1 << bits)
  {
    var signBit: bv32 := 1 << (bits - 1);
    if value & signBit != 0 then value | (!0 << bits) else value
  }

  /** The 11-bit branch field as a signed number: `v` below 1024, `v - 2048` from 1024 on. */
  lemma SignExtend11(v: bv32)
    requires v < 2048
    ensures Signed(SignExtend(v, 11)) == if v < 1024 then v as int else v as int - 2048
    ensures -1024 <= Signed(SignExtend(v, 11)) <= 1023
  {
    if v >= 1024 {
      assert SignExtend(v, 11) == v + 0xFFFF_F800;
      assert (v + 0xFFFF_F800) as int == v as int + 0xFFFF_F800;
    }
  }

  /** The primary opcode classes held in bits 11-15. */
  const OP_MOV_IMM: bv32 := 0x04   // 0b00100
  const OP_ADD_SUB: bv32 := 0x03   // 0b00011
  const OP_BRANCH: bv32 := 0x1C    // 0b11100

  /** A decoded instruction word; `Unknown` keeps the raw word it came from. */
  datatype Instr =
    | MovImm(rd: bv32, imm8: bv32)
    | AddSubReg(subOp: bv32, rm: bv32, rn: bv32, rd: bv32)
    | Branch(imm11: bv32)
    | Unknown(word: bv16)

  function Opcode(w: bv16): (op: bv32)
    ensures op < 32
  {
    GetBits(w as bv32, 11, 15)
  }

  /** The field widths of each form; an `Unknown` word has none of the three opcodes. */
  predicate WellFormed(i: Instr) {
    match i
    case MovImm(rd, imm8) => rd < 8 && imm8 < 256
    case AddSubReg(subOp, rm, rn, rd) => subOp < 4 && rm < 8 && rn < 8 && rd < 8
    case Branch(imm11) => imm11 < 2048
    case Unknown(w) => Opcode(w) != OP_MOV_IMM && Opcode(w) != OP_ADD_SUB && Opcode(w) != OP_BRANCH
  }

  /** The field extraction of `simulator_step`, as a total function. */
  function Decode(w: bv16): (i: Instr)
    ensures WellFormed(i)
    ensures i.MovImm? <==> Opcode(w) == OP_MOV_IMM
    ensures i.AddSubReg? <==> Opcode(w) == OP_ADD_SUB
    ensures i.Branch? <==> Opcode(w) == OP_BRANCH
  {
    var x := w as bv32;
    var op := Opcode(w);
    if op == OP_MOV_IMM then
      MovImm(GetBits(x, 8, 10), GetBits(x, 0, 7))
    else if op == OP_ADD_SUB then
      AddSubReg(GetBits(x, 9, 10), GetBits(x, 6, 8), GetBits(x, 3, 5), GetBits(x, 0, 2))
    else if op == OP_BRANCH then
      Branch(GetBits(x, 0, 10))
    else
      Unknown(w)
  }

  /**
   * The layouts `001 00 Rd imm8`, `000 11 op Rm Rn Rd` and `111 00 imm11`
   * written in the executor's comments, as an assembler would emit them.
   */
  function Encode(i: Instr): (w: bv16)
    requires WellFormed(i)
    ensures i.MovImm? ==> Opcode(w) == OP_MOV_IMM
    ensures i.AddSubReg? ==> Opcode(w) == OP_ADD_SUB
    ensures i.Branch? ==> Opcode(w) == OP_BRANCH
  {
    match i
    case MovImm(rd, imm8) => 0x2000 | (rd as bv16 << 8) | imm8 as bv16
    case AddSubReg(subOp, rm, rn, rd) =>
      0x1800 | (subOp as bv16 << 9) | (rm as bv16 << 6) | (rn as bv16 << 3) | rd as bv16
    case Branch(imm11) => 0xE000 | imm11 as bv16
    case Unknown(w) => w
  }

  /** The fields of a MOV (immediate) word, read off directly. */
  lemma DecodeMovFields(w: bv16)
    requires (w as bv32 >> 11) & 0x1F == OP_MOV_IMM
    ensures Decode(w) == MovImm((w as bv32 >> 8) & 7, w as bv32 & 0xFF)
  {
  }

  /** The fields of an ADD/SUB (register) word, read off directly. */
  lemma DecodeAddSubFields(w: bv16)
    requires (w as bv32 >> 11) & 0x1F == OP_ADD_SUB
    ensures var x := w as bv32;
      Decode(w) == AddSubReg((x >> 9) & 3, (x >> 6) & 7, (x >> 3) & 7, x & 7)
  {
  }

  /** The field of a B word, read off directly. */
  lemma DecodeBranchField(w: bv16)
    requires (w as bv32 >> 11) & 0x1F == OP_BRANCH
    ensures Decode(w) == Branch(w as bv32 & 0x7FF)
  {
  }

  /** Decoding loses nothing: every word is the encoding of its decoding. */
  lemma EncodeDecode(w: bv16)
    ensures Encode(Decode(w)) == w
  {
    var op := (w as bv32 >> 11) & 0x1F;
    if op == OP_MOV_IMM {
      DecodeMovFields(w);
    } else if op == OP_ADD_SUB {
      DecodeAddSubFields(w);
    } else if op == OP_BRANCH {
      DecodeBranchField(w);
    } else {
      assert Opcode(w) == op;
    }
  }

  /** Encoding loses nothing: a well-formed instruction decodes back to itself. */
  lemma DecodeEncode(i: Instr)
    requires WellFormed(i)
    ensures Decode(Encode(i)) == i
  {
    var w := Encode(i);
    match i
    case MovImm(rd, imm8) =>
      assert (w as bv32 >> 11) & 0x1F == OP_MOV_IMM;
      DecodeMovFields(w);
    case AddSubReg(subOp, rm, rn, rd) =>
      assert (w as bv32 >> 11) & 0x1F == OP_ADD_SUB;
      DecodeAddSubFields(w);
    case Branch(imm11) =>
      assert (w as bv32 >> 11) & 0x1F == OP_BRANCH;
      DecodeBranchField(w);
    case Unknown(_) =>
  }

  /**
   * `0x2005`, the word of the single-step test, is MOV R0, #5; the other three
   * are the words of the demonstration program run in the `Scenario` module.
   */
  lemma KnownEncodings()
    ensures Decode(0x2005) == MovImm(0, 5)
    ensures Decode(0x2103) == MovImm(1, 3)
    ensures Decode(0x1882) == AddSubReg(0, 2, 0, 2)
    ensures Decode(0xE7FE) == Branch(0x7FE) && Signed(SignExtend(0x7FE, 11)) == -2
  {
    SignExtend11(0x7FE);
  }
}
