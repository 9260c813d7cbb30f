/*
 * Reference semantics of the Y86-64 arithmetic and condition codes, as section
 * 4.1 of Bryant and O'Hallaron, "Computer Systems: A Programmer's Perspective"
 * (3rd ed.) defines them. Both simulators deviate from these definitions; the
 * deviations are stated, member by member, next to the as-written models in
 * rust_cpu.dfy and c_cpu.dfy, and these definitions are the corrected
 * behaviour proved against the meaning of the flags.
 */
module Reference {
  import opened Isa

  const Two63: int := 0x8000_0000_0000_0000

  /** The two's-complement value of a word. */
  function Signed(x: Word): (v: int)
    ensures -Two63 <= v < Two63
    ensures v < 0 <==> Negative(x)
  {
    if Negative(x) then x - WordModulus else x
  }

  /** `OPq rA, rB` computes `rB op rA`; for `subq` the result is rB - rA. */
  function Alu(o: Op, valA: Word, valB: Word): Word
  {
    match o
    case Add => Wrap(valB + valA)
    case Sub => Wrap(valB - valA)
    case And => BitAnd(valB, valA)
    case Xor => BitXor(valB, valA)
  }

  /** Condition codes as the ISA defines them. */
  datatype Codes = Codes(zf: bool, sf: bool, of: bool)

  /** OF is set when the signed result does not fit in 64 bits: operands of one
      sign and a result of the other (for subtraction, the subtrahend's sign is
      flipped). Logical operations clear OF. */
  predicate Overflows(o: Op, valA: Word, valB: Word)
  {
    var e := Alu(o, valA, valB);
    match o
    case Add => Negative(valA) == Negative(valB) && Negative(e) != Negative(valB)
    case Sub => Negative(valA) != Negative(valB) && Negative(e) != Negative(valB)
    case _ => false
  }

  /** The condition codes an `OPq` leaves behind; they depend only on this
      operation, never on the codes before it. */
  function CodesOf(o: Op, valA: Word, valB: Word): (cc: Codes)
    ensures cc.zf <==> Alu(o, valA, valB) == 0
    ensures cc.sf <==> Negative(Alu(o, valA, valB))
  {
    var e := Alu(o, valA, valB);
    Codes(e == 0, Negative(e), Overflows(o, valA, valB))
  }

  /** The jump and conditional-move conditions, with "less" as SF xor OF. */
  predicate Holds(c: Cond, cc: Codes)
  {
    match c
    case None => true
    case Le => (cc.sf != cc.of) || cc.zf
    case L => cc.sf != cc.of
    case E => cc.zf
    case Ne => !cc.zf
    case Ge => cc.sf == cc.of
    case G => cc.sf == cc.of && !cc.zf
  }

  /** The comparison each condition names, between two signed values. */
  predicate Compares(c: Cond, x: int, y: int)
  {
    match c
    case None => true
    case Le => x <= y
    case L => x < y
    case E => x == y
    case Ne => x != y
    case Ge => x >= y
    case G => x > y
  }

  /** OF after `addq` is exactly signed overflow: it is set when the exact sum
      of the operands' signed values differs from the signed value of the
      64-bit result. */
  lemma AddOverflowIsExact(valA: Word, valB: Word)
    ensures Overflows(Add, valA, valB) <==> Signed(valB) + Signed(valA) != Signed(Alu(Add, valA, valB))
  {
  }

  /** OF after `subq` is exactly signed overflow of rB - rA. */
  lemma SubOverflowIsExact(valA: Word, valB: Word)
    ensures Overflows(Sub, valA, valB) <==> Signed(valB) - Signed(valA) != Signed(Alu(Sub, valA, valB))
  {
  }

  /** After `subq rA, rB` every condition holds exactly when its comparison of
      rB with rA, as signed values, holds: "less" is SF xor OF. */
  lemma ConditionsCompare(c: Cond, valA: Word, valB: Word)
    ensures Holds(c, CodesOf(Sub, valA, valB)) <==> Compares(c, Signed(valB), Signed(valA))
  {
  }
}
