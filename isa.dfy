/*
 * The Y86-64 instruction set as src/isa.rs declares it: the register, condition,
 * operator and family enumerations with their byte conversions, the decoded
 * instruction type, and the encoder that packs an instruction into bytes;
 * together with the machine words and little-endian byte order that both
 * simulators use.
 *
 * A `u8` is a `Byte` and a `u64` a `Word`: integers in range, with every
 * wrap-around written out. Bit operations on bytes are written arithmetically:
 * `(b & 0xf0) >> 4` is `High(b)`, `b & 0x0f` is `Low(b)`, and `hi << 4 | lo`
 * is `Pack(hi, lo)`.
 */
module Isa {

  /*
   * Bytes and words.
   */

  type Byte = x: int | 0 <= x < 0x100

  /** A `u64`; also a `usize`, 64 bits wide on the targets of both sources. */
  type Word = x: int | 0 <= x < 0x1_0000_0000_0000_0000

  const WordModulus: int := 0x1_0000_0000_0000_0000

  /** The word a wrapping addition or subtraction of two words leaves: the
      sum or difference brought back into range by one turn of 2^64. */
  function Wrap(x: int): Word
    requires -WordModulus < x < 2 * WordModulus
  {
    if x < 0 then x + WordModulus else if x >= WordModulus then x - WordModulus else x
  }

  /** `Wrap` is the residue modulo 2^64. */
  lemma WrapIsResidue(x: int)
    requires -WordModulus < x < 2 * WordModulus
    ensures Wrap(x) == x % WordModulus
  {
  }

  /** Bit 63 is set: the test `w & 1 << 63 != 0`. */
  predicate Negative(w: Word)
  {
    w >= 0x8000_0000_0000_0000
  }

  /** `(b & 0xf0) >> 4`: the high nibble. */
  function High(b: Byte): (n: Byte)
    ensures n < 0x10
  {
    b / 0x10
  }

  /** `b & 0x0f`: the low nibble. */
  function Low(b: Byte): (n: Byte)
    ensures n < 0x10
  {
    b % 0x10
  }

  /** `hi << 4 | lo` for two nibbles. */
  function Pack(hi: Byte, lo: Byte): Byte
    requires hi < 0x10 && lo < 0x10
  {
    hi * 0x10 + lo
  }

  /** Packing two nibbles and splitting the byte again gives them back. */
  lemma PackNibbles(hi: Byte, lo: Byte)
    requires hi < 0x10 && lo < 0x10
    ensures High(Pack(hi, lo)) == hi && Low(Pack(hi, lo)) == lo
  {
  }

  function Pow2(n: nat): (p: nat)
    ensures p >= 1
  {
    if n == 0 then 1 else 2 * Pow2(n - 1)
  }

  lemma {:induction false} Pow2Add(a: nat, b: nat)
    ensures Pow2(a + b) == Pow2(a) * Pow2(b)
  {
    if a > 0 {
      Pow2Add(a - 1, b);
    }
  }

  lemma Pow2Word()
    ensures Pow2(64) == WordModulus
  {
    assert Pow2(4) == 0x10;
    Pow2Add(4, 4);
    assert Pow2(8) == 0x100;
    Pow2Add(8, 8);
    assert Pow2(16) == 0x1_0000;
    Pow2Add(16, 16);
    assert Pow2(32) == 0x1_0000_0000;
    Pow2Add(32, 32);
  }

  /** The low `n` binary digits of `x & y`. */
  function AndBits(x: nat, y: nat, n: nat): (r: nat)
    ensures r <= x
  {
    if n == 0 then 0
    else 2 * AndBits(x / 2, y / 2, n - 1) + (if x % 2 == 1 && y % 2 == 1 then 1 else 0)
  }

  /** The low `n` binary digits of `x ^ y`. */
  function XorBits(x: nat, y: nat, n: nat): (r: nat)
    ensures r < Pow2(n)
  {
    if n == 0 then 0
    else 2 * XorBits(x / 2, y / 2, n - 1) + (if x % 2 != y % 2 then 1 else 0)
  }

  /** `u64::bitand`. */
  function BitAnd(a: Word, b: Word): Word
  {
    AndBits(a, b, 64)
  }

  /** `u64::bitxor`. */
  function BitXor(a: Word, b: Word): Word
  {
    Pow2Word();
    XorBits(a, b, 64)
  }

  /** AND and XOR do not depend on the order of their operands. */
  lemma {:induction false} BitsCommute(x: nat, y: nat, n: nat)
    ensures AndBits(x, y, n) == AndBits(y, x, n)
    ensures XorBits(x, y, n) == XorBits(y, x, n)
  {
    if n > 0 {
      BitsCommute(x / 2, y / 2, n - 1);
    }
  }

  /** A number of `n` binary digits ANDed with itself is itself, and XORed
      with itself is 0. */
  lemma {:induction false} BitsSelf(x: nat, n: nat)
    requires x < Pow2(n)
    ensures AndBits(x, x, n) == x
    ensures XorBits(x, x, n) == 0
  {
    if n > 0 {
      BitsSelf(x / 2, n - 1);
    }
  }

  /** `a & b == b & a`, `a ^ b == b ^ a`, `a & a == a` and `a ^ a == 0`. */
  lemma BitWordLaws(a: Word, b: Word)
    ensures BitAnd(a, b) == BitAnd(b, a) && BitXor(a, b) == BitXor(b, a)
    ensures BitAnd(a, a) == a && BitXor(a, a) == 0
  {
    BitsCommute(a, b, 64);
    Pow2Word();
    BitsSelf(a, 64);
  }

  /*
   * Enumerations and their byte conversions.
   */

  /** The 15 general-purpose registers; the numbering is the ISA's register identifier. */
  datatype Register =
    | RAX | RCX | RDX | RBX | RSP | RBP | RSI | RDI
    | R8 | R9 | R10 | R11 | R12 | R13 | R14

  /** `From<Register> for u8`: the register identifier. 0xf is never produced,
      so the "no register" nibble cannot be confused with a register. */
  function RegisterCode(r: Register): (b: Byte)
    ensures b <= 0x0e
  {
    match r
    case RAX => 0x00
    case RCX => 0x01
    case RDX => 0x02
    case RBX => 0x03
    case RSP => 0x04
    case RBP => 0x05
    case RSI => 0x06
    case RDI => 0x07
    case R8 => 0x08
    case R9 => 0x09
    case R10 => 0x0a
    case R11 => 0x0b
    case R12 => 0x0c
    case R13 => 0x0d
    case R14 => 0x0e
  }

  /** `From<u8> for Register`. The source transmutes the byte, which is undefined
      behaviour for any value above 0x0e (0xf included), hence the precondition. */
  function RegisterOf(b: Byte): (r: Register)
    requires b <= 0x0e
    ensures RegisterCode(r) == b
  {
    match b
    case 0x00 => RAX
    case 0x01 => RCX
    case 0x02 => RDX
    case 0x03 => RBX
    case 0x04 => RSP
    case 0x05 => RBP
    case 0x06 => RSI
    case 0x07 => RDI
    case 0x08 => R8
    case 0x09 => R9
    case 0x0a => R10
    case 0x0b => R11
    case 0x0c => R12
    case 0x0d => R13
    case _ => R14
  }

  lemma RegisterRoundTrip(r: Register)
    ensures RegisterOf(RegisterCode(r)) == r
  {
  }

  /** Condition codes of the CMOV and J families (the opcode's low nibble). */
  datatype Cond = None | Le | L | E | Ne | Ge | G

  function CondCode(c: Cond): (b: Byte)
    ensures b <= 6
  {
    match c
    case None => 0
    case Le => 1
    case L => 2
    case E => 3
    case Ne => 4
    case Ge => 5
    case G => 6
  }

  /** `From<u8> for Cond`: defined on 0..=6; any other value reaches
      `unreachable_unchecked`, so it is excluded by the precondition. */
  function CondOf(b: Byte): (c: Cond)
    requires b <= 6
    ensures CondCode(c) == b
  {
    match b
    case 0 => None
    case 1 => Le
    case 2 => L
    case 3 => E
    case 4 => Ne
    case 5 => Ge
    case _ => G
  }

  lemma CondRoundTrip(c: Cond)
    ensures CondOf(CondCode(c)) == c
  {
  }

  /** ALU operators of the OPQ family (the opcode's low nibble). */
  datatype Op = Add | Sub | And | Xor

  function OpCode(o: Op): (b: Byte)
    ensures b <= 3
  {
    match o
    case Add => 0
    case Sub => 1
    case And => 2
    case Xor => 3
  }

  /** `From<u8> for Op`: defined on 0..=3, `unreachable_unchecked` otherwise. */
  function OpOf(b: Byte): (o: Op)
    requires b <= 3
    ensures OpCode(o) == b
  {
    match b
    case 0 => Add
    case 1 => Sub
    case 2 => And
    case _ => Xor
  }

  lemma OpRoundTrip(o: Op)
    ensures OpOf(OpCode(o)) == o
  {
  }

  /** `Y86BLANK`: the instruction family selected by the opcode's high nibble. */
  datatype Family =
    | HALT | NOOP | CMOV | IRMOVQ | RMMOVQ | MRMOVQ
    | OPQ | J | CALL | RET | PUSHQ | POPQ

  /** The family's opcode byte, with a zero low nibble. */
  function FamilyCode(f: Family): (b: Byte)
    ensures Low(b) == 0 && High(b) <= 0xb
  {
    match f
    case HALT => 0x00
    case NOOP => 0x10
    case CMOV => 0x20
    case IRMOVQ => 0x30
    case RMMOVQ => 0x40
    case MRMOVQ => 0x50
    case OPQ => 0x60
    case J => 0x70
    case CALL => 0x80
    case RET => 0x90
    case PUSHQ => 0xa0
    case POPQ => 0xb0
  }

  /** The family an opcode byte selects: the `match first & 0xf0` of the fetch
      stages. High nibbles 0xc..0xf name no family. */
  function FamilyOf(opcode: Byte): (f: Family)
    requires High(opcode) <= 0xb
    ensures FamilyCode(f) == Pack(High(opcode), 0)
  {
    match High(opcode)
    case 0x0 => HALT
    case 0x1 => NOOP
    case 0x2 => CMOV
    case 0x3 => IRMOVQ
    case 0x4 => RMMOVQ
    case 0x5 => MRMOVQ
    case 0x6 => OPQ
    case 0x7 => J
    case 0x8 => CALL
    case 0x9 => RET
    case 0xa => PUSHQ
    case _ => POPQ
  }

  /** The number of bytes fetch consumes for each family. */
  function FetchedLength(f: Family): nat
  {
    match f
    case HALT => 1
    case NOOP => 1
    case RET => 1
    case CMOV => 2
    case OPQ => 2
    case PUSHQ => 2
    case POPQ => 2
    case J => 9
    case CALL => 9
    case _ => 10
  }

  /** An opcode byte built from a family and any low nibble selects that family. */
  lemma FamilyRoundTrip(f: Family, low: Byte)
    requires low < 0x10
    ensures High(FamilyCode(f) + low) <= 0xb
    ensures FamilyOf(FamilyCode(f) + low) == f
    ensures Low(FamilyCode(f) + low) == low
  {
  }

  /*
   * Decoded instructions and their encoding.
   */

  /** `Y86`: a decoded instruction. The constructors are the source's variants
      in CamelCase (they share their names with `Family` in the source). */
  datatype Instr =
    | Halt
    | Noop
    | Cmov(cond: Cond, rA: Register, rB: Register)
    | Irmovq(rB: Register, imm: Word)
    | Rmmovq(rA: Register, rB: Register, disp: Word)
    | Mrmovq(rA: Register, rB: Register, disp: Word)
    | Opq(op: Op, rA: Register, rB: Register)
    | Jump(cond: Cond, dest: Word)
    | Call(dest: Word)
    | Ret
    | Pushq(rA: Register)
    | Popq(rA: Register)

  /** The `Y86BLANK` tag the encoder writes for each variant. */
  function FamilyOfInstr(x: Instr): Family
  {
    match x
    case Halt => HALT
    case Noop => NOOP
    case Cmov(_, _, _) => CMOV
    case Irmovq(_, _) => IRMOVQ
    case Rmmovq(_, _, _) => RMMOVQ
    case Mrmovq(_, _, _) => MRMOVQ
    case Opq(_, _, _) => OPQ
    case Jump(_, _) => J
    case Call(_) => CALL
    case Ret => RET
    case Pushq(_) => PUSHQ
    case Popq(_) => POPQ
  }

  /** The function code an instruction carries in its opcode's low nibble. */
  function FunctionCode(x: Instr): Byte
  {
    match x
    case Cmov(c, _, _) => CondCode(c)
    case Jump(c, _) => CondCode(c)
    case Opq(o, _, _) => OpCode(o)
    case _ => 0
  }

  /*
   * Little-endian words.
   */

  /** 256 to the power `n`. */
  function Pow256(n: nat): (p: nat)
    ensures p >= 1
  {
    if n == 0 then 1 else 0x100 * Pow256(n - 1)
  }

  lemma {:induction false} Pow256Monotonic(i: nat, j: nat)
    requires i <= j
    ensures Pow256(i) <= Pow256(j)
  {
    if i < j {
      Pow256Monotonic(i, j - 1);
    }
  }

  /** `v >> (8 * i)`. */
  function Shift(v: nat, i: nat): nat
  {
    if i == 0 then v else Shift(v / 0x100, i - 1)
  }

  /** `((v >> (8 * i)) & 0xff) as u8`: byte `i` of a word. */
  function ByteOf(v: Word, i: nat): Byte
    requires i < 8
  {
    Shift(v, i) % 0x100
  }

  /** The number whose bytes, least significant first, are `s`. */
  function LeValue(s: seq<Byte>): (v: nat)
    ensures v < Pow256(|s|)
  {
    if |s| == 0 then 0 else s[0] + 0x100 * LeValue(s[1..])
  }

  /** The low `n` bytes of `v`, least significant first. */
  function LeBytesN(v: nat, n: nat): (s: seq<Byte>)
    ensures |s| == n
  {
    if n == 0 then [] else [v % 0x100] + LeBytesN(v / 0x100, n - 1)
  }

  /** The word whose little-endian bytes are `s`.
      Deviation: every 8-byte load of src/cpu.rs shifts the `u8` by `8 * i`
      BEFORE widening it to `u64`; that shift overflows for i >= 1, which panics
      in a debug build and, in a release build, shifts by `8 * i mod 8 == 0`, so
      the loop sums the bytes (`ByteSum`). The model gives these loads the
      little-endian meaning that the store loops and the encoder use. */
  function ReadLE(s: seq<Byte>): Word
    requires |s| == 8
  {
    Pow256Word();
    LeValue(s)
  }

  /** Storing a loaded word writes back the same bytes. */
  lemma LeBytesRead(s: seq<Byte>)
    requires |s| == 8
    ensures LeBytes(ReadLE(s)) == s
  {
    LeBytesOfValue(s);
  }

  lemma Pow256Word()
    ensures Pow256(8) == WordModulus
  {
  }

  /** The eight bytes of a word, least significant first: the store loops of
      src/cpu.rs and the `transmute` of the encoder on a little-endian host. */
  function LeBytes(v: Word): (s: seq<Byte>)
    ensures |s| == 8
  {
    LeBytesN(v, 8)
  }

  /** `(b as u64) << (8 * i)`: byte `b` in lane `i` of a word. */
  function Lane(b: Byte, i: nat): nat
  {
    b * Pow256(i)
  }

  /** A load loop's step: appending a byte adds its lane. */
  lemma {:induction false} LeValueSnoc(s: seq<Byte>, b: Byte)
    ensures LeValue(s + [b]) == LeValue(s) + Lane(b, |s|)
  {
    if |s| > 0 {
      var t := s[1..];
      assert (s + [b])[1..] == t + [b];
      LeValueSnoc(t, b);
      assert Pow256(|s|) == 0x100 * Pow256(|t|);
      assert Lane(b, |s|) == 0x100 * Lane(b, |t|);
      calc {
        LeValue(s + [b]);
        s[0] + 0x100 * LeValue(t + [b]);
        s[0] + 0x100 * (LeValue(t) + Lane(b, |t|));
        s[0] + 0x100 * LeValue(t) + 0x100 * Lane(b, |t|);
      }
    }
  }

  /** Byte `i` of the low bytes of `v` is `(v >> 8i) & 0xff`. */
  lemma {:induction false} LeBytesAt(v: nat, n: nat, i: nat)
    requires i < n
    ensures LeBytesN(v, n)[i] == Shift(v, i) % 0x100
  {
    if i > 0 {
      LeBytesAt(v / 0x100, n - 1, i - 1);
    }
  }

  /** Reading back the low `n` bytes of a number below 256^n gives the number. */
  lemma {:induction false} LeValueOfBytes(v: nat, n: nat)
    requires v < Pow256(n)
    ensures LeValue(LeBytesN(v, n)) == v
  {
    if n > 0 {
      var s := LeBytesN(v, n);
      assert s[1..] == LeBytesN(v / 0x100, n - 1);
      LeValueOfBytes(v / 0x100, n - 1);
    }
  }

  /** Writing the bytes of a value read from `s` gives `s` back. */
  lemma {:induction false} LeBytesOfValue(s: seq<Byte>)
    ensures LeBytesN(LeValue(s), |s|) == s
  {
    if |s| > 0 {
      var v := LeValue(s);
      assert v % 0x100 == s[0] && v / 0x100 == LeValue(s[1..]);
      LeBytesOfValue(s[1..]);
    }
  }

  /** What the release build of src/cpu.rs loads: the sum of the eight bytes. */
  function ByteSum(s: seq<Byte>): nat
    requires |s| == 8
  {
    s[0] as int + s[1] + s[2] + s[3] + s[4] + s[5] + s[6] + s[7]
  }

  /** Loading the bytes a store wrote returns the stored word. */
  lemma ReadLeBytes(v: Word)
    ensures ReadLE(LeBytes(v)) == v
  {
    Pow256Word();
    LeValueOfBytes(v, 8);
  }


  /** Different words have different bytes. */
  lemma LeBytesInjective(v: Word, w: Word)
    requires LeBytes(v) == LeBytes(w)
    ensures v == w
  {
    ReadLeBytes(v);
    ReadLeBytes(w);
  }

  /** The release-build load is not the little-endian one: the word 256 is
      stored as the bytes 0, 1, 0, ... and summed back as 1. */
  lemma ByteSumLosesLanes()
    ensures LeBytes(0x100) == [0, 1, 0, 0, 0, 0, 0, 0]
    ensures ByteSum(LeBytes(0x100)) == 1 && ReadLE(LeBytes(0x100)) == 0x100
  {
    ReadLeBytes(0x100);
  }

  /** The nibble 0xf that stands for "no register". */
  const NoRegister: Byte := 0x0f

  /** `From<Y86> for Vec<u8>`, with the host taken as little-endian.
      Departure from the instruction set: CMOV is three bytes, rA and rB each in
      a byte of its own, where the instruction set (and the fetch stage of
      src/cpu.rs) packs them into one byte; `EncodePacked` is the corrected
      encoder. */
  function Encode(x: Instr): seq<Byte>
  {
    match x
    case Halt => [FamilyCode(HALT)]
    case Noop => [FamilyCode(NOOP)]
    case Cmov(c, rA, rB) => [FamilyCode(CMOV) + CondCode(c), RegisterCode(rA), RegisterCode(rB)]
    case Irmovq(rB, v) => [FamilyCode(IRMOVQ), Pack(NoRegister, RegisterCode(rB))] + LeBytes(v)
    case Rmmovq(rA, rB, d) =>
      [FamilyCode(RMMOVQ), Pack(RegisterCode(rA), RegisterCode(rB))] + LeBytes(d)
    case Mrmovq(rA, rB, d) =>
      [FamilyCode(MRMOVQ), Pack(RegisterCode(rA), RegisterCode(rB))] + LeBytes(d)
    case Opq(o, rA, rB) => [FamilyCode(OPQ) + OpCode(o), Pack(RegisterCode(rA), RegisterCode(rB))]
    case Jump(c, d) => [FamilyCode(J) + CondCode(c)] + LeBytes(d)
    case Call(d) => [FamilyCode(CALL)] + LeBytes(d)
    case Ret => [FamilyCode(RET)]
    case Pushq(rA) => [FamilyCode(PUSHQ), Pack(RegisterCode(rA), NoRegister)]
    case Popq(rA) => [FamilyCode(POPQ), Pack(RegisterCode(rA), NoRegister)]
  }

  /** The encoding the instruction set defines: as `Encode`, except that CMOV
      is two bytes with rA and rB packed into the second. */
  function EncodePacked(x: Instr): seq<Byte>
  {
    match x
    case Cmov(c, rA, rB) => [FamilyCode(CMOV) + CondCode(c), Pack(RegisterCode(rA), RegisterCode(rB))]
    case _ => Encode(x)
  }

  /** Encoded lengths: one byte for HALT, NOOP and RET; two for OPQ, PUSHQ and
      POPQ; three for CMOV; nine for J and CALL; ten for the three moves with a
      literal. */
  lemma EncodeLength(x: Instr)
    ensures x.Halt? || x.Noop? || x.Ret? <==> |Encode(x)| == 1
    ensures x.Opq? || x.Pushq? || x.Popq? <==> |Encode(x)| == 2
    ensures x.Cmov? <==> |Encode(x)| == 3
    ensures x.Jump? || x.Call? <==> |Encode(x)| == 9
    ensures x.Irmovq? || x.Rmmovq? || x.Mrmovq? <==> |Encode(x)| == 10
  {
  }

  /** The opcode byte: its high nibble is the variant's family and decodes back to
      it; its low nibble is the condition, the operator, or zero. */
  lemma EncodeOpcodeByte(x: Instr)
    ensures |Encode(x)| >= 1 && Encode(x)[0] == EncodePacked(x)[0]
    ensures High(Encode(x)[0]) <= 0xb
    ensures Pack(High(Encode(x)[0]), 0) == FamilyCode(FamilyOfInstr(x))
    ensures Low(Encode(x)[0]) == FunctionCode(x)
    ensures FamilyOf(Encode(x)[0]) == FamilyOfInstr(x)
  {
    assert Encode(x)[0] == FamilyCode(FamilyOfInstr(x)) + FunctionCode(x);
    FamilyRoundTrip(FamilyOfInstr(x), FunctionCode(x));
  }

  /** The register byte: `rA << 4 | rB` for the two-register forms, the "no
      register" nibble 0xf in place of rA for IRMOVQ and of rB for PUSHQ/POPQ;
      CMOV puts rA and rB in bytes of their own. */
  lemma EncodeRegisterByte(x: Instr)
    ensures x.Rmmovq? || x.Mrmovq? || x.Opq? ==>
      |Encode(x)| >= 2 && High(Encode(x)[1]) == RegisterCode(x.rA) && Low(Encode(x)[1]) == RegisterCode(x.rB)
    ensures x.Irmovq? ==>
      |Encode(x)| >= 2 && High(Encode(x)[1]) == NoRegister && Low(Encode(x)[1]) == RegisterCode(x.rB)
    ensures x.Pushq? || x.Popq? ==>
      |Encode(x)| >= 2 && High(Encode(x)[1]) == RegisterCode(x.rA) && Low(Encode(x)[1]) == NoRegister
    ensures x.Cmov? ==>
      |Encode(x)| == 3 && Encode(x)[1] == RegisterCode(x.rA) && Encode(x)[2] == RegisterCode(x.rB)
  {
    match x
    case Rmmovq(rA, rB, _) => PackNibbles(RegisterCode(rA), RegisterCode(rB));
    case Mrmovq(rA, rB, _) => PackNibbles(RegisterCode(rA), RegisterCode(rB));
    case Opq(_, rA, rB) => PackNibbles(RegisterCode(rA), RegisterCode(rB));
    case Irmovq(rB, _) => PackNibbles(NoRegister, RegisterCode(rB));
    case Pushq(rA) => PackNibbles(RegisterCode(rA), NoRegister);
    case Popq(rA) => PackNibbles(RegisterCode(rA), NoRegister);
    case _ =>
  }

  /** The 8-byte literal follows the prefix little-endian (at offset 2 after a
      register byte, at offset 1 for J and CALL) and reads back as the literal. */
  lemma EncodeLiteral(x: Instr)
    ensures x.Irmovq? ==> Encode(x)[2..] == LeBytes(x.imm) && ReadLE(Encode(x)[2..10]) == x.imm
    ensures x.Rmmovq? || x.Mrmovq? ==> Encode(x)[2..] == LeBytes(x.disp) && ReadLE(Encode(x)[2..10]) == x.disp
    ensures x.Jump? || x.Call? ==> Encode(x)[1..] == LeBytes(x.dest) && ReadLE(Encode(x)[1..9]) == x.dest
  {
    if x.Irmovq? || x.Rmmovq? || x.Mrmovq? {
      LiteralAfterRegisters(x);
    } else if x.Jump? || x.Call? {
      var prefix := [Encode(x)[0]];
      assert Encode(x) == prefix + LeBytes(x.dest);
      LiteralAfter(prefix, x.dest);
    }
  }

  lemma LiteralAfterRegisters(x: Instr)
    requires x.Irmovq? || x.Rmmovq? || x.Mrmovq?
    ensures var v := if x.Irmovq? then x.imm else x.disp;
      Encode(x)[2..] == LeBytes(v) && ReadLE(Encode(x)[2..10]) == v
  {
    var v := if x.Irmovq? then x.imm else x.disp;
    var prefix := Encode(x)[..2];
    assert Encode(x) == prefix + LeBytes(v);
    LiteralAfter(prefix, v);
  }

  lemma LiteralAfter(prefix: seq<Byte>, v: Word)
    ensures (prefix + LeBytes(v))[|prefix|..] == LeBytes(v)
    ensures ReadLE((prefix + LeBytes(v))[|prefix| .. |prefix| + 8]) == v
  {
    var s := prefix + LeBytes(v);
    assert s[|prefix|..] == LeBytes(v);
    assert s[|prefix| .. |prefix| + 8] == LeBytes(v);
    ReadLeBytes(v);
  }

  /** Encoding is injective: the bytes determine the variant and all its fields. */
  lemma {:induction false} EncodeInjective(x: Instr, y: Instr)
    requires Encode(x) == Encode(y)
    ensures x == y
  {
    EncodeOpcodeByte(x);
    EncodeOpcodeByte(y);
    assert FamilyOfInstr(x) == FamilyOfInstr(y);
    if x.Cmov? || x.Opq? || x.Pushq? || x.Popq? {
      RegisterFormsInjective(x, y);
    } else if x.Irmovq? || x.Rmmovq? || x.Mrmovq? || x.Jump? || x.Call? {
      LiteralFormsInjective(x, y);
    }
  }

  lemma RegisterFormsInjective(x: Instr, y: Instr)
    requires x.Cmov? || x.Opq? || x.Pushq? || x.Popq?
    requires FamilyOfInstr(x) == FamilyOfInstr(y) && Encode(x) == Encode(y)
    ensures x == y
  {
    match x
    case Cmov(c, rA, rB) =>
      assert y.Cmov?;
      CondCodeInjective(c, y.cond);
      RegisterCodeInjective(rA, y.rA);
      RegisterCodeInjective(rB, y.rB);
    case Opq(o, rA, rB) =>
      assert y.Opq?;
      OpCodeInjective(o, y.op);
      PackInjective(RegisterCode(rA), RegisterCode(rB), RegisterCode(y.rA), RegisterCode(y.rB));
      RegisterCodeInjective(rA, y.rA);
      RegisterCodeInjective(rB, y.rB);
    case Pushq(rA) =>
      assert y.Pushq?;
      PackInjective(RegisterCode(rA), NoRegister, RegisterCode(y.rA), NoRegister);
      RegisterCodeInjective(rA, y.rA);
    case Popq(rA) =>
      assert y.Popq?;
      PackInjective(RegisterCode(rA), NoRegister, RegisterCode(y.rA), NoRegister);
      RegisterCodeInjective(rA, y.rA);
  }

  lemma RegisterCodeInjective(r: Register, s: Register)
    requires RegisterCode(r) == RegisterCode(s)
    ensures r == s
  {
    RegisterRoundTrip(r);
    RegisterRoundTrip(s);
  }

  lemma CondCodeInjective(c: Cond, d: Cond)
    requires FamilyCode(CMOV) + CondCode(c) == FamilyCode(CMOV) + CondCode(d) ||
      FamilyCode(J) + CondCode(c) == FamilyCode(J) + CondCode(d)
    ensures c == d
  {
    CondRoundTrip(c);
    CondRoundTrip(d);
  }

  lemma OpCodeInjective(o: Op, p: Op)
    requires FamilyCode(OPQ) + OpCode(o) == FamilyCode(OPQ) + OpCode(p)
    ensures o == p
  {
    OpRoundTrip(o);
    OpRoundTrip(p);
  }

  lemma PackInjective(a: Byte, b: Byte, c: Byte, d: Byte)
    requires a < 0x10 && b < 0x10 && c < 0x10 && d < 0x10
    requires Pack(a, b) == Pack(c, d)
    ensures a == c && b == d
  {
    PackNibbles(a, b);
    PackNibbles(c, d);
  }

  lemma LiteralFormsInjective(x: Instr, y: Instr)
    requires x.Irmovq? || x.Rmmovq? || x.Mrmovq? || x.Jump? || x.Call?
    requires FamilyOfInstr(x) == FamilyOfInstr(y) && Encode(x) == Encode(y)
    ensures x == y
  {
    EncodeLiteral(x);
    EncodeLiteral(y);
    match x
    case Irmovq(rB, _) =>
      assert y.Irmovq?;
      EncodeRegisterByte(x); EncodeRegisterByte(y);
      RegisterRoundTrip(rB); RegisterRoundTrip(y.rB);
    case Rmmovq(rA, rB, _) =>
      assert y.Rmmovq?;
      EncodeRegisterByte(x); EncodeRegisterByte(y);
      RegisterRoundTrip(rA); RegisterRoundTrip(y.rA);
      RegisterRoundTrip(rB); RegisterRoundTrip(y.rB);
    case Mrmovq(rA, rB, _) =>
      assert y.Mrmovq?;
      EncodeRegisterByte(x); EncodeRegisterByte(y);
      RegisterRoundTrip(rA); RegisterRoundTrip(y.rA);
      RegisterRoundTrip(rB); RegisterRoundTrip(y.rB);
    case Jump(c, _) =>
      assert y.Jump?;
      EncodeOpcodeByte(x); EncodeOpcodeByte(y);
      CondRoundTrip(c); CondRoundTrip(y.cond);
    case Call(_) =>
      assert y.Call?;
  }

  /** The corrected encoding is injective as well. */
  lemma {:induction false} EncodePackedInjective(x: Instr, y: Instr)
    requires EncodePacked(x) == EncodePacked(y)
    ensures x == y
  {
    EncodeOpcodeByte(x);
    EncodeOpcodeByte(y);
    if x.Cmov? || y.Cmov? {
      assert FamilyOfInstr(x) == FamilyOfInstr(y);
      assert x.Cmov? && y.Cmov?;
      PackNibbles(RegisterCode(x.rA), RegisterCode(x.rB));
      PackNibbles(RegisterCode(y.rA), RegisterCode(y.rB));
      CondRoundTrip(x.cond); CondRoundTrip(y.cond);
      RegisterRoundTrip(x.rA); RegisterRoundTrip(y.rA);
      RegisterRoundTrip(x.rB); RegisterRoundTrip(y.rB);
    } else {
      EncodeInjective(x, y);
    }
  }

  /** `Flags`: the condition codes, a record of the same three booleans in
      both simulators. */
  datatype Flags = Flags(sf: bool, zf: bool, of: bool)

  /*
   * Words in a byte memory. Both simulators own a zero-based memory of 0x400
   * bytes and move words between it and their registers eight bytes at a time,
   * least significant byte at the lowest address.
   */

  const MemorySize: int := 0x400

  /** The eight bytes [a, a + 8) lie inside the memory. */
  predicate WordFits(a: int)
  {
    0 <= a && a + 8 <= MemorySize
  }

  /** The word whose little-endian bytes start at address `a`. */
  function Load(mem: seq<Byte>, a: int): Word
    requires |mem| == MemorySize && WordFits(a)
  {
    ReadLE(mem[a .. a + 8])
  }

  /** Writing a loaded word back little-endian gives the bytes it was read
      from. */
  lemma LoadBytes(mem: seq<Byte>, a: int)
    requires |mem| == MemorySize && WordFits(a)
    ensures LeBytes(Load(mem, a)) == mem[a .. a + 8]
  {
    LeBytesRead(mem[a .. a + 8]);
  }

  /** The memory with bytes [a, a + 8) replaced by the bytes of `v`. */
  function Store(mem: seq<Byte>, a: int, v: Word): (r: seq<Byte>)
    requires |mem| == MemorySize && WordFits(a)
    ensures |r| == MemorySize
    ensures r[a .. a + 8] == LeBytes(v)
    ensures forall i :: 0 <= i < MemorySize && !(a <= i < a + 8) ==> r[i] == mem[i]
  {
    mem[..a] + LeBytes(v) + mem[a + 8..]
  }

  /** A load from the address of a store returns the stored word. */
  lemma LoadOfStore(mem: seq<Byte>, a: int, v: Word)
    requires |mem| == MemorySize && WordFits(a)
    ensures Load(Store(mem, a, v), a) == v
  {
    ReadLeBytes(v);
  }

  /** A load that does not overlap a store sees the memory before it. */
  lemma LoadPastStore(mem: seq<Byte>, a: int, v: Word, b: int)
    requires |mem| == MemorySize && WordFits(a) && WordFits(b)
    requires b + 8 <= a || a + 8 <= b
    ensures Load(Store(mem, a, v), b) == Load(mem, b)
  {
    var r := Store(mem, a, v);
    assert r[b .. b + 8] == mem[b .. b + 8];
  }
}
