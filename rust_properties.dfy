/*
 * Properties of the sequential core of src/cpu.rs, stated on the stage
 * functions of rust_cpu.dfy: what fetch decodes, what one step (the six stages
 * in the order of src/lib.rs) does for each instruction family, and how
 * consecutive steps combine. Members whose names end in `AsWritten` exhibit,
 * on a concrete input, where the code departs from the Y86-64 instruction set.
 */
module RustProperties {
  import opened Isa
  import opened RustCpu
  import Reference

  /*
   * Fetch.
   */

  /** Fetch sets `valP` to the address after the instruction, except in the
      OPQ arm, which leaves the previous `valP` in place. */
  lemma FetchAdvances(m: Machine)
    requires FetchOk(m)
    ensures var f := FetchStage(m);
      (f.curr != OPQ ==> f.valP == m.pc + FetchedLength(f.curr)) &&
      (f.curr == OPQ ==> f.valP == m.valP)
  {
    match FamilyOf(m.memory[m.pc])
    case CMOV => assert FetchStage(m) == CmovArm(m);
    case IRMOVQ => assert FetchStage(m) == IrmovqArm(m);
    case RMMOVQ => assert FetchStage(m) == MoveArm(m, RMMOVQ);
    case MRMOVQ => assert FetchStage(m) == MoveArm(m, MRMOVQ);
    case OPQ => assert FetchStage(m) == OpqArm(m);
    case J => assert FetchStage(m) == JumpArm(m);
    case CALL => assert FetchStage(m) == CallArm(m);
    case PUSHQ => assert FetchStage(m) == StackArm(m, PUSHQ);
    case POPQ => assert FetchStage(m) == StackArm(m, POPQ);
    case _ =>
  }

  /** The instruction-set encoding of every instruction is as long as fetch
      takes it to be. */
  lemma PackedLengthIsFetched(x: Instr)
    ensures |EncodePacked(x)| == FetchedLength(FamilyOfInstr(x))
  {
    EncodeLength(x);
  }

  /** The fields fetch leaves behind describe instruction `x`. */
  predicate Decoded(f: Machine, x: Instr)
  {
    f.curr == FamilyOfInstr(x) &&
    match x
    case Cmov(c, rA, rB) => f.condition == c && f.rA == rA && f.rB == rB
    case Irmovq(rB, v) => f.rB == rB && f.valC == v
    case Rmmovq(rA, rB, d) => f.rA == rA && f.rB == rB && f.valC == d
    case Mrmovq(rA, rB, d) => f.rA == rA && f.rB == rB && f.valC == d
    case Opq(o, rA, rB) => f.op == o && f.rA == rA && f.rB == rB
    case Jump(c, d) => f.condition == c && f.valC == d
    case Call(d) => f.valC == d
    case Pushq(rA) => f.rA == rA
    case Popq(rA) => f.rA == rA
    case _ => true
  }

  /** The bytes of `x` in the instruction-set encoding lie at pc. */
  predicate HoldsAt(m: Machine, x: Instr)
  {
    Fits(m, |EncodePacked(x)|) && m.memory[m.pc .. m.pc + |EncodePacked(x)|] == EncodePacked(x)
  }

  /** Fetch decodes what the instruction-set encoder writes: given the encoding
      of `x` at pc, fetch is defined, recovers every field of `x`, and sets
      `valP` past the instruction (OPQ excepted, see `FetchAdvances`). */
  lemma FetchDecodesEncoding(m: Machine, x: Instr)
    requires HoldsAt(m, x)
    ensures FetchOk(m) && Decoded(FetchStage(m), x)
    ensures !x.Opq? ==> FetchStage(m).valP == m.pc + |EncodePacked(x)|
  {
    var s := EncodePacked(x);
    EncodeOpcodeByte(x);
    assert m.memory[m.pc] == s[0];
    PackedLengthIsFetched(x);
    if x.Cmov? {
      FetchDecodesCmov(m, x);
    } else if x.Irmovq? || x.Rmmovq? || x.Mrmovq? {
      FetchDecodesMove(m, x);
    } else if x.Opq? || x.Pushq? || x.Popq? {
      FetchDecodesRegisters(m, x);
    } else if x.Jump? || x.Call? {
      FetchDecodesTarget(m, x);
    }
    FetchAdvances(m);
  }

  lemma FetchDecodesCmov(m: Machine, x: Instr)
    requires x.Cmov? && HoldsAt(m, x)
    ensures FetchOk(m) && Decoded(FetchStage(m), x)
  {
    var s := EncodePacked(x);
    EncodeOpcodeByte(x);
    assert m.memory[m.pc] == s[0] && m.memory[m.pc + 1] == s[1];
    PackNibbles(RegisterCode(x.rA), RegisterCode(x.rB));
    RegisterRoundTrip(x.rA);
    RegisterRoundTrip(x.rB);
    CondRoundTrip(x.cond);
    assert FetchStage(m) == CmovArm(m);
  }

  lemma FetchDecodesRegisters(m: Machine, x: Instr)
    requires (x.Opq? || x.Pushq? || x.Popq?) && HoldsAt(m, x)
    ensures FetchOk(m) && Decoded(FetchStage(m), x)
  {
    var s := EncodePacked(x);
    EncodeOpcodeByte(x);
    EncodeRegisterByte(x);
    assert m.memory[m.pc] == s[0] && m.memory[m.pc + 1] == s[1];
    RegisterRoundTrip(x.rA);
    if x.Opq? {
      RegisterRoundTrip(x.rB);
      OpRoundTrip(x.op);
      assert FetchStage(m) == OpqArm(m);
    } else if x.Pushq? {
      assert FetchStage(m) == StackArm(m, PUSHQ);
    } else {
      assert FetchStage(m) == StackArm(m, POPQ);
    }
  }

  lemma FetchDecodesMove(m: Machine, x: Instr)
    requires (x.Irmovq? || x.Rmmovq? || x.Mrmovq?) && HoldsAt(m, x)
    ensures FetchOk(m) && Decoded(FetchStage(m), x)
  {
    var s := EncodePacked(x);
    EncodeOpcodeByte(x);
    EncodeRegisterByte(x);
    EncodeLiteral(x);
    assert m.memory[m.pc] == s[0] && m.memory[m.pc + 1] == s[1];
    assert m.memory[m.pc + 2 .. m.pc + 10] == s[2..10];
    RegisterRoundTrip(x.rB);
    if x.Irmovq? {
      assert FetchStage(m) == IrmovqArm(m);
    } else if x.Rmmovq? {
      RegisterRoundTrip(x.rA);
      assert FetchStage(m) == MoveArm(m, RMMOVQ);
    } else {
      RegisterRoundTrip(x.rA);
      assert FetchStage(m) == MoveArm(m, MRMOVQ);
    }
  }

  lemma FetchDecodesTarget(m: Machine, x: Instr)
    requires (x.Jump? || x.Call?) && HoldsAt(m, x)
    ensures FetchOk(m) && Decoded(FetchStage(m), x)
  {
    var s := EncodePacked(x);
    EncodeOpcodeByte(x);
    EncodeLiteral(x);
    assert m.memory[m.pc] == s[0];
    assert m.memory[m.pc + 1 .. m.pc + 9] == s[1..9];
    if x.Jump? {
      CondRoundTrip(x.cond);
      assert FetchStage(m) == JumpArm(m);
    } else {
      assert FetchStage(m) == CallArm(m);
    }
  }

  /** The encoder's three-byte CMOV is not what fetch reads: `cmovq %rax, %rbx`
      encodes as 20 00 03, which fetch takes as a move from RAX to RAX followed,
      at pc + 2, by the byte 03 (a HALT). */
  lemma CmovEncodingAsWritten(m: Machine)
    requires Fits(m, 3) && m.memory[m.pc .. m.pc + 3] == Encode(Cmov(None, RAX, RBX))
    ensures Encode(Cmov(None, RAX, RBX)) == [0x20, 0x00, 0x03]
    ensures FetchOk(m)
    ensures FetchStage(m).rA == RAX && FetchStage(m).rB == RAX
    ensures FetchStage(m).valP == m.pc + 2 && m.memory[m.pc + 2] == 0x03
  {
    assert m.memory[m.pc] == 0x20 && m.memory[m.pc + 1] == 0x00 && m.memory[m.pc + 2] == 0x03;
    assert FetchStage(m) == CmovArm(m);
  }

  /*
   * One step per instruction family. `f` is the machine after fetch; the
   * registers the step reads are those of `m`.
   */

  /** HALT clears `stat` and resets the program counter to 0; nothing else
      changes apart from the fetch fields. */
  lemma HaltStep(m: Machine)
    requires StepOk(m) && FetchStage(m).curr == HALT
    ensures Next(m) == m.(valP := m.pc + 1, curr := HALT, stat := false, pc := 0)
  {
  }

  /** NOOP changes nothing but the program counter, which moves to the next
      byte. */
  lemma NoopStep(m: Machine)
    requires StepOk(m) && FetchStage(m).curr == NOOP
    ensures Next(m) == m.(valP := m.pc + 1, curr := NOOP, pc := m.pc + 1)
  {
  }

  /** CMOV copies rA to rB when `cnd` holds, and `cnd` is whatever the last J
      left there: execute never evaluates the CMOV condition. Flags and memory
      are unchanged and the program counter moves past the two bytes fetch
      reads. */
  lemma CmovStep(m: Machine)
    requires StepOk(m) && FetchStage(m).curr == CMOV
    ensures var f := FetchStage(m);
      Next(m).registers == (if m.cnd then m.registers.Set(f.rB, m.registers.Get(f.rA)) else m.registers) &&
      Next(m).cnd == m.cnd && Next(m).flags == m.flags && Next(m).memory == m.memory &&
      Next(m).pc == m.pc + 2
  {
    assert FetchStage(m) == CmovArm(m);
  }

  /** IRMOVQ writes the literal to rB. */
  lemma IrmovqStep(m: Machine)
    requires StepOk(m) && FetchStage(m).curr == IRMOVQ
    ensures var f := FetchStage(m);
      Next(m).registers == m.registers.Set(f.rB, Load(m.memory, m.pc + 2)) &&
      Next(m).flags == m.flags && Next(m).memory == m.memory && Next(m).pc == m.pc + 10
  {
    assert FetchStage(m) == IrmovqArm(m);
  }

  /** RMMOVQ stores rA at rB + displacement and changes no register. */
  lemma RmmovqStep(m: Machine)
    requires StepOk(m) && FetchStage(m).curr == RMMOVQ
    ensures var f := FetchStage(m);
      var a := m.registers.Get(f.rB) + f.valC;
      WordFits(a) &&
      Next(m).memory == Store(m.memory, a, m.registers.Get(f.rA)) &&
      Next(m).registers == m.registers && Next(m).flags == m.flags && Next(m).pc == m.pc + 10
  {
    assert FetchStage(m) == MoveArm(m, RMMOVQ);
  }

  /** MRMOVQ loads the word at rB + displacement into rA. */
  lemma MrmovqStep(m: Machine)
    requires StepOk(m) && FetchStage(m).curr == MRMOVQ
    ensures var f := FetchStage(m);
      var a := m.registers.Get(f.rB) + f.valC;
      WordFits(a) &&
      Next(m).registers == m.registers.Set(f.rA, Load(m.memory, a)) &&
      Next(m).memory == m.memory && Next(m).flags == m.flags && Next(m).pc == m.pc + 10
  {
    assert FetchStage(m) == MoveArm(m, MRMOVQ);
  }

  /** OPQ writes `Alu(op, rA, rB)` to rB and updates the flags; the program
      counter takes the `valP` left by an earlier instruction, because the OPQ
      arm of fetch does not assign it. */
  lemma OpqStep(m: Machine)
    requires StepOk(m) && FetchStage(m).curr == OPQ
    ensures var f := FetchStage(m);
      var a := m.registers.Get(f.rA);
      var e := Alu(f.op, a, m.registers.Get(f.rB));
      Next(m).registers == m.registers.Set(f.rB, e) &&
      Next(m).flags == OpqFlags(f.op, a, e, m.flags) &&
      Next(m).memory == m.memory && Next(m).pc == m.valP
  {
    assert FetchStage(m) == OpqArm(m);
  }

  /** J takes the jump exactly when the condition table holds on the current
      flags, and records the outcome in `cnd`; registers, flags and memory are
      unchanged. */
  lemma JumpStep(m: Machine)
    requires StepOk(m) && FetchStage(m).curr == J
    ensures var f := FetchStage(m);
      Next(m).cnd == CondHolds(f.condition, m.flags) &&
      Next(m).pc == (if CondHolds(f.condition, m.flags) then Load(m.memory, m.pc + 1) else m.pc + 9) &&
      Next(m).registers == m.registers && Next(m).flags == m.flags && Next(m).memory == m.memory
  {
    assert FetchStage(m) == JumpArm(m);
  }

  /** CALL pushes the return address pc + 9 and jumps to the literal. */
  lemma CallStep(m: Machine)
    requires StepOk(m) && FetchStage(m).curr == CALL
    ensures var rsp := m.registers.Get(RSP);
      rsp >= 8 && WordFits(rsp - 8) &&
      Next(m).registers == m.registers.Set(RSP, rsp - 8) &&
      Next(m).memory == Store(m.memory, rsp - 8, m.pc + 9) &&
      Next(m).pc == Load(m.memory, m.pc + 1) && Next(m).flags == m.flags
  {
    assert FetchStage(m) == CallArm(m);
  }

  /** RET pops the return address into the program counter. */
  lemma RetStep(m: Machine)
    requires StepOk(m) && FetchStage(m).curr == RET
    ensures var rsp := m.registers.Get(RSP);
      WordFits(rsp) &&
      Next(m).registers == m.registers.Set(RSP, rsp + 8) &&
      Next(m).pc == Load(m.memory, rsp) &&
      Next(m).memory == m.memory && Next(m).flags == m.flags
  {
  }

  /** PUSHQ stores rA (as it was before the step) in the eight bytes below
      RSP and lowers RSP by 8. */
  lemma PushqStep(m: Machine)
    requires StepOk(m) && FetchStage(m).curr == PUSHQ
    ensures var f := FetchStage(m);
      var rsp := m.registers.Get(RSP);
      rsp >= 8 && WordFits(rsp - 8) &&
      Next(m).registers == m.registers.Set(RSP, rsp - 8) &&
      Next(m).memory == Store(m.memory, rsp - 8, m.registers.Get(f.rA)) &&
      Next(m).flags == m.flags && Next(m).pc == m.pc + 2
  {
    assert FetchStage(m) == StackArm(m, PUSHQ);
  }

  /** POPQ loads the word at RSP, raises RSP by 8 and then writes the word to
      rA, so `popq %rsp` leaves the loaded word in RSP. */
  lemma PopqStep(m: Machine)
    requires StepOk(m) && FetchStage(m).curr == POPQ
    ensures var f := FetchStage(m);
      var rsp := m.registers.Get(RSP);
      WordFits(rsp) &&
      Next(m).registers == m.registers.Set(RSP, rsp + 8).Set(f.rA, Load(m.memory, rsp)) &&
      Next(m).registers.Get(f.rA) == Load(m.memory, rsp) &&
      (f.rA != RSP ==> Next(m).registers.Get(RSP) == rsp + 8) &&
      Next(m).memory == m.memory && Next(m).flags == m.flags && Next(m).pc == m.pc + 2
  {
    assert FetchStage(m) == StackArm(m, POPQ);
  }

  /*
   * What every step leaves alone.
   */

  /** Only OPQ changes the flags. */
  lemma FlagsOnlyByOpq(m: Machine)
    requires StepOk(m) && FetchStage(m).curr != OPQ
    ensures Next(m).flags == m.flags
  {
  }

  /** Only RMMOVQ, CALL and PUSHQ write memory, and they write exactly the
      eight bytes at the effective address. */
  lemma MemoryFrame(m: Machine)
    requires StepOk(m)
    ensures var f := FetchStage(m);
      f.curr !in {RMMOVQ, CALL, PUSHQ} ==> Next(m).memory == m.memory
    ensures var f := FetchStage(m);
      f.curr in {RMMOVQ, CALL, PUSHQ} ==>
        var a := if f.curr == RMMOVQ then m.registers.Get(f.rB) + f.valC else m.registers.Get(RSP) - 8;
        WordFits(a) && |Next(m).memory| == MemorySize &&
        forall i :: 0 <= i < MemorySize && !(a <= i < a + 8) ==> Next(m).memory[i] == m.memory[i]
  {
    var f := FetchStage(m);
    if f.curr == RMMOVQ {
      RmmovqStep(m);
    } else if f.curr == CALL {
      CallStep(m);
    } else if f.curr == PUSHQ {
      PushqStep(m);
    }
  }

  /*
   * Consecutive steps.
   */

  /** A PUSHQ followed by a POPQ restores RSP and copies the pushed register
      into the popped one. */
  lemma PushThenPop(m: Machine)
    requires StepOk(m) && FetchStage(m).curr == PUSHQ
    requires StepOk(Next(m)) && FetchStage(Next(m)).curr == POPQ
    ensures var pushed := m.registers.Get(FetchStage(m).rA);
      var popped := FetchStage(Next(m)).rA;
      Next(Next(m)).registers.Get(popped) == pushed &&
      (popped != RSP ==> Next(Next(m)).registers.Get(RSP) == m.registers.Get(RSP)) &&
      Next(Next(m)).memory == Next(m).memory
  {
    var rsp := m.registers.Get(RSP);
    var pushed := m.registers.Get(FetchStage(m).rA);
    PushqStep(m);
    PopqStep(Next(m));
    LoadOfStore(m.memory, rsp - 8, pushed);
  }

  /** A RET that finds the stack as the CALL left it (same RSP, same word at
      RSP) returns to the instruction after the CALL and restores RSP. */
  lemma CallThenRet(m: Machine, r: Machine)
    requires StepOk(m) && FetchStage(m).curr == CALL
    requires StepOk(r) && FetchStage(r).curr == RET
    requires r.registers.Get(RSP) == Next(m).registers.Get(RSP)
    requires |r.memory| == MemorySize && WordFits(r.registers.Get(RSP))
    requires Load(r.memory, r.registers.Get(RSP)) == Load(Next(m).memory, r.registers.Get(RSP))
    ensures Next(r).pc == m.pc + 9
    ensures Next(r).registers.Get(RSP) == m.registers.Get(RSP)
  {
    var rsp := m.registers.Get(RSP);
    CallStep(m);
    RetStep(r);
    LoadOfStore(m.memory, rsp - 8, m.pc + 9);
  }

  /** An MRMOVQ from the address an RMMOVQ just wrote loads the stored
      register. */
  lemma StoreThenLoad(m: Machine)
    requires StepOk(m) && FetchStage(m).curr == RMMOVQ
    requires StepOk(Next(m)) && FetchStage(Next(m)).curr == MRMOVQ
    requires var f := FetchStage(m); var g := FetchStage(Next(m));
      Next(m).registers.Get(g.rB) + g.valC == m.registers.Get(f.rB) + f.valC
    ensures Next(Next(m)).registers.Get(FetchStage(Next(m)).rA) == m.registers.Get(FetchStage(m).rA)
  {
    var f := FetchStage(m);
    RmmovqStep(m);
    MrmovqStep(Next(m));
    LoadOfStore(m.memory, m.registers.Get(f.rB) + f.valC, m.registers.Get(f.rA));
  }

  /*
   * The operation and condition tables against the instruction set's.
   */

  /** The flags read as the condition codes of module Reference. */
  function Codes(f: Flags): Reference.Codes
  {
    Reference.Codes(f.zf, f.sf, f.of)
  }

  /** The operation table agrees with the instruction set for ADD, AND and
      XOR; for SUB it computes the instruction set's result with the operands
      exchanged. */
  lemma AluAgainstReference(o: Op, a: Word, b: Word)
    ensures o != Sub ==> Alu(o, a, b) == Reference.Alu(o, a, b)
    ensures Alu(Sub, a, b) == Reference.Alu(Sub, b, a)
  {
    BitWordLaws(a, b);
  }

  /** The condition table agrees with the instruction set's for the
      unconditional, E and NE conditions; with OF clear it agrees for LE and G,
      and for GE unless SF and ZF are both set; and with OF clear its L differs
      from the instruction set's exactly when SF is set and ZF clear. */
  lemma CondHoldsAgainstReference(c: Cond, f: Flags)
    ensures c == None || c == E || c == Ne ==> (CondHolds(c, f) <==> Reference.Holds(c, Codes(f)))
    ensures !f.of && (c == Le || c == G) ==> (CondHolds(c, f) <==> Reference.Holds(c, Codes(f)))
    ensures !f.of && !(f.sf && f.zf) ==> (CondHolds(Ge, f) <==> Reference.Holds(Ge, Codes(f)))
    ensures !f.of ==> (CondHolds(L, f) != Reference.Holds(L, Codes(f)) <==> f.sf && !f.zf)
  {
  }

  /*
   * CMOV as the instruction set defines it: the move is conditional on the
   * CMOV's own condition, evaluated on the current flags.
   */

  /** Execute with the CMOV arm evaluating the condition fetch decoded; every
      other arm is that of execute. */
  function CorrectedExecute(m: Machine): (m': Machine)
    requires ExecuteOk(m)
    ensures m'.curr == m.curr && m'.memory == m.memory
    ensures m.curr != CMOV ==> m' == ExecuteStage(m)
  {
    if m.curr == CMOV then m.(valE := m.valA, cnd := Reference.Holds(m.condition, Codes(m.flags)))
    else ExecuteStage(m)
  }

  /** One step with the corrected execute stage. */
  function CorrectedNext(m: Machine): Machine
    requires StepOk(m)
  {
    PcStage(WritebackStage(MemoryStage(CorrectedExecute(DecodeStage(FetchStage(m))))))
  }

  /** The corrected CMOV copies rA to rB exactly when its own condition holds
      on the current flags; flags and memory are unchanged and the program
      counter moves past the two bytes. */
  lemma CorrectedCmovStep(m: Machine)
    requires StepOk(m) && FetchStage(m).curr == CMOV
    ensures var f := FetchStage(m);
      var moves := Reference.Holds(f.condition, Codes(m.flags));
      CorrectedNext(m).registers == (if moves then m.registers.Set(f.rB, m.registers.Get(f.rA)) else m.registers) &&
      CorrectedNext(m).flags == m.flags && CorrectedNext(m).memory == m.memory &&
      CorrectedNext(m).pc == m.pc + 2
  {
    assert FetchStage(m) == CmovArm(m);
  }

  /** The correction changes nothing but CMOV. */
  lemma CorrectedAgreesElsewhere(m: Machine)
    requires StepOk(m) && FetchStage(m).curr != CMOV
    ensures CorrectedNext(m) == Next(m)
  {
  }

  /*
   * Departures from the instruction set, each on one input. The instruction
   * set's definitions are those of module Reference.
   */

  /** After a subtraction with a negative result and no overflow (SF set, ZF
      and OF clear) the instruction set's L holds; the table of the J arm
      says it does not. */
  lemma LessAsWritten()
    ensures Reference.CodesOf(Sub, 2, 1) == Reference.Codes(false, true, false)
    ensures Reference.Holds(L, Reference.CodesOf(Sub, 2, 1))
    ensures !CondHolds(L, Flags(true, false, false))
  {
  }

  /** `jmp` followed by `cmovle` with SF, ZF and OF clear: the jump leaves
      `cnd` set, so the CMOV writes rB although LE does not hold, where the
      corrected CMOV leaves the registers alone. */
  lemma JumpThenCmovAsWritten(m: Machine)
    requires StepOk(m) && FetchStage(m).curr == J && FetchStage(m).condition == None
    requires m.flags == Flags(false, false, false)
    requires StepOk(Next(m)) && FetchStage(Next(m)).curr == CMOV && FetchStage(Next(m)).condition == Le
    ensures var n := Next(m);
      var f := FetchStage(n);
      !Reference.Holds(Le, Codes(n.flags)) &&
      Next(n).registers == n.registers.Set(f.rB, n.registers.Get(f.rA)) &&
      CorrectedNext(n).registers == n.registers
  {
    JumpStep(m);
    CmovStep(Next(m));
    CorrectedCmovStep(Next(m));
  }

  /** Adding 1 to the largest positive word overflows into the sign bit, and
      the OF rule of execute misses it. */
  lemma AddOverflowAsWritten()
    ensures Alu(Add, 0x7fff_ffff_ffff_ffff, 1) == 0x8000_0000_0000_0000
    ensures !OpqFlags(Add, 0x7fff_ffff_ffff_ffff, 0x8000_0000_0000_0000, Flags(false, false, false)).of
    ensures Reference.Overflows(Add, 1, 0x7fff_ffff_ffff_ffff)
  {
  }

  /** 0 - 1 does not overflow, and the OF rule of execute reports that it
      does. */
  lemma SubOverflowAsWritten()
    ensures Alu(Sub, 0, 1) == 0xffff_ffff_ffff_ffff
    ensures OpqFlags(Sub, 0, 0xffff_ffff_ffff_ffff, Flags(false, false, false)).of
    ensures !Reference.Overflows(Sub, 1, 0)
  {
  }

  /** A non-zero result leaves ZF set when an earlier result was zero. */
  lemma ZeroFlagAsWritten()
    ensures Alu(Add, 1, 1) == 2
    ensures OpqFlags(Add, 1, 2, Flags(false, true, false)).zf
    ensures !Reference.CodesOf(Add, 1, 1).zf
  {
  }

  /** `subq rA, rB` with rA = 1 and rB = 3 leaves 2 in rB in the instruction
      set; the operation table computes rA - rB, which wraps. */
  lemma SubtractionOrderAsWritten()
    ensures Alu(Sub, 1, 3) == WordModulus - 2
    ensures Reference.Alu(Sub, 1, 3) == 2
  {
  }
}
