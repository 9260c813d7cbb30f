/*
 * Properties of the C port, cy86/cpu.c, stated on the stage functions of
 * c_cpu.dfy: what fetch leaves in the struct, what one step does for each
 * instruction family, how consecutive steps combine, and where the port
 * agrees with and departs from the Rust core of rust_cpu.dfy.
 *
 * Because fetch stores rB as the unshifted `regs & 0xf0`, rB names a register
 * slot only when the register byte's high nibble is 0, and then rA is slot 0
 * as well; the step lemmas below therefore speak of RAX wherever an
 * instruction reads or writes rB.
 */
module CProperties {
  import opened Isa
  import opened CCpu
  import RustCpu
  import Reference

  /*
   * Fetch.
   */

  /** Fetch sets `curr` and `valP` for each of the twelve opcode families,
      OPQ included, and an opcode whose high nibble is above 0xb leaves the
      whole struct unchanged. */
  lemma FetchAdvances(m: CMachine)
    requires FetchOk(m)
    ensures High(m.memory[m.pc]) <= 0xb ==>
      var f := FetchStage(m);
      f.curr == FamilyOf(m.memory[m.pc]) && f.valP == m.pc + FetchedLength(f.curr)
    ensures High(m.memory[m.pc]) > 0xb ==> FetchStage(m) == m
  {
    match High(m.memory[m.pc])
    case 0x2 => assert FetchStage(m) == CmovArm(m);
    case 0x3 => assert FetchStage(m) == IrmovqArm(m);
    case 0x4 => assert FetchStage(m) == MoveArm(m, RMMOVQ);
    case 0x5 => assert FetchStage(m) == MoveArm(m, MRMOVQ);
    case 0x6 => assert FetchStage(m) == OpqArm(m);
    case 0x7 => assert FetchStage(m) == JumpArm(m);
    case 0x8 => assert FetchStage(m) == CallArm(m);
    case 0xa => assert FetchStage(m) == StackArm(m, PUSHQ);
    case 0xb => assert FetchStage(m) == StackArm(m, POPQ);
    case _ =>
  }

  /** The families whose fetch arm reads a register byte and stores rB. */
  predicate ReadsRegisters(n: Byte)
  {
    n == 0x2 || n == 0x3 || n == 0x4 || n == 0x5 || n == 0x6 || n == 0xa || n == 0xb
  }

  /** Fetch stores rB as the high nibble of the register byte left in place,
      so rB is one of the fifteen register slots exactly when that nibble is
      0, and it is then slot 0 (RAX), as is rA where the arm sets it. */
  lemma FetchSplitsRegisters(m: CMachine)
    requires FetchOk(m) && ReadsRegisters(High(m.memory[m.pc]))
    ensures var f := FetchStage(m);
      var regs := m.memory[m.pc + 1];
      f.rB == UpperBits(regs) &&
      (f.rB < RegisterCount <==> High(regs) == 0) &&
      (f.rB < RegisterCount ==> f.rB == RegisterCode(RAX)) &&
      (High(m.memory[m.pc]) != 0x3 ==> f.rA == High(regs))
  {
    match High(m.memory[m.pc])
    case 0x2 => assert FetchStage(m) == CmovArm(m);
    case 0x3 => assert FetchStage(m) == IrmovqArm(m);
    case 0x4 => assert FetchStage(m) == MoveArm(m, RMMOVQ);
    case 0x5 => assert FetchStage(m) == MoveArm(m, MRMOVQ);
    case 0x6 => assert FetchStage(m) == OpqArm(m);
    case 0xa => assert FetchStage(m) == StackArm(m, PUSHQ);
    case 0xb => assert FetchStage(m) == StackArm(m, POPQ);
  }

  /** The RMMOVQ and MRMOVQ arms leave `valC` as it was; only IRMOVQ, J and
      CALL load the literal that follows the opcode. */
  lemma FetchDropsDisplacement(m: CMachine)
    requires FetchOk(m) && (High(m.memory[m.pc]) == 0x4 || High(m.memory[m.pc]) == 0x5)
    ensures FetchStage(m).valC == m.valC
  {
    if High(m.memory[m.pc]) == 0x4 {
      assert FetchStage(m) == MoveArm(m, RMMOVQ);
    } else {
      assert FetchStage(m) == MoveArm(m, MRMOVQ);
    }
  }

  /** No IRMOVQ the instruction-set encoder writes can be executed: its
      register byte has 0xf in the high nibble, so rB is 0xf0 and the
      writeback's `set_reg` indexes past the register file. */
  lemma IrmovqEncodingAsWritten(m: CMachine, r: Register, v: Word)
    requires Fits(m, 10) && m.memory[m.pc .. m.pc + 10] == Encode(Irmovq(r, v))
    ensures !StepOk(m)
  {
    var x := Irmovq(r, v);
    EncodeOpcodeByte(x);
    EncodeRegisterByte(x);
    assert m.memory[m.pc] == Encode(x)[0] && m.memory[m.pc + 1] == Encode(x)[1];
    assert FetchStage(m) == IrmovqArm(m);
  }

  /*
   * One step per instruction family, by the high nibble `n` of the opcode.
   * The registers the step reads are those of `m`.
   */

  /** HALT clears `stat` and resets the program counter to 0. */
  lemma HaltStep(m: CMachine)
    requires StepOk(m) && High(m.memory[m.pc]) == 0x0
    ensures Next(m) == m.(curr := HALT, valP := m.pc + 1, stat := false, pc := 0)
  {
  }

  /** NOOP changes nothing but the program counter, which moves to the next
      byte. */
  lemma NoopStep(m: CMachine)
    requires StepOk(m) && High(m.memory[m.pc]) == 0x1
    ensures Next(m) == m.(curr := NOOP, valP := m.pc + 1, pc := m.pc + 1)
  {
  }

  /** An opcode whose high nibble is above 0xb matches no case of fetch, which
      then changes nothing: the later stages run again on the fields the
      previous instruction left, so a HALT halts again and a NOOP moves the
      program counter to its old `valP`. */
  lemma UnknownOpcodeStep(m: CMachine)
    requires StepOk(m) && High(m.memory[m.pc]) > 0xb
    ensures FetchStage(m) == m
    ensures Next(m) == PcStage(WritebackStage(MemoryStage(ExecuteStage(DecodeStage(m)))))
    ensures m.curr == HALT ==> Next(m) == m.(stat := false, pc := 0)
    ensures m.curr == NOOP ==> Next(m) == m.(pc := m.valP)
  {
  }

  /** CMOV changes no register: when `cnd` (left by the last J) holds, rB is
      a slot only if rA and rB are both RAX. */
  lemma CmovStep(m: CMachine)
    requires StepOk(m) && High(m.memory[m.pc]) == 0x2
    ensures Next(m).registers == m.registers && Next(m).cnd == m.cnd
    ensures Next(m).flags == m.flags && Next(m).memory == m.memory && Next(m).pc == m.pc + 2
  {
    assert FetchStage(m) == CmovArm(m);
    FetchSplitsRegisters(m);
  }

  /** IRMOVQ writes the literal at pc + 2 to RAX, the only register rB can
      name. */
  lemma IrmovqStep(m: CMachine)
    requires StepOk(m) && High(m.memory[m.pc]) == 0x3
    ensures High(m.memory[m.pc + 1]) == 0
    ensures Next(m).registers == m.registers[0 := Load(m.memory, m.pc + 2)]
    ensures Next(m).flags == m.flags && Next(m).memory == m.memory && Next(m).pc == m.pc + 10
  {
    assert FetchStage(m) == IrmovqArm(m);
    FetchSplitsRegisters(m);
  }

  /** RMMOVQ stores RAX at RAX plus the `valC` of an earlier instruction. */
  lemma RmmovqStep(m: CMachine)
    requires StepOk(m) && High(m.memory[m.pc]) == 0x4
    ensures High(m.memory[m.pc + 1]) == 0
    ensures var x := m.registers[0];
      var a := Wrap(x + m.valC);
      WordFits(a) && Next(m).memory == Store(m.memory, a, x)
    ensures Next(m).registers == m.registers && Next(m).flags == m.flags
    ensures Next(m).pc == m.pc + 10
  {
    assert FetchStage(m) == MoveArm(m, RMMOVQ);
    FetchSplitsRegisters(m);
  }

  /** MRMOVQ loads RAX from RAX plus the `valC` of an earlier instruction. */
  lemma MrmovqStep(m: CMachine)
    requires StepOk(m) && High(m.memory[m.pc]) == 0x5
    ensures High(m.memory[m.pc + 1]) == 0
    ensures var a := Wrap(m.registers[0] + m.valC);
      WordFits(a) && Next(m).registers == m.registers[0 := Load(m.memory, a)]
    ensures Next(m).memory == m.memory && Next(m).flags == m.flags
    ensures Next(m).pc == m.pc + 10
  {
    assert FetchStage(m) == MoveArm(m, MRMOVQ);
    FetchSplitsRegisters(m);
  }

  /** OPQ combines RAX with itself, writes the result to RAX, updates the
      flags and moves the program counter past its two bytes. */
  lemma OpqStep(m: CMachine)
    requires StepOk(m) && High(m.memory[m.pc]) == 0x6
    ensures High(m.memory[m.pc + 1]) == 0 && Low(m.memory[m.pc]) <= 3
    ensures var op := Low(m.memory[m.pc]);
      var x := m.registers[0];
      var e := Alu(op, x, x);
      Next(m).registers == m.registers[0 := e] &&
      Next(m).flags == OpqFlags(op, x, x, e, m.flags)
    ensures Next(m).memory == m.memory && Next(m).pc == m.pc + 2
  {
    assert FetchStage(m) == OpqArm(m);
    FetchSplitsRegisters(m);
  }

  /** J evaluates the condition table for conditions 0 to 6 and keeps the
      previous `cnd` for the others; it jumps to the literal when `cnd`
      holds. */
  lemma JumpStep(m: CMachine)
    requires StepOk(m) && High(m.memory[m.pc]) == 0x7
    ensures var c := Low(m.memory[m.pc]);
      var cnd := if c <= 6 then CondHolds(c, m.flags) else m.cnd;
      Next(m).cnd == cnd &&
      Next(m).pc == (if cnd then Load(m.memory, m.pc + 1) else m.pc + 9)
    ensures Next(m).registers == m.registers && Next(m).flags == m.flags
    ensures Next(m).memory == m.memory
  {
    assert FetchStage(m) == JumpArm(m);
  }

  /** CALL lowers RSP by 8, stores the `valA` an earlier instruction left
      there (not the return address pc + 9) and jumps to the literal. */
  lemma CallStep(m: CMachine)
    requires StepOk(m) && High(m.memory[m.pc]) == 0x8
    ensures var a := Wrap(m.registers[RspSlot] - 8);
      WordFits(a) &&
      Next(m).registers == m.registers[RspSlot := a] &&
      Next(m).memory == Store(m.memory, a, m.valA)
    ensures Next(m).pc == Load(m.memory, m.pc + 1) && Next(m).flags == m.flags
  {
    assert FetchStage(m) == CallArm(m);
  }

  /** RET raises RSP by 8 and jumps to the word RSP pointed at. */
  lemma RetStep(m: CMachine)
    requires StepOk(m) && High(m.memory[m.pc]) == 0x9
    ensures var rsp := m.registers[RspSlot];
      WordFits(rsp) &&
      Next(m).registers == m.registers[RspSlot := Wrap(rsp + 8)] &&
      Next(m).pc == Load(m.memory, rsp)
    ensures Next(m).memory == m.memory && Next(m).flags == m.flags
  {
  }

  /** PUSHQ stores rA (the register byte's high nibble) in the eight bytes
      below RSP and lowers RSP by 8. */
  lemma PushqStep(m: CMachine)
    requires StepOk(m) && High(m.memory[m.pc]) == 0xa
    ensures var rA := High(m.memory[m.pc + 1]);
      var a := Wrap(m.registers[RspSlot] - 8);
      rA < RegisterCount && WordFits(a) &&
      Next(m).registers == m.registers[RspSlot := a] &&
      Next(m).memory == Store(m.memory, a, m.registers[rA])
    ensures Next(m).flags == m.flags && Next(m).pc == m.pc + 2
  {
    assert FetchStage(m) == StackArm(m, PUSHQ);
  }

  /** POPQ loads the word at RSP, raises RSP by 8 and then writes the word to
      rA. */
  lemma PopqStep(m: CMachine)
    requires StepOk(m) && High(m.memory[m.pc]) == 0xb
    ensures var rA := High(m.memory[m.pc + 1]);
      var rsp := m.registers[RspSlot];
      rA < RegisterCount && WordFits(rsp) &&
      Next(m).registers == m.registers[RspSlot := Wrap(rsp + 8)][rA := Load(m.memory, rsp)]
    ensures Next(m).memory == m.memory && Next(m).flags == m.flags && Next(m).pc == m.pc + 2
  {
    assert FetchStage(m) == StackArm(m, POPQ);
  }

  /*
   * Consecutive steps.
   */

  /** A PUSHQ followed by a POPQ copies the pushed register into the popped
      one and, unless the popped register is RSP, restores RSP. */
  lemma PushThenPop(m: CMachine)
    requires StepOk(m) && High(m.memory[m.pc]) == 0xa
    requires StepOk(Next(m)) && High(Next(m).memory[Next(m).pc]) == 0xb
    ensures var pushed := High(m.memory[m.pc + 1]);
      var popped := High(Next(m).memory[Next(m).pc + 1]);
      pushed < RegisterCount && popped < RegisterCount &&
      Next(Next(m)).registers[popped] == m.registers[pushed] &&
      (popped != RspSlot ==> Next(Next(m)).registers[RspSlot] == m.registers[RspSlot])
  {
    var n := Next(m);
    PushqStep(m);
    PopqStep(n);
    PoppedSlot(m.registers[RspSlot], m.memory, m.registers[High(m.memory[m.pc + 1])], n.memory);
  }

  /** A stack slot below RSP that lies in memory is RSP - 8 without
      wrapping, and popping it gives RSP back. */
  lemma StackSlot(rsp: Word)
    requires WordFits(Wrap(rsp - 8))
    ensures rsp >= 8 && Wrap(rsp - 8) == rsp - 8 && Wrap(Wrap(rsp - 8) + 8) == rsp
  {
  }

  /** A word pushed below RSP is what a load from the new RSP returns, and
      popping it gives RSP back. */
  lemma PoppedSlot(rsp: Word, mem: seq<Byte>, v: Word, mem': seq<Byte>)
    requires |mem| == MemorySize && WordFits(Wrap(rsp - 8))
    requires mem' == Store(mem, Wrap(rsp - 8), v)
    ensures Load(mem', Wrap(rsp - 8)) == v && Wrap(Wrap(rsp - 8) + 8) == rsp
  {
    StackSlot(rsp);
    LoadOfStore(mem, Wrap(rsp - 8), v);
  }

  /** A RET that finds the stack as a CALL left it returns to the `valA` that
      was in the struct before the CALL, not to the instruction after it. */
  lemma CallThenRet(m: CMachine, r: CMachine)
    requires StepOk(m) && High(m.memory[m.pc]) == 0x8
    requires StepOk(r) && High(r.memory[r.pc]) == 0x9
    requires r.registers[RspSlot] == Next(m).registers[RspSlot]
    requires |r.memory| == MemorySize && WordFits(r.registers[RspSlot])
    requires Load(r.memory, r.registers[RspSlot]) == Load(Next(m).memory, r.registers[RspSlot])
    ensures Next(r).pc == m.valA
    ensures Next(r).registers[RspSlot] == m.registers[RspSlot]
  {
    var n := Next(m);
    CallStep(m);
    RetStep(r);
    PoppedSlot(m.registers[RspSlot], m.memory, m.valA, n.memory);
  }

  /*
   * The two ports compared.
   */

  /** The J arm's switch computes the Rust condition table for the seven
      conditions it names. */
  lemma CondTablesAgree(c: Byte, f: Flags)
    requires c <= 6
    ensures CondHolds(c, f) == RustCpu.CondHolds(CondOf(c), f)
  {
  }

  /** The C table `{add, sub, and, xor}` is the Rust operation table. */
  lemma AluTablesAgree(op: Byte, a: Word, b: Word)
    requires op <= 3
    ensures Alu(op, a, b) == RustCpu.Alu(OpOf(op), a, b)
  {
  }

  /** Both ports' OF rule for addition is the unsigned carry out of bit 63,
      not signed overflow. */
  lemma AddOverflowIsCarry(a: Word, b: Word, f: Flags)
    ensures OpqFlags(0, a, b, Alu(0, a, b), f).of <==> a + b >= WordModulus
    ensures RustCpu.OpqFlags(Add, a, RustCpu.Alu(Add, a, b), f).of <==> a + b >= WordModulus
  {
    if a + b >= WordModulus {
      assert Wrap(a + b) == a + b - WordModulus;
    } else {
      assert Wrap(a + b) == a + b;
    }
  }

  /** For subtraction the Rust rule is the unsigned borrow of valA - valB; the
      C rule also reports a difference larger than valB. */
  lemma SubOverflowRules(a: Word, b: Word, f: Flags)
    ensures RustCpu.OpqFlags(Sub, a, RustCpu.Alu(Sub, a, b), f).of <==> a < b
    ensures OpqFlags(1, a, b, Alu(1, a, b), f).of <==> a < b || a - b > b
  {
    if a < b {
      assert Wrap(a - b) == a - b + WordModulus;
    } else {
      assert Wrap(a - b) == a - b;
    }
  }

  /** On 3 - 1 the two ports disagree about OF, and neither reports an
      overflow the instruction set has. */
  lemma SubOverflowPortsDiffer()
    ensures OpqFlags(1, 3, 1, Alu(1, 3, 1), Flags(false, false, false)).of
    ensures !RustCpu.OpqFlags(Sub, 3, RustCpu.Alu(Sub, 3, 1), Flags(false, false, false)).of
    ensures !Reference.Overflows(Sub, 1, 3)
  {
  }
}
