/*
 * The C port of the sequential core, cy86/cpu.c: the `CPU` struct of
 * cy86/cpu.h and the six stage functions that mutate it in place.
 *
 * The port shares the instruction set of isa.dfy but stores what fetch decodes
 * as raw bytes: `condition`, `op`, `rA` and `rB` are the C enums, which hold
 * whatever nibble fetch put there, and the register file is read and written
 * as an array of fifteen 64-bit slots by `get_reg` and `set_reg`. Unsigned
 * 64-bit arithmetic wraps. As for the Rust core, the stages are given first as
 * functions on a `CMachine` value and then as the methods of the class `CCpu`,
 * each proved to perform its function. Departures from the Y86-64 instruction
 * set are named where they occur; reads and writes outside an array, and the
 * call through `actions[op]` with op > 3, are undefined behaviour and are
 * excluded by preconditions.
 */
module CCpu {
  import opened Isa

  /** The number of slots `get_reg` and `set_reg` index. */
  const RegisterCount: int := 15

  /** The slot of RSP. */
  const RspSlot: Byte := 4

  /** `get_reg`: slot `index` of the register file viewed as an array. */
  function GetReg(file: seq<Word>, index: Byte): Word
    requires index < |file|
  {
    file[index]
  }

  /** `set_reg`: writes slot `index` in place; the other slots are unchanged. */
  method SetReg(file: array<Word>, index: Byte, value: Word)
    requires index < file.Length
    modifies file
    ensures file[..] == old(file[..])[index := value]
  {
    file[index] := value;
  }

  /** `regs & 0xf0`: the high nibble of a register byte left in place, which is
      what the port stores as rB. */
  function UpperBits(b: Byte): (r: Byte)
    ensures r % 0x10 == 0 && r / 0x10 == High(b)
  {
    High(b) * 0x10
  }

  /** The fields of the C `CPU` struct. `pc` is `program_counter`. */
  datatype CMachine = CMachine(
    flags: Flags,
    registers: seq<Word>,
    memory: seq<Byte>,
    pc: Word,
    condition: Byte,
    cnd: bool,
    op: Byte,
    curr: Family,
    rA: Byte,
    rB: Byte,
    valA: Word,
    valB: Word,
    valC: Word,
    valE: Word,
    valM: Word,
    valP: Word,
    stat: bool)

  /** `default_cpu`: every field zero, `stat` false. `curr` 0 is HALT. */
  function Initial(): (m: CMachine)
    ensures |m.registers| == RegisterCount && forall i :: 0 <= i < RegisterCount ==> GetReg(m.registers, i) == 0
    ensures |m.memory| == MemorySize && forall a :: 0 <= a < MemorySize ==> m.memory[a] == 0
    ensures m.pc == 0 && !m.stat && m.curr == HALT && m.flags == Flags(false, false, false)
  {
    CMachine(Flags(false, false, false), seq(RegisterCount, _ => 0), seq(MemorySize, _ => 0),
             0, 0, false, 0, HALT, 0, 0, 0, 0, 0, 0, 0, 0, false)
  }

  /*
   * Fetch.
   */

  /** The `n` bytes of an instruction at pc lie in memory. */
  predicate Fits(m: CMachine, n: nat)
  {
    |m.memory| == MemorySize && m.pc + n <= MemorySize
  }

  /** What fetch needs to be defined: every byte it reads, including the eight
      that the RMMOVQ and MRMOVQ arms read into `res`, lies in memory. */
  predicate FetchOk(m: CMachine)
  {
    Fits(m, 1) &&
    match High(m.memory[m.pc])
    case 0x2 => Fits(m, 2)
    case 0x3 => Fits(m, 10)
    case 0x4 => Fits(m, 10)
    case 0x5 => Fits(m, 10)
    case 0x6 => Fits(m, 2)
    case 0x7 => Fits(m, 9)
    case 0x8 => Fits(m, 9)
    case 0xa => Fits(m, 2)
    case 0xb => Fits(m, 2)
    case _ => true
  }

  /** Fetch touches only the instruction fields: `condition`, `op`, `curr`,
      `rA`, `rB`, `valC` and `valP`. */
  predicate FetchKeeps(m: CMachine, m': CMachine)
  {
    m'.flags == m.flags && m'.registers == m.registers && m'.memory == m.memory &&
    m'.pc == m.pc && m'.cnd == m.cnd && m'.valA == m.valA && m'.valB == m.valB &&
    m'.valE == m.valE && m'.valM == m.valM && m'.stat == m.stat
  }

  /** `fetch`: the switch on `op & 0xf0`. It has no default arm, so an opcode
      whose high nibble is 0xc to 0xf changes nothing. */
  function FetchStage(m: CMachine): (m': CMachine)
    requires FetchOk(m)
    ensures FetchKeeps(m, m')
  {
    match High(m.memory[m.pc])
    case 0x0 => m.(curr := HALT, valP := m.pc + 1)
    case 0x1 => m.(curr := NOOP, valP := m.pc + 1)
    case 0x2 => CmovArm(m)
    case 0x3 => IrmovqArm(m)
    case 0x4 => MoveArm(m, RMMOVQ)
    case 0x5 => MoveArm(m, MRMOVQ)
    case 0x6 => OpqArm(m)
    case 0x7 => JumpArm(m)
    case 0x8 => CallArm(m)
    case 0x9 => m.(curr := RET, valP := m.pc + 1)
    case 0xa => StackArm(m, PUSHQ)
    case 0xb => StackArm(m, POPQ)
    case _ => m
  }

  /** The CMOV arm. Departure: rB is `regs & 0xf0`, the high nibble unshifted,
      where the instruction set takes the low nibble. */
  function CmovArm(m: CMachine): CMachine
    requires Fits(m, 2)
  {
    var regs := m.memory[m.pc + 1];
    m.(curr := CMOV, condition := Low(m.memory[m.pc]), rA := High(regs),
       rB := UpperBits(regs), valP := m.pc + 2)
  }

  /** The IRMOVQ arm: rB as in CMOV, the literal at pc + 2. */
  function IrmovqArm(m: CMachine): CMachine
    requires Fits(m, 10)
  {
    m.(curr := IRMOVQ, rB := UpperBits(m.memory[m.pc + 1]),
       valC := Load(m.memory, m.pc + 2), valP := m.pc + 10)
  }

  /** The RMMOVQ and MRMOVQ arms. Departure: the literal is read into a local
      and never assigned to `valC`, so the displacement of the previous
      instruction is used. */
  function MoveArm(m: CMachine, f: Family): CMachine
    requires f == RMMOVQ || f == MRMOVQ
    requires Fits(m, 10)
  {
    var regs := m.memory[m.pc + 1];
    m.(curr := f, rA := High(regs), rB := UpperBits(regs), valP := m.pc + 10)
  }

  /** The OPQ arm: the operation from the opcode's low nibble. */
  function OpqArm(m: CMachine): CMachine
    requires Fits(m, 2)
  {
    var regs := m.memory[m.pc + 1];
    m.(curr := OPQ, op := Low(m.memory[m.pc]), rA := High(regs),
       rB := UpperBits(regs), valP := m.pc + 2)
  }

  /** The J arm: the condition from the opcode's low nibble, the literal at
      pc + 1. */
  function JumpArm(m: CMachine): CMachine
    requires Fits(m, 9)
  {
    m.(curr := J, condition := Low(m.memory[m.pc]), valC := Load(m.memory, m.pc + 1),
       valP := m.pc + 9)
  }

  /** The CALL arm: the literal at pc + 1. */
  function CallArm(m: CMachine): CMachine
    requires Fits(m, 9)
  {
    m.(curr := CALL, valC := Load(m.memory, m.pc + 1), valP := m.pc + 9)
  }

  /** The PUSHQ and POPQ arms. */
  function StackArm(m: CMachine, f: Family): CMachine
    requires f == PUSHQ || f == POPQ
    requires Fits(m, 2)
  {
    var regs := m.memory[m.pc + 1];
    m.(curr := f, rA := High(regs), rB := UpperBits(regs), valP := m.pc + 2)
  }

  /*
   * Decode.
   */

  /** Every register decode reads is one of the fifteen slots. */
  predicate DecodeOk(m: CMachine)
  {
    |m.registers| == RegisterCount &&
    match m.curr
    case CMOV => m.rA < RegisterCount
    case RMMOVQ => m.rA < RegisterCount && m.rB < RegisterCount
    case MRMOVQ => m.rB < RegisterCount
    case OPQ => m.rA < RegisterCount && m.rB < RegisterCount
    case PUSHQ => m.rA < RegisterCount
    case _ => true
  }

  /** `decode`. */
  function DecodeStage(m: CMachine): (m': CMachine)
    requires DecodeOk(m)
    ensures m' == m.(valA := m'.valA, valB := m'.valB)
  {
    var r := m.registers;
    match m.curr
    case CMOV => m.(valA := GetReg(r, m.rA))
    case RMMOVQ => m.(valA := GetReg(r, m.rA), valB := GetReg(r, m.rB))
    case MRMOVQ => m.(valB := GetReg(r, m.rB))
    case OPQ => m.(valA := GetReg(r, m.rA), valB := GetReg(r, m.rB))
    case CALL => m.(valB := GetReg(r, RspSlot))
    case RET => m.(valA := GetReg(r, RspSlot), valB := GetReg(r, RspSlot))
    case PUSHQ => m.(valA := GetReg(r, m.rA), valB := GetReg(r, RspSlot))
    case POPQ => m.(valA := GetReg(r, RspSlot), valB := GetReg(r, RspSlot))
    case _ => m
  }

  /*
   * Execute.
   */

  /** `actions[op]` reads one of the four entries of the table. */
  predicate ExecuteOk(m: CMachine)
  {
    m.curr == OPQ ==> m.op <= 3
  }

  /** The table `{add, sub, and, xor}` applied to (valA, valB), in wrapping
      64-bit arithmetic. Departure: `sub` computes valA - valB. */
  function Alu(op: Byte, a: Word, b: Word): Word
    requires op <= 3
  {
    if op == 0 then Wrap(a + b)
    else if op == 1 then Wrap(a - b)
    else if op == 2 then BitAnd(a, b)
    else BitXor(a, b)
  }

  /** The flags after an OPQ with result `e`. Departures: ZF and SF are set but
      never cleared, and OF compares `e` with both operands as unsigned words,
      which is not signed overflow. */
  function OpqFlags(op: Byte, a: Word, b: Word, e: Word, f: Flags): (g: Flags)
    ensures g.zf <==> f.zf || e == 0
    ensures g.sf <==> f.sf || Negative(e)
    ensures op != 0 && op != 1 ==> g.of == f.of
  {
    var of := if op == 0 then e < a || e < b
              else if op == 1 then e > a || e > b
              else f.of;
    Flags(if Negative(e) then true else f.sf, if e == 0 then true else f.zf, of)
  }

  /** The inner switch of the J arm, for the seven conditions it names. */
  predicate CondHolds(c: Byte, f: Flags)
    requires c <= 6
  {
    if c == 0 then true
    else if c == 1 then f.sf || f.zf
    else if c == 2 then f.sf && f.zf
    else if c == 3 then f.zf
    else if c == 4 then !f.zf
    else if c == 5 then !f.sf || f.zf
    else !f.sf && !f.zf
  }

  /** `execute`. The J arm's switch has no default arm: a condition nibble above
      6 leaves `cnd` as it was. Only J computes `cnd`. */
  function ExecuteStage(m: CMachine): (m': CMachine)
    requires ExecuteOk(m)
    ensures m'.registers == m.registers && m'.memory == m.memory && m'.pc == m.pc
  {
    match m.curr
    case HALT => m.(stat := false)
    case CMOV => m.(valE := m.valA)
    case IRMOVQ => m.(valE := m.valC)
    case RMMOVQ => m.(valE := Wrap(m.valB + m.valC))
    case MRMOVQ => m.(valE := Wrap(m.valB + m.valC))
    case OPQ =>
      var e := Alu(m.op, m.valA, m.valB);
      m.(valE := e, flags := OpqFlags(m.op, m.valA, m.valB, e, m.flags))
    case J => if m.condition <= 6 then m.(cnd := CondHolds(m.condition, m.flags)) else m
    case CALL => m.(valE := Wrap(m.valB - 8))
    case RET => m.(valE := Wrap(m.valB + 8))
    case PUSHQ => m.(valE := Wrap(m.valB - 8))
    case POPQ => m.(valE := Wrap(m.valB + 8))
    case NOOP => m
  }

  /*
   * Memory.
   */

  /** The eight bytes behind each `u64*` cast lie in memory. */
  predicate MemoryOk(m: CMachine)
  {
    |m.memory| == MemorySize &&
    match m.curr
    case RMMOVQ => WordFits(m.valE)
    case MRMOVQ => WordFits(m.valE)
    case CALL => WordFits(m.valE)
    case RET => WordFits(m.valA)
    case PUSHQ => WordFits(m.valE)
    case POPQ => WordFits(m.valA)
    case _ => true
  }

  /** `memory`. Departure: CALL stores valA, which its decode arm never sets,
      where the instruction set pushes the return address valP. */
  function MemoryStage(m: CMachine): (m': CMachine)
    requires MemoryOk(m)
    ensures m'.registers == m.registers && m'.flags == m.flags && m'.pc == m.pc
    ensures |m'.memory| == MemorySize
  {
    match m.curr
    case RMMOVQ => m.(memory := Store(m.memory, m.valE, m.valA))
    case MRMOVQ => m.(valM := Load(m.memory, m.valE))
    case CALL => m.(memory := Store(m.memory, m.valE, m.valA))
    case RET => m.(valM := Load(m.memory, m.valA))
    case PUSHQ => m.(memory := Store(m.memory, m.valE, m.valA))
    case POPQ => m.(valM := Load(m.memory, m.valA))
    case _ => m
  }

  /*
   * Writeback and program counter.
   */

  /** Every register writeback writes is one of the fifteen slots. */
  predicate WritebackOk(m: CMachine)
  {
    |m.registers| == RegisterCount &&
    match m.curr
    case CMOV => m.cnd ==> m.rB < RegisterCount
    case IRMOVQ => m.rB < RegisterCount
    case MRMOVQ => m.rA < RegisterCount
    case OPQ => m.rB < RegisterCount
    case POPQ => m.rA < RegisterCount
    case _ => true
  }

  /** `writeback`: POPQ writes RSP and then rA. */
  function WritebackStage(m: CMachine): (m': CMachine)
    requires WritebackOk(m)
    ensures m' == m.(registers := m'.registers) && |m'.registers| == RegisterCount
  {
    var r := m.registers;
    match m.curr
    case CMOV => if m.cnd then m.(registers := r[m.rB := m.valE]) else m
    case IRMOVQ => m.(registers := r[m.rB := m.valE])
    case MRMOVQ => m.(registers := r[m.rA := m.valM])
    case OPQ => m.(registers := r[m.rB := m.valE])
    case CALL => m.(registers := r[RspSlot := m.valE])
    case RET => m.(registers := r[RspSlot := m.valE])
    case PUSHQ => m.(registers := r[RspSlot := m.valE])
    case POPQ => m.(registers := r[RspSlot := m.valE][m.rA := m.valM])
    case _ => m
  }

  /** `program_counter`. HALT resets the program counter to 0. */
  function PcStage(m: CMachine): (m': CMachine)
    ensures m' == m.(pc := m'.pc)
  {
    match m.curr
    case HALT => m.(pc := 0)
    case J => m.(pc := if m.cnd then m.valC else m.valP)
    case CALL => m.(pc := m.valC)
    case RET => m.(pc := m.valM)
    case _ => m.(pc := m.valP)
  }

  /*
   * One step.
   */

  /** Every stage of the step is defined. */
  predicate StepOk(m: CMachine)
  {
    |m.registers| == RegisterCount && FetchOk(m) &&
    var f := FetchStage(m);
    DecodeOk(f) &&
    var d := DecodeStage(f);
    ExecuteOk(d) &&
    var e := ExecuteStage(d);
    MemoryOk(e) && WritebackOk(MemoryStage(e))
  }

  /** One iteration of the loop in `main`: the six stages in order. */
  function Next(m: CMachine): (m': CMachine)
    requires StepOk(m)
    ensures |m'.registers| == RegisterCount && |m'.memory| == MemorySize
  {
    PcStage(WritebackStage(MemoryStage(ExecuteStage(DecodeStage(FetchStage(m))))))
  }

  /** The flag updates of the OPQ arm of `execute` in the order the source
      makes them: OF for `Add` and `Sub`, then ZF and SF, each set but never
      cleared. */
  method UpdateFlags(op: Byte, a: Word, b: Word, e: Word, f: Flags) returns (g: Flags)
    ensures g == OpqFlags(op, a, b, e, f)
  {
    g := f;
    if op == 0 {
      g := g.(of := e < a || e < b);
    } else if op == 1 {
      g := g.(of := e > a || e > b);
    }
    if e == 0 {
      g := g.(zf := true);
    }
    if Negative(e) {
      g := g.(sf := true);
    }
  }

  /*
   * The CPU struct, updated in place.
   */

  class CCpu {
    var flags: Flags
    const registers: array<Word>
    const memory: array<Byte>
    var pc: Word
    var condition: Byte
    var cnd: bool
    var op: Byte
    var curr: Family
    var rA: Byte
    var rB: Byte
    var valA: Word
    var valB: Word
    var valC: Word
    var valE: Word
    var valM: Word
    var valP: Word
    var stat: bool

    ghost predicate Valid()
      reads this
    {
      registers.Length == RegisterCount && memory.Length == MemorySize
    }

    /** The struct's fields as a `CMachine` value. */
    ghost function Snapshot(): CMachine
      reads this, registers, memory
    {
      CMachine(flags, registers[..], memory[..], pc, condition, cnd, op, curr, rA, rB,
               valA, valB, valC, valE, valM, valP, stat)
    }

    /** `default_cpu`. */
    constructor ()
      ensures Valid() && fresh(registers) && fresh(memory)
      ensures Snapshot() == Initial()
    {
      registers := new Word[RegisterCount](_ => 0);
      memory := new Byte[MemorySize](_ => 0);
      flags := Flags(false, false, false);
      pc := 0;
      condition := 0;
      cnd := false;
      op := 0;
      curr := HALT;
      rA := 0;
      rB := 0;
      valA := 0;
      valB := 0;
      valC := 0;
      valE := 0;
      valM := 0;
      valP := 0;
      stat := false;
      new;
      assert registers[..] == seq(RegisterCount, _ => 0);
      assert memory[..] == seq(MemorySize, _ => 0);
    }

    /** The store through `(u64*)(cpu->memory + addr)`: the eight bytes of `v`,
        least significant first. */
    method StoreWord(addr: int, v: Word)
      requires Valid() && WordFits(addr)
      modifies memory
      ensures memory[..] == Store(old(memory[..]), addr, v)
    {
      forall i | 0 <= i < 8 {
        memory[addr + i] := LeBytes(v)[i];
      }
      assert memory[..] == old(memory[..addr]) + LeBytes(v) + old(memory[addr + 8..]);
    }

    /** `fetch`; the arms with operands are the methods below. */
    method Fetch()
      requires Valid() && FetchOk(Snapshot())
      modifies this
      ensures Valid() && Snapshot() == FetchStage(old(Snapshot()))
    {
      var first := memory[pc];
      match High(first)
      case 0x0 =>
        curr := HALT;
        valP := pc + 1;
      case 0x1 =>
        curr := NOOP;
        valP := pc + 1;
      case 0x2 =>
        FetchCmov();
      case 0x3 =>
        FetchIrmovq();
      case 0x4 =>
        FetchMove(RMMOVQ);
      case 0x5 =>
        FetchMove(MRMOVQ);
      case 0x6 =>
        FetchOpq();
      case 0x7 =>
        FetchJump();
      case 0x8 =>
        FetchCall();
      case 0x9 =>
        curr := RET;
        valP := pc + 1;
      case 0xa =>
        FetchStack(PUSHQ);
      case 0xb =>
        FetchStack(POPQ);
      case _ =>
    }

    method FetchCmov()
      requires Valid() && Fits(Snapshot(), 2)
      modifies this
      ensures Snapshot() == CmovArm(old(Snapshot()))
    {
      curr := CMOV;
      condition := Low(memory[pc]);
      var regs := memory[pc + 1];
      rA := High(regs);
      rB := UpperBits(regs);
      valP := pc + 2;
    }

    method FetchIrmovq()
      requires Valid() && Fits(Snapshot(), 10)
      modifies this
      ensures Snapshot() == IrmovqArm(old(Snapshot()))
    {
      var res := Load(memory[..], pc + 2);
      var regs := memory[pc + 1];
      curr := IRMOVQ;
      rB := UpperBits(regs);
      valC := res;
      valP := pc + 10;
    }

    method FetchMove(f: Family)
      requires f == RMMOVQ || f == MRMOVQ
      requires Valid() && Fits(Snapshot(), 10)
      modifies this
      ensures Snapshot() == MoveArm(old(Snapshot()), f)
    {
      var regs := memory[pc + 1];
      curr := f;
      rA := High(regs);
      rB := UpperBits(regs);
      valP := pc + 10;
    }

    method FetchOpq()
      requires Valid() && Fits(Snapshot(), 2)
      modifies this
      ensures Snapshot() == OpqArm(old(Snapshot()))
    {
      curr := OPQ;
      op := Low(memory[pc]);
      var regs := memory[pc + 1];
      rA := High(regs);
      rB := UpperBits(regs);
      valP := pc + 2;
    }

    method FetchJump()
      requires Valid() && Fits(Snapshot(), 9)
      modifies this
      ensures Snapshot() == JumpArm(old(Snapshot()))
    {
      var res := Load(memory[..], pc + 1);
      curr := J;
      condition := Low(memory[pc]);
      valC := res;
      valP := pc + 9;
    }

    method FetchCall()
      requires Valid() && Fits(Snapshot(), 9)
      modifies this
      ensures Snapshot() == CallArm(old(Snapshot()))
    {
      var res := Load(memory[..], pc + 1);
      curr := CALL;
      valC := res;
      valP := pc + 9;
    }

    method FetchStack(f: Family)
      requires f == PUSHQ || f == POPQ
      requires Valid() && Fits(Snapshot(), 2)
      modifies this
      ensures Snapshot() == StackArm(old(Snapshot()), f)
    {
      var regs := memory[pc + 1];
      curr := f;
      rA := High(regs);
      rB := UpperBits(regs);
      valP := pc + 2;
    }

    method Decode()
      requires Valid() && DecodeOk(Snapshot())
      modifies this
      ensures Valid() && Snapshot() == DecodeStage(old(Snapshot()))
    {
      match curr
      case CMOV =>
        valA := registers[rA];
      case RMMOVQ =>
        valA := registers[rA];
        valB := registers[rB];
      case MRMOVQ =>
        valB := registers[rB];
      case OPQ =>
        valA := registers[rA];
        valB := registers[rB];
      case CALL =>
        valB := registers[RspSlot];
      case RET =>
        valA := registers[RspSlot];
        valB := registers[RspSlot];
      case PUSHQ =>
        valA := registers[rA];
        valB := registers[RspSlot];
      case POPQ =>
        valA := registers[RspSlot];
        valB := registers[RspSlot];
      case _ =>
    }

    method Execute()
      requires Valid() && ExecuteOk(Snapshot())
      modifies this
      ensures Valid() && Snapshot() == ExecuteStage(old(Snapshot()))
    {
      match curr
      case HALT =>
        stat := false;
      case CMOV =>
        valE := valA;
      case IRMOVQ =>
        valE := valC;
      case RMMOVQ =>
        valE := Wrap(valB + valC);
      case MRMOVQ =>
        valE := Wrap(valB + valC);
      case OPQ =>
        ExecuteOpq();
      case J =>
        if condition <= 6 {
          cnd := CondHolds(condition, flags);
        }
      case CALL =>
        valE := Wrap(valB - 8);
      case RET =>
        valE := Wrap(valB + 8);
      case PUSHQ =>
        valE := Wrap(valB - 8);
      case POPQ =>
        valE := Wrap(valB + 8);
      case NOOP =>
    }

    /** The OPQ arm of `execute`: the operation table, then the flags. */
    method ExecuteOpq()
      requires curr == OPQ && op <= 3
      modifies this
      ensures Snapshot() == ExecuteStage(old(Snapshot()))
    {
      var e := Alu(op, valA, valB);
      var g := UpdateFlags(op, valA, valB, e, flags);
      valE := e;
      flags := g;
    }

    method Memory()
      requires Valid() && MemoryOk(Snapshot())
      modifies this, memory
      ensures Valid() && Snapshot() == MemoryStage(old(Snapshot()))
    {
      match curr
      case RMMOVQ =>
        StoreWord(valE, valA);
      case MRMOVQ =>
        valM := Load(memory[..], valE);
      case CALL =>
        StoreWord(valE, valA);
      case RET =>
        valM := Load(memory[..], valA);
      case PUSHQ =>
        StoreWord(valE, valA);
      case POPQ =>
        valM := Load(memory[..], valA);
      case _ =>
    }

    method Writeback()
      requires Valid() && WritebackOk(Snapshot())
      modifies registers
      ensures Valid() && Snapshot() == WritebackStage(old(Snapshot()))
    {
      match curr
      case CMOV =>
        if cnd {
          SetReg(registers, rB, valE);
        }
      case IRMOVQ =>
        SetReg(registers, rB, valE);
      case MRMOVQ =>
        SetReg(registers, rA, valM);
      case OPQ =>
        SetReg(registers, rB, valE);
      case CALL =>
        SetReg(registers, RspSlot, valE);
      case RET =>
        SetReg(registers, RspSlot, valE);
      case PUSHQ =>
        SetReg(registers, RspSlot, valE);
      case POPQ =>
        SetReg(registers, RspSlot, valE);
        SetReg(registers, rA, valM);
      case _ =>
    }

    method ProgramCounter()
      requires Valid()
      modifies this
      ensures Valid() && Snapshot() == PcStage(old(Snapshot()))
    {
      match curr
      case HALT => pc := 0;
      case J => pc := if cnd then valC else valP;
      case CALL => pc := valC;
      case RET => pc := valM;
      case _ => pc := valP;
    }

    /** The body of the loop in `main`. */
    method Step()
      requires Valid() && StepOk(Snapshot())
      modifies this, registers, memory
      ensures Valid() && Snapshot() == Next(old(Snapshot()))
    {
      Fetch();
      Decode();
      Execute();
      Memory();
      Writeback();
      ProgramCounter();
    }
  }
}
