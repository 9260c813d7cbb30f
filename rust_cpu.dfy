/*
 * The sequential core of src/cpu.rs: the `CPU` record and its six stage
 * methods, which src/lib.rs runs in the order fetch, decode, execute, memory,
 * writeback, program counter.
 *
 * The stages are first given as functions on a `Machine` value (the record's
 * fields, with the memory as a sequence); the class `Cpu` then holds the same
 * fields, updates them in place, and each of its methods is proved to perform
 * the corresponding function. Properties of whole steps are in
 * rust_properties.dfy.
 *
 * The model follows the code as written, including where it departs from the
 * Y86-64 instruction set; each departure is named where it occurs. Paths that
 * are undefined behaviour or panic are excluded by preconditions.
 */
module RustCpu {
  import opened Isa

  /** `RegFile`: one 64-bit field per register. */
  datatype RegFile = RegFile(
    rax: Word, rcx: Word, rdx: Word, rbx: Word, rsp: Word, rbp: Word, rsi: Word, rdi: Word,
    r8: Word, r9: Word, r10: Word, r11: Word, r12: Word, r13: Word, r14: Word)
  {
    /** `Index<Register>`: the field that holds register `r`. */
    function Get(r: Register): Word
    {
      match r
      case RAX => rax
      case RCX => rcx
      case RDX => rdx
      case RBX => rbx
      case RSP => rsp
      case RBP => rbp
      case RSI => rsi
      case RDI => rdi
      case R8 => r8
      case R9 => r9
      case R10 => r10
      case R11 => r11
      case R12 => r12
      case R13 => r13
      case R14 => r14
    }

    /** `IndexMut<Register>` followed by an assignment through the reference:
        register `r` now holds `v` and the other fourteen are unchanged. */
    function Set(r: Register, v: Word): (f: RegFile)
      ensures f.Get(r) == v
      ensures forall s :: s != r ==> f.Get(s) == Get(s)
    {
      match r
      case RAX => this.(rax := v)
      case RCX => this.(rcx := v)
      case RDX => this.(rdx := v)
      case RBX => this.(rbx := v)
      case RSP => this.(rsp := v)
      case RBP => this.(rbp := v)
      case RSI => this.(rsi := v)
      case RDI => this.(rdi := v)
      case R8 => this.(r8 := v)
      case R9 => this.(r9 := v)
      case R10 => this.(r10 := v)
      case R11 => this.(r11 := v)
      case R12 => this.(r12 := v)
      case R13 => this.(r13 := v)
      case R14 => this.(r14 := v)
    }
  }

  const ZeroRegs: RegFile := RegFile(0, 0, 0, 0, 0, 0, 0, 0, 0, 0, 0, 0, 0, 0, 0)

  /** The fields of `CPU`. `pc` is `program_counter`; `valP` and `pc` are
      `usize`, modelled as 64-bit words. */
  datatype Machine = Machine(
    flags: Flags,
    registers: RegFile,
    memory: seq<Byte>,
    pc: Word,
    condition: Cond,
    cnd: bool,
    op: Op,
    curr: Family,
    rA: Register,
    rB: Register,
    valA: Word,
    valB: Word,
    valC: Word,
    valE: Word,
    valM: Word,
    valP: Word,
    stat: bool)

  /** `CPU::default`: everything zero, `stat` false, the defaults of the enums
      their first variants. */
  function Initial(): (m: Machine)
    ensures forall r :: m.registers.Get(r) == 0
    ensures |m.memory| == MemorySize && forall a :: 0 <= a < MemorySize ==> m.memory[a] == 0
    ensures m.pc == 0 && !m.stat && m.curr == HALT && m.flags == Flags(false, false, false)
  {
    Machine(Flags(false, false, false), ZeroRegs, seq(MemorySize, _ => 0), 0,
            None, false, Add, HALT, RAX, RAX, 0, 0, 0, 0, 0, 0, false)
  }

  /*
   * Fetch.
   */

  /** The `n` bytes of an instruction at pc lie in memory. */
  predicate Fits(m: Machine, n: nat)
  {
    |m.memory| == MemorySize && m.pc + n <= MemorySize
  }

  /** Both nibbles of a register byte name registers (0xf does not). */
  predicate BothRegisters(regs: Byte)
  {
    High(regs) <= 0x0e && Low(regs) <= 0x0e
  }

  /** What fetch needs to be defined: the bytes it reads lie in memory, the
      opcode's family is one of the twelve (any other reaches
      `unreachable_unchecked`), and every nibble it converts is a valid
      register, condition or operation (`Register::from` transmutes, and the
      other conversions reach `unreachable_unchecked`). */
  predicate FetchOk(m: Machine)
  {
    Fits(m, 1) && High(m.memory[m.pc]) <= 0xb &&
    var first := m.memory[m.pc];
    match FamilyOf(first)
    case CMOV => Fits(m, 2) && Low(first) <= 6 && BothRegisters(m.memory[m.pc + 1])
    case IRMOVQ => Fits(m, 10) && Low(m.memory[m.pc + 1]) <= 0x0e
    case RMMOVQ => Fits(m, 10) && BothRegisters(m.memory[m.pc + 1])
    case MRMOVQ => Fits(m, 10) && BothRegisters(m.memory[m.pc + 1])
    case OPQ => Fits(m, 2) && Low(first) <= 3 && BothRegisters(m.memory[m.pc + 1])
    case J => Fits(m, 9) && Low(first) <= 6
    case CALL => Fits(m, 9)
    case PUSHQ => Fits(m, 2) && High(m.memory[m.pc + 1]) <= 0x0e
    case POPQ => Fits(m, 2) && High(m.memory[m.pc + 1]) <= 0x0e
    case _ => true
  }

  /** Fetch touches only the instruction fields: `condition`, `op`, `curr`,
      `rA`, `rB`, `valC` and `valP`. */
  predicate FetchKeeps(m: Machine, m': Machine)
  {
    m'.flags == m.flags && m'.registers == m.registers && m'.memory == m.memory &&
    m'.pc == m.pc && m'.cnd == m.cnd && m'.valA == m.valA && m'.valB == m.valB &&
    m'.valE == m.valE && m'.valM == m.valM && m'.stat == m.stat
  }

  /** `fetch`: the match on the opcode's high nibble. Departure from the
      instruction set: the OPQ arm leaves `valP` as it was, so the program
      counter stage later jumps to a stale address. */
  function FetchStage(m: Machine): (m': Machine)
    requires FetchOk(m)
    ensures FetchKeeps(m, m')
    ensures m'.curr == FamilyOf(m.memory[m.pc])
  {
    match FamilyOf(m.memory[m.pc])
    case HALT => m.(valP := m.pc + 1, curr := HALT)
    case NOOP => m.(valP := m.pc + 1, curr := NOOP)
    case CMOV => CmovArm(m)
    case IRMOVQ => IrmovqArm(m)
    case RMMOVQ => MoveArm(m, RMMOVQ)
    case MRMOVQ => MoveArm(m, MRMOVQ)
    case OPQ => OpqArm(m)
    case J => JumpArm(m)
    case CALL => CallArm(m)
    case RET => m.(valP := m.pc + 1, curr := RET)
    case PUSHQ => StackArm(m, PUSHQ)
    case POPQ => StackArm(m, POPQ)
  }

  /** The CMOV arm: the condition from the opcode's low nibble, rA and rB from
      the next byte. */
  function CmovArm(m: Machine): Machine
    requires Fits(m, 2) && Low(m.memory[m.pc]) <= 6 && BothRegisters(m.memory[m.pc + 1])
  {
    var regs := m.memory[m.pc + 1];
    m.(condition := CondOf(Low(m.memory[m.pc])), rA := RegisterOf(High(regs)),
       rB := RegisterOf(Low(regs)), valP := m.pc + 2, curr := CMOV)
  }

  /** The IRMOVQ arm: rB from the low nibble of the next byte, then the
      literal at pc + 2. */
  function IrmovqArm(m: Machine): Machine
    requires Fits(m, 10) && Low(m.memory[m.pc + 1]) <= 0x0e
  {
    m.(rB := RegisterOf(Low(m.memory[m.pc + 1])), valC := Load(m.memory, m.pc + 2),
       valP := m.pc + 10, curr := IRMOVQ)
  }

  /** The RMMOVQ and MRMOVQ arms: rA and rB from the next byte, then the
      literal at pc + 2. */
  function MoveArm(m: Machine, f: Family): Machine
    requires f == RMMOVQ || f == MRMOVQ
    requires Fits(m, 10) && BothRegisters(m.memory[m.pc + 1])
  {
    var regs := m.memory[m.pc + 1];
    m.(rA := RegisterOf(High(regs)), rB := RegisterOf(Low(regs)),
       valC := Load(m.memory, m.pc + 2), valP := m.pc + 10, curr := f)
  }

  /** The OPQ arm: the operation from the opcode's low nibble, rA and rB from
      the next byte, and no assignment to `valP`. */
  function OpqArm(m: Machine): Machine
    requires Fits(m, 2) && Low(m.memory[m.pc]) <= 3 && BothRegisters(m.memory[m.pc + 1])
  {
    var regs := m.memory[m.pc + 1];
    m.(op := OpOf(Low(m.memory[m.pc])), rA := RegisterOf(High(regs)),
       rB := RegisterOf(Low(regs)), curr := OPQ)
  }

  /** The J arm: the condition from the opcode's low nibble, the literal at
      pc + 1. */
  function JumpArm(m: Machine): Machine
    requires Fits(m, 9) && Low(m.memory[m.pc]) <= 6
  {
    m.(condition := CondOf(Low(m.memory[m.pc])), valC := Load(m.memory, m.pc + 1),
       valP := m.pc + 9, curr := J)
  }

  /** The CALL arm: the literal at pc + 1. */
  function CallArm(m: Machine): Machine
    requires Fits(m, 9)
  {
    m.(valC := Load(m.memory, m.pc + 1), valP := m.pc + 9, curr := CALL)
  }

  /** The PUSHQ and POPQ arms: rA from the high nibble of the next byte. */
  function StackArm(m: Machine, f: Family): Machine
    requires f == PUSHQ || f == POPQ
    requires Fits(m, 2) && High(m.memory[m.pc + 1]) <= 0x0e
  {
    m.(rA := RegisterOf(High(m.memory[m.pc + 1])), valP := m.pc + 2, curr := f)
  }

  /*
   * Decode.
   */

  /** `decode`: reads the source registers into `valA` and `valB`; RSP for the
      stack instructions. */
  function DecodeStage(m: Machine): (m': Machine)
    ensures m' == m.(valA := m'.valA, valB := m'.valB)
  {
    var r := m.registers;
    match m.curr
    case CMOV => m.(valA := r.Get(m.rA))
    case RMMOVQ => m.(valA := r.Get(m.rA), valB := r.Get(m.rB))
    case MRMOVQ => m.(valB := r.Get(m.rB))
    case OPQ => m.(valA := r.Get(m.rA), valB := r.Get(m.rB))
    case CALL => m.(valB := r.Get(RSP))
    case RET => m.(valA := r.Get(RSP), valB := r.Get(RSP))
    case PUSHQ => m.(valA := r.Get(m.rA), valB := r.Get(RSP))
    case POPQ => m.(valA := r.Get(RSP), valB := r.Get(RSP))
    case _ => m
  }

  /*
   * Execute.
   */

  /** The plain `+` and `-` of execute panic on overflow (in a debug build). */
  predicate ExecuteOk(m: Machine)
  {
    match m.curr
    case RMMOVQ => m.valB + m.valC < WordModulus
    case MRMOVQ => m.valB + m.valC < WordModulus
    case CALL => m.valB >= 8
    case RET => m.valB + 8 < WordModulus
    case PUSHQ => m.valB >= 8
    case POPQ => m.valB + 8 < WordModulus
    case _ => true
  }

  /** The operation table `[wrapping_add, wrapping_sub, bitand, bitxor]`,
      applied to (valA, valB). Departure: `subq` computes valA - valB, where the
      instruction set defines rB - rA. */
  function Alu(o: Op, valA: Word, valB: Word): Word
  {
    match o
    case Add => Wrap(valA + valB)
    case Sub => Wrap(valA - valB)
    case And => BitAnd(valA, valB)
    case Xor => BitXor(valA, valB)
  }

  /** The flags after an OPQ with result `e`. Departures: ZF and SF are only
      ever set, never cleared; OF compares `e` with valA alone (the source tests
      the same comparison twice); logical operations leave OF as it was. */
  function OpqFlags(o: Op, valA: Word, e: Word, f: Flags): (g: Flags)
    ensures g.zf <==> f.zf || e == 0
    ensures g.sf <==> f.sf || Negative(e)
    ensures o != Add && o != Sub ==> g.of == f.of
  {
    var of := match o
      case Add => e < valA || e < valA
      case Sub => e > valA || e > valA
      case _ => f.of;
    Flags(if Negative(e) then true else f.sf,
          if e == 0 then true else f.zf,
          of)
  }

  /** The jump condition table of the J arm. Departures: L is `sf && zf`
      (the instruction set has SF xor OF), and Le, Ge and G ignore OF. */
  predicate CondHolds(c: Cond, f: Flags)
  {
    match c
    case None => true
    case Le => f.sf || f.zf
    case L => f.sf && f.zf
    case E => f.zf
    case Ne => !f.zf
    case Ge => !f.sf || f.zf
    case G => !f.sf && !f.zf
  }

  /** `execute`. Departure: only the J arm computes `cnd`; CMOV keeps the
      outcome of the last jump. */
  function ExecuteStage(m: Machine): (m': Machine)
    requires ExecuteOk(m)
    ensures m'.registers == m.registers && m'.memory == m.memory && m'.pc == m.pc
  {
    match m.curr
    case HALT => m.(stat := false)
    case CMOV => m.(valE := m.valA)
    case IRMOVQ => m.(valE := m.valC)
    case RMMOVQ => m.(valE := m.valB + m.valC)
    case MRMOVQ => m.(valE := m.valB + m.valC)
    case OPQ =>
      var e := Alu(m.op, m.valA, m.valB);
      m.(valE := e, flags := OpqFlags(m.op, m.valA, e, m.flags))
    case J => m.(cnd := CondHolds(m.condition, m.flags))
    case CALL => m.(valE := m.valB - 8)
    case RET => m.(valE := m.valB + 8)
    case PUSHQ => m.(valE := m.valB - 8)
    case POPQ => m.(valE := m.valB + 8)
    case NOOP => m
  }

  /*
   * Memory.
   */

  /** The eight bytes the memory stage reads or writes lie in memory. */
  predicate MemoryOk(m: Machine)
  {
    |m.memory| == MemorySize &&
    match m.curr
    case RMMOVQ => WordFits(m.valE)
    case MRMOVQ => WordFits(m.valE)
    case CALL => WordFits(m.valE)
    case RET => WordFits(m.valA)
    case PUSHQ => WordFits(m.valE)
    case POPQ => WordFits(m.valA)
    case _ => true
  }

  /** `memory`: RMMOVQ and PUSHQ store valA at valE, CALL stores valP there;
      MRMOVQ loads from valE, RET and POPQ from valA. */
  function MemoryStage(m: Machine): (m': Machine)
    requires MemoryOk(m)
    ensures m'.registers == m.registers && m'.flags == m.flags && m'.pc == m.pc
    ensures |m'.memory| == MemorySize
  {
    match m.curr
    case RMMOVQ => m.(memory := Store(m.memory, m.valE, m.valA))
    case MRMOVQ => m.(valM := Load(m.memory, m.valE))
    case CALL => m.(memory := Store(m.memory, m.valE, m.valP))
    case RET => m.(valM := Load(m.memory, m.valA))
    case PUSHQ => m.(memory := Store(m.memory, m.valE, m.valA))
    case POPQ => m.(valM := Load(m.memory, m.valA))
    case _ => m
  }

  /*
   * Writeback and program counter.
   */

  /** `writeback`. POPQ writes RSP first and then rA, so `popq %rsp` leaves the
      loaded word in RSP. */
  function WritebackStage(m: Machine): (m': Machine)
    ensures m' == m.(registers := m'.registers)
  {
    var r := m.registers;
    match m.curr
    case CMOV => if m.cnd then m.(registers := r.Set(m.rB, m.valE)) else m
    case IRMOVQ => m.(registers := r.Set(m.rB, m.valE))
    case MRMOVQ => m.(registers := r.Set(m.rA, m.valM))
    case OPQ => m.(registers := r.Set(m.rB, m.valE))
    case CALL => m.(registers := r.Set(RSP, m.valE))
    case RET => m.(registers := r.Set(RSP, m.valE))
    case PUSHQ => m.(registers := r.Set(RSP, m.valE))
    case POPQ => m.(registers := r.Set(RSP, m.valE).Set(m.rA, m.valM))
    case _ => m
  }

  /** `program_counter`. HALT resets the program counter to 0. */
  function PcStage(m: Machine): (m': Machine)
    ensures m' == m.(pc := m'.pc)
  {
    match m.curr
    case HALT => m.(pc := 0)
    case NOOP => m.(pc := m.valP)
    case CMOV => m.(pc := m.valP)
    case IRMOVQ => m.(pc := m.valP)
    case RMMOVQ => m.(pc := m.valP)
    case MRMOVQ => m.(pc := m.valP)
    case OPQ => m.(pc := m.valP)
    case J => m.(pc := if m.cnd then m.valC else m.valP)
    case CALL => m.(pc := m.valC)
    case RET => m.(pc := m.valM)
    case PUSHQ => m.(pc := m.valP)
    case POPQ => m.(pc := m.valP)
  }

  /*
   * One step.
   */

  /** Every stage of the step is defined. */
  predicate StepOk(m: Machine)
  {
    FetchOk(m) &&
    var d := DecodeStage(FetchStage(m));
    ExecuteOk(d) && MemoryOk(ExecuteStage(d))
  }

  /** One iteration of the loop in src/lib.rs: the six stages in order. */
  function Next(m: Machine): (m': Machine)
    requires StepOk(m)
    ensures |m'.memory| == MemorySize
  {
    PcStage(WritebackStage(MemoryStage(ExecuteStage(DecodeStage(FetchStage(m))))))
  }

  /*
   * The CPU record, updated in place.
   */

  class Cpu {
    var flags: Flags
    var registers: RegFile
    const memory: array<Byte>
    var pc: Word
    var condition: Cond
    var cnd: bool
    var op: Op
    var curr: Family
    var rA: Register
    var rB: Register
    var valA: Word
    var valB: Word
    var valC: Word
    var valE: Word
    var valM: Word
    var valP: Word
    var stat: bool

    ghost predicate Valid()
      reads this
    {
      memory.Length == MemorySize
    }

    /** The record's fields as a `Machine` value. */
    ghost function Snapshot(): Machine
      reads this, memory
    {
      Machine(flags, registers, memory[..], pc, condition, cnd, op, curr, rA, rB,
              valA, valB, valC, valE, valM, valP, stat)
    }

    /** `CPU::default`. */
    constructor ()
      ensures Valid() && fresh(memory)
      ensures Snapshot() == Initial()
    {
      memory := new Byte[MemorySize](_ => 0);
      flags := Flags(false, false, false);
      registers := ZeroRegs;
      pc := 0;
      condition := None;
      cnd := false;
      op := Add;
      curr := HALT;
      rA := RAX;
      rB := RAX;
      valA := 0;
      valB := 0;
      valC := 0;
      valE := 0;
      valM := 0;
      valP := 0;
      stat := false;
      new;
      assert memory[..] == seq(MemorySize, _ => 0);
    }

    /** The loop that accumulates the eight bytes at `addr`, least significant
        first (see `ReadLE` for how the source's shift departs from this). */
    method LoadWord(addr: int) returns (res: Word)
      requires Valid() && WordFits(addr)
      ensures res == Load(memory[..], addr)
    {
      ghost var word := memory[addr .. addr + 8];
      res := 0;
      for i := 0 to 8
        invariant res == LeValue(word[..i])
      {
        assert word[..i + 1] == word[..i] + [memory[addr + i]];
        LeValueSnoc(word[..i], memory[addr + i]);
        Pow256Monotonic(i + 1, 8);
        Pow256Word();
        res := res + Lane(memory[addr + i], i);
      }
      assert word[..8] == word;
    }

    /** The loop that writes byte i of `v` to `addr + i` for i in 0..8. */
    method StoreWord(addr: int, v: Word)
      requires Valid() && WordFits(addr)
      modifies memory
      ensures memory[..] == Store(old(memory[..]), addr, v)
    {
      for i := 0 to 8
        invariant forall j :: 0 <= j < memory.Length ==>
          memory[j] == if addr <= j < addr + i then LeBytes(v)[j - addr] else old(memory[j])
      {
        LeBytesAt(v, 8, i);
        memory[addr + i] := ByteOf(v, i);
      }
      assert memory[..] == old(memory[..addr]) + LeBytes(v) + old(memory[addr + 8..]);
    }

    /** `fetch`: the match on the opcode's high nibble; the arms with operands
        are the methods below. */
    method Fetch()
      requires Valid() && FetchOk(Snapshot())
      modifies this
      ensures Valid() && Snapshot() == FetchStage(old(Snapshot()))
    {
      var first := memory[pc];
      match High(first)
      case 0x0 =>
        valP := pc + 1;
        curr := HALT;
      case 0x1 =>
        valP := pc + 1;
        curr := NOOP;
      case 0x2 =>
        FetchCmov();
      case 0x3 =>
        FetchIrmovq();
      case 0x4 =>
        FetchMove(RMMOVQ);
      case 0x5 =>
        FetchMove(MRMOVQ);
      case 0x6 =>
        FetchOpq();
      case 0x7 =>
        FetchJump();
      case 0x8 =>
        FetchCall();
      case 0x9 =>
        valP := pc + 1;
        curr := RET;
      case 0xa =>
        FetchStack(PUSHQ);
      case 0xb =>
        FetchStack(POPQ);
      case _ =>
        assert false;
    }

    method FetchCmov()
      requires Valid() && Fits(Snapshot(), 2)
      requires Low(memory[pc]) <= 6 && BothRegisters(memory[pc + 1])
      modifies this
      ensures Snapshot() == CmovArm(old(Snapshot()))
    {
      var first := memory[pc];
      condition := CondOf(Low(first));
      var regs := memory[pc + 1];
      rA := RegisterOf(High(regs));
      rB := RegisterOf(Low(regs));
      valP := pc + 2;
      curr := CMOV;
    }

    method FetchIrmovq()
      requires Valid() && Fits(Snapshot(), 10) && Low(memory[pc + 1]) <= 0x0e
      modifies this
      ensures Snapshot() == IrmovqArm(old(Snapshot()))
    {
      var res := LoadWord(pc + 2);
      var regs := memory[pc + 1];
      rB := RegisterOf(Low(regs));
      valC := res;
      valP := pc + 10;
      curr := IRMOVQ;
    }

    method FetchMove(f: Family)
      requires f == RMMOVQ || f == MRMOVQ
      requires Valid() && Fits(Snapshot(), 10) && BothRegisters(memory[pc + 1])
      modifies this
      ensures Snapshot() == MoveArm(old(Snapshot()), f)
    {
      var res := LoadWord(pc + 2);
      var regs := memory[pc + 1];
      rA := RegisterOf(High(regs));
      rB := RegisterOf(Low(regs));
      valC := res;
      valP := pc + 10;
      curr := f;
    }

    method FetchOpq()
      requires Valid() && Fits(Snapshot(), 2)
      requires Low(memory[pc]) <= 3 && BothRegisters(memory[pc + 1])
      modifies this
      ensures Snapshot() == OpqArm(old(Snapshot()))
    {
      var first := memory[pc];
      op := OpOf(Low(first));
      var regs := memory[pc + 1];
      rA := RegisterOf(High(regs));
      rB := RegisterOf(Low(regs));
      curr := OPQ;
    }

    method FetchJump()
      requires Valid() && Fits(Snapshot(), 9) && Low(memory[pc]) <= 6
      modifies this
      ensures Snapshot() == JumpArm(old(Snapshot()))
    {
      var res := LoadWord(pc + 1);
      condition := CondOf(Low(memory[pc]));
      valC := res;
      valP := pc + 9;
      curr := J;
    }

    method FetchCall()
      requires Valid() && Fits(Snapshot(), 9)
      modifies this
      ensures Snapshot() == CallArm(old(Snapshot()))
    {
      var res := LoadWord(pc + 1);
      valC := res;
      valP := pc + 9;
      curr := CALL;
    }

    method FetchStack(f: Family)
      requires f == PUSHQ || f == POPQ
      requires Valid() && Fits(Snapshot(), 2) && High(memory[pc + 1]) <= 0x0e
      modifies this
      ensures Snapshot() == StackArm(old(Snapshot()), f)
    {
      var regs := memory[pc + 1];
      rA := RegisterOf(High(regs));
      valP := pc + 2;
      curr := f;
    }

    method Decode()
      requires Valid()
      modifies this
      ensures Valid() && Snapshot() == DecodeStage(old(Snapshot()))
    {
      match curr
      case CMOV =>
        valA := registers.Get(rA);
      case RMMOVQ =>
        valA := registers.Get(rA);
        valB := registers.Get(rB);
      case MRMOVQ =>
        valB := registers.Get(rB);
      case OPQ =>
        valA := registers.Get(rA);
        valB := registers.Get(rB);
      case CALL =>
        valB := registers.Get(RSP);
      case RET =>
        valA := registers.Get(RSP);
        valB := registers.Get(RSP);
      case PUSHQ =>
        valA := registers.Get(rA);
        valB := registers.Get(RSP);
      case POPQ =>
        valA := registers.Get(RSP);
        valB := registers.Get(RSP);
      case _ =>
    }

    method Execute()
      requires Valid() && ExecuteOk(Snapshot())
      modifies this
      ensures Valid() && Snapshot() == ExecuteStage(old(Snapshot()))
    {
      match curr
      case HALT =>
        stat := false;
      case CMOV =>
        valE := valA;
      case IRMOVQ =>
        valE := valC;
      case RMMOVQ =>
        valE := valB + valC;
      case MRMOVQ =>
        valE := valB + valC;
      case OPQ =>
        ExecuteOpq();
      case J =>
        cnd := CondHolds(condition, flags);
      case CALL =>
        valE := valB - 8;
      case RET =>
        valE := valB + 8;
      case PUSHQ =>
        valE := valB - 8;
      case POPQ =>
        valE := valB + 8;
      case NOOP =>
    }

    /** The OPQ arm of `execute`: the operation table, then OF for addition
        and subtraction, then ZF and SF, each set but never cleared. */
    method ExecuteOpq()
      requires curr == OPQ
      modifies this
      ensures Snapshot() == ExecuteStage(old(Snapshot()))
    {
      valE := Alu(op, valA, valB);
      match op {
        case Add => flags := flags.(of := valE < valA || valE < valA);
        case Sub => flags := flags.(of := valE > valA || valE > valA);
        case _ =>
      }
      if valE == 0 {
        flags := flags.(zf := true);
      }
      if Negative(valE) {
        flags := flags.(sf := true);
      }
    }

    method Memory()
      requires Valid() && MemoryOk(Snapshot())
      modifies this, memory
      ensures Valid() && Snapshot() == MemoryStage(old(Snapshot()))
    {
      match curr
      case RMMOVQ =>
        StoreWord(valE, valA);
      case MRMOVQ =>
        valM := LoadWord(valE);
      case CALL =>
        StoreWord(valE, valP);
      case RET =>
        valM := LoadWord(valA);
      case PUSHQ =>
        StoreWord(valE, valA);
      case POPQ =>
        valM := LoadWord(valA);
      case _ =>
    }

    method Writeback()
      requires Valid()
      modifies this
      ensures Valid() && Snapshot() == WritebackStage(old(Snapshot()))
    {
      match curr
      case CMOV =>
        if cnd {
          registers := registers.Set(rB, valE);
        }
      case IRMOVQ =>
        registers := registers.Set(rB, valE);
      case MRMOVQ =>
        registers := registers.Set(rA, valM);
      case OPQ =>
        registers := registers.Set(rB, valE);
      case CALL =>
        registers := registers.Set(RSP, valE);
      case RET =>
        registers := registers.Set(RSP, valE);
      case PUSHQ =>
        registers := registers.Set(RSP, valE);
      case POPQ =>
        registers := registers.Set(RSP, valE);
        registers := registers.Set(rA, valM);
      case _ =>
    }

    method ProgramCounter()
      requires Valid()
      modifies this
      ensures Valid() && Snapshot() == PcStage(old(Snapshot()))
    {
      match curr
      case HALT => pc := 0;
      case NOOP => pc := valP;
      case CMOV => pc := valP;
      case IRMOVQ => pc := valP;
      case RMMOVQ => pc := valP;
      case MRMOVQ => pc := valP;
      case OPQ => pc := valP;
      case J => pc := if cnd then valC else valP;
      case CALL => pc := valC;
      case RET => pc := valM;
      case PUSHQ => pc := valP;
      case POPQ => pc := valP;
    }

    /** The body of the loop in src/lib.rs. */
    method Step()
      requires Valid() && StepOk(Snapshot())
      modifies this, memory
      ensures Valid() && Snapshot() == Next(old(Snapshot()))
    {
      Fetch();
      Decode();
      Execute();
      Memory();
      Writeback();
      ProgramCounter();
    }
  }
}
