# Y86-64 sequential simulator, modelled in Dafny

This project models the core of a Y86-64 simulator, in two versions:

- **Rust version.** `src/isa.rs` holds the instruction set: the register, condition, operator and instruction-family enumerations, their byte conversions, the `Y86` instruction type and its byte encoder. `src/cpu.rs` holds the sequential CPU. Its six stages (fetch, decode, execute, memory, writeback, program counter) mutate one `CPU` record. `src/lib.rs:11-16` runs the stages in that order.
- **C version** (`cy86/cpu.c`). The same six stages over a `CPU*`. It shares the enumerations but departs from the Rust version in several places.

The Dafny modules:

- `Isa` (`isa.dfy`) models `src/isa.rs` as pure functions. A `u8` is a `Byte` and a `u64` a `Word`, both integers in range, with every wrap-around written out.
  - The encoder is proved to be length-correct, field-correct and injective.
  - The little-endian byte order used by both CPUs is proved to round-trip.
  - The 1024-byte memory is a `seq<Byte>` with `Load` and `Store`.
- `RustCpu` (`rust_cpu.dfy`) models `src/cpu.rs` in two layers:
  - a pure stage function per stage on a `Machine` value, each stating its frame;
  - a `class Cpu` whose fields are the `CPU` fields and whose memory is an `array<Byte>`. Each stage is a method proved equal to the stage function on the class's snapshot. The byte loops of the loads and stores are `for` loops with invariants.
  - `Next` is one pass of the driver loop; `Cpu.Step` runs the six methods in the `lib.rs` order.
- `CCpu` (`c_cpu.dfy`) models `cy86/cpu.c` in the same two layers. Its register file is an `array<Word>` of 15 slots, as the C code treats `RegFile`. Its word load reads the eight bytes as one value, and its word store is a `forall` statement over the eight bytes.
- `RustProperties` and `CProperties` (`rust_properties.dfy`, `c_properties.dfy`) hold one lemma per instruction family giving the effect of one step. For HALT and NOOP the lemma gives the whole next machine. For the other families it gives the registers, flags, memory and pc, and for CMOV and J also `cnd`. An opcode outside the twelve families gets a lemma of its own in the C model (the Rust model excludes it, because it reaches `unreachable_unchecked`). The modules also hold multi-step and cross-version lemmas:
  - push then pop;
  - call then return;
  - store then load;
  - the two versions' condition and operator tables agree, and where they differ from the instruction set's;
  - a corrected CMOV that evaluates its own condition;
  - how the two overflow rules differ.
- `Reference` (`reference.dfy`) gives the Y86-64 arithmetic and condition codes as section 4.1 of Bryant and O'Hallaron, "Computer Systems: A Programmer's Perspective" (3rd ed.), defines them. It proves what the flags mean: OF is signed overflow, and each condition is a signed comparison. It is the corrected side of most findings below; the corrected CMOV is in `RustProperties`.

Both CPU models reproduce the code **as written**, including its departures from the instruction set. Each departure is named next to its definition, exhibited by a lemma, and listed under "## Findings". Undefined behaviour and debug-build panics become preconditions. `FetchOk`, `ExecuteOk`, `MemoryOk`, `StepOk`, and in the C model `DecodeOk` and `WritebackOk`, state exactly when a stage is defined.

## Model

| member | source | states |
|---|---|---|
| Isa.WrapIsResidue | src/cpu.rs:293 | the explicit wrap-around of a sum or difference of two words is the value modulo 2^64, as `wrapping_add`/`wrapping_sub` and C unsigned arithmetic compute it |
| Isa.PackNibbles | src/isa.rs:156 | packing `hi << 4 \| lo` and splitting with `& 0xf0 >> 4` and `& 0x0f` recovers both nibbles |
| Isa.AndBits | src/cpu.rs:293 | bitwise AND of two words never exceeds its first operand |
| Isa.XorBits | src/cpu.rs:293 | bitwise XOR of n-bit values stays below 2^n, so it is a word |
| Isa.BitsCommute | src/cpu.rs:293 | bitwise AND and XOR of n-bit values do not depend on the order of the operands |
| Isa.BitsSelf | src/cpu.rs:293 | an n-bit value ANDed with itself is itself, and XORed with itself is 0 |
| Isa.BitWordLaws | src/cpu.rs:293 | on words, `a & b == b & a`, `a ^ b == b ^ a`, `a & a == a` and `a ^ a == 0` |
| Isa.RegisterCode | src/isa.rs:24-28 | every register converts to a byte in 0x0..0xe, never the absent-register nibble 0xf |
| Isa.RegisterOf | src/isa.rs:30-34 | the byte-to-register conversion is defined on 0..0xe only (the transmute is undefined elsewhere) and inverts `RegisterCode` there |
| Isa.RegisterRoundTrip | src/isa.rs:24-34 | converting a register to its byte and back returns the register |
| Isa.CondCode | src/isa.rs:49-53 | every condition converts to a byte in 0..6 |
| Isa.CondOf | src/isa.rs:55-68 | the byte-to-condition conversion is defined exactly on 0..6 (the rest is unreachable) and inverts `CondCode` |
| Isa.CondRoundTrip | src/isa.rs:49-68 | condition to byte and back is the identity |
| Isa.OpCode | src/isa.rs:80-84 | every operator converts to a byte in 0..3 |
| Isa.OpOf | src/isa.rs:86-96 | the byte-to-operator conversion is defined exactly on 0..3 and inverts `OpCode` |
| Isa.OpRoundTrip | src/isa.rs:80-96 | operator to byte and back is the identity |
| Isa.FamilyCode | src/isa.rs:100-114 | each instruction family's value has low nibble 0 and high nibble at most 0xb |
| Isa.FamilyOf | src/cpu.rs:135 | the family selected by an opcode's high nibble (0x0..0xb) is the one whose value is that nibble shifted up |
| Isa.FamilyRoundTrip | src/isa.rs:100-114 | a family value plus any function code in its low nibble selects the family again and keeps the function code |
| Isa.LeValueSnoc | src/cpu.rs:157-160 | appending a byte to a little-endian accumulation adds that byte shifted into the next lane, which is the step of the load loop |
| Isa.LeBytesAt | src/cpu.rs:331 | byte i of the little-endian encoding is `(v >> 8i) & 0xff` |
| Isa.LeValueOfBytes | src/isa.rs:147 | decoding the n little-endian bytes of a value below 256^n returns the value |
| Isa.LeBytesOfValue | src/isa.rs:147 | encoding the decoded value of n bytes gives back the same bytes |
| Isa.ReadLeBytes | src/isa.rs:147 | reading a word's 8 encoded bytes back little-endian returns the word |
| Isa.LeBytesRead | src/cpu.rs:331 | storing a loaded word writes back the same 8 bytes |
| Isa.ReadLE | src/isa.rs:147 | definition: the little-endian value of 8 bytes, a word; properties in Isa.LeBytesRead, Isa.ReadLeBytes and Isa.LeBytesInjective |
| Isa.Load | src/cpu.rs:334-340 | definition: the 8 bytes at [a, a+8) read little-endian; properties in Isa.LoadBytes, Isa.LoadOfStore and Isa.LoadPastStore |
| Isa.LoadBytes | src/cpu.rs:334-340 | writing a loaded word back little-endian gives exactly the 8 bytes it was loaded from |
| Isa.LeBytesInjective | src/isa.rs:147 | two words with the same 8-byte encoding are equal |
| Isa.ByteSumLosesLanes | src/cpu.rs:159 | the release-build byte sum loads 0x100 as 1, while the little-endian read loads 0x100 |
| Isa.Encode | src/isa.rs:131-199 | definition of the encoder; properties in Isa.EncodeLength, Isa.EncodeOpcodeByte, Isa.EncodeRegisterByte, Isa.EncodeLiteral and Isa.EncodeInjective |
| Isa.EncodeLength | src/isa.rs:131-199 | encoded length, in both directions: 1 byte for HALT/NOOP/RET, 2 for OPQ/PUSHQ/POPQ, 3 for CMOV, 9 for J/CALL, 10 for IRMOVQ/RMMOVQ/MRMOVQ |
| Isa.EncodeOpcodeByte | src/isa.rs:131-199 | byte 0's high nibble is the family value and selects the family back; its low nibble is the condition (CMOV, J), the operator (OPQ) or 0 |
| Isa.EncodeRegisterByte | src/isa.rs:131-199 | register byte is `rA<<4\|rB` for RMMOVQ/MRMOVQ/OPQ, `0xf0\|rB` for IRMOVQ, `rA<<4\|0xf` for PUSHQ/POPQ; CMOV emits rA and rB as two separate bytes |
| Isa.EncodeLiteral | src/isa.rs:145-186 | the 8-byte literal follows the prefix (at offset 2, or 1 for J/CALL) as the word's little-endian bytes, and reads back as the literal |
| Isa.LiteralAfterRegisters | src/isa.rs:145-167 | for IRMOVQ, RMMOVQ and MRMOVQ the bytes after the register byte are the literal and read back as it |
| Isa.LiteralAfter | src/isa.rs:147-149 | a literal appended after any prefix is recovered from the bytes after the prefix |
| Isa.EncodeInjective | src/isa.rs:131-199 | two instructions with the same encoding are the same instruction |
| Isa.RegisterFormsInjective | src/isa.rs:141-144 | CMOV, OPQ, PUSHQ and POPQ encodings of one family determine their fields |
| Isa.RegisterCodeInjective | src/isa.rs:24-28 | distinct registers have distinct codes |
| Isa.CondCodeInjective | src/isa.rs:143 | distinct conditions give distinct CMOV and J opcode bytes |
| Isa.OpCodeInjective | src/isa.rs:172 | distinct operators give distinct OPQ opcode bytes |
| Isa.PackInjective | src/isa.rs:156 | the packed register byte determines both nibbles |
| Isa.LiteralFormsInjective | src/isa.rs:145-186 | IRMOVQ, RMMOVQ, MRMOVQ, J and CALL encodings of one family determine their fields |
| Isa.EncodePackedInjective | src/isa.rs:141-144 | the encoding with CMOV's registers packed into one byte, as fetch reads it, is injective too |
| Isa.Store | src/cpu.rs:329-333 | a store leaves memory 1024 bytes long, writes the word's little-endian bytes at [a, a+8), and changes no other byte |
| Isa.LoadOfStore | src/cpu.rs:329-340 | loading from the address just stored returns the stored word |
| Isa.LoadPastStore | src/cpu.rs:329-340 | a load from an address range disjoint from the store returns the old word |
| Reference.Signed | src/cpu.rs:302 | the two's-complement reading of a word lies in [-2^63, 2^63), and is negative exactly when bit 63 is set |
| Reference.CodesOf | src/cpu.rs:299-304 | corrected condition codes: ZF holds exactly when the result is 0, SF exactly when it is negative |
| Reference.AddOverflowIsExact | src/cpu.rs:295 | corrected OF for addition holds exactly when the signed sum is not representable |
| Reference.SubOverflowIsExact | src/cpu.rs:296 | corrected OF for subtraction (rB - rA) holds exactly when the signed difference is not representable |
| Reference.ConditionsCompare | src/cpu.rs:306-317 | after `subq rA, rB` each corrected condition holds exactly when the signed comparison of rB with rA does (L is SF xor OF) |
| RustCpu.RegFile.Get | src/cpu.rs:31-52 | definition: the field of each register; its properties with `Set` are in RustCpu.RegFile.Set |
| RustCpu.RegFile.Set | src/cpu.rs:54-74 | writing register r then reading r gives the value; the other 14 registers are unchanged |
| RustCpu.Initial | src/cpu.rs:99-121 | the default CPU reads 0 from every register, has 1024 zero bytes of memory, pc 0, `stat` false, HALT as current family and all flags clear |
| RustCpu.FetchOk | src/cpu.rs:133-248 | definition of when fetch is defined: the bytes read lie in memory, the family is one of the twelve, and each converted nibble is a valid register, condition or operator; precondition of RustCpu.FetchStage; properties in RustProperties.FetchDecodesEncoding |
| RustCpu.FetchStage | src/cpu.rs:133-248 | fetch sets the family from the opcode's high nibble and changes only the fetch outputs; registers, flags, memory and pc are kept |
| RustCpu.CmovArm | src/cpu.rs:144-152 | definition of the CMOV arm; properties in RustProperties.FetchDecodesCmov and RustCpu.Cpu.FetchCmov |
| RustCpu.IrmovqArm | src/cpu.rs:153-166 | definition of the IRMOVQ arm; properties in RustProperties.FetchDecodesMove and RustCpu.Cpu.FetchIrmovq |
| RustCpu.MoveArm | src/cpu.rs:167-196 | definition of the RMMOVQ and MRMOVQ arms; properties in RustProperties.FetchDecodesMove and RustCpu.Cpu.FetchMove |
| RustCpu.OpqArm | src/cpu.rs:197-205 | definition of the OPQ arm; properties in RustProperties.FetchDecodesRegisters, RustProperties.FetchAdvances and RustCpu.Cpu.FetchOpq |
| RustCpu.JumpArm | src/cpu.rs:206-217 | definition of the J arm; properties in RustProperties.FetchDecodesTarget and RustCpu.Cpu.FetchJump |
| RustCpu.CallArm | src/cpu.rs:218-227 | definition of the CALL arm; properties in RustProperties.FetchDecodesTarget and RustCpu.Cpu.FetchCall |
| RustCpu.StackArm | src/cpu.rs:232-245 | definition of the PUSHQ and POPQ arms; properties in RustProperties.FetchDecodesRegisters and RustCpu.Cpu.FetchStack |
| RustCpu.DecodeStage | src/cpu.rs:250-283 | decode changes only valA and valB |
| RustCpu.ExecuteOk | src/cpu.rs:291-322 | definition of when execute does not hit a debug-build overflow panic of `+` or `-`; precondition of RustCpu.ExecuteStage |
| RustCpu.Alu | src/cpu.rs:293 | definition of the operator table; properties in RustProperties.AluAgainstReference and CProperties.AluTablesAgree |
| RustCpu.CondHolds | src/cpu.rs:306-317 | definition of the condition table; properties in RustProperties.CondHoldsAgainstReference, RustProperties.LessAsWritten and CProperties.CondTablesAgree |
| RustCpu.OpqFlags | src/cpu.rs:293-305 | after OPQ, ZF is the old ZF or result 0 and SF the old SF or bit 63: both are set-only; OF changes only for Add and Sub |
| RustCpu.ExecuteStage | src/cpu.rs:285-325 | execute leaves registers, memory and pc unchanged |
| RustCpu.MemoryOk | src/cpu.rs:327-367 | definition of when the memory stage stays in bounds: the 8 bytes it reads or writes lie in memory; precondition of RustCpu.MemoryStage |
| RustCpu.MemoryStage | src/cpu.rs:327-367 | the memory stage leaves registers, flags and pc unchanged and memory 1024 bytes long |
| RustCpu.WritebackStage | src/cpu.rs:369-385 | writeback changes only the register file |
| RustCpu.PcStage | src/cpu.rs:387-402 | the program-counter stage changes only pc |
| RustCpu.StepOk | src/lib.rs:11-16 | definition: each of the six stages of one pass is defined; precondition of RustCpu.Next |
| RustCpu.Next | src/lib.rs:11-16 | one pass of the six stages in loop order keeps the memory 1024 bytes long; per-family effects in the RustProperties step lemmas |
| RustCpu.Cpu.constructor | src/cpu.rs:99-121 | the default CPU has zeroed registers, flags, 1024-byte memory, pc and scratch, HALT as current family, and `stat` false |
| RustCpu.Cpu.LoadWord | src/cpu.rs:157-160 | the 8-iteration load loop returns the little-endian word at the address |
| RustCpu.Cpu.StoreWord | src/cpu.rs:329-333 | the 8-iteration store loop writes the word little-endian at [a, a+8) and nothing else |
| RustCpu.Cpu.Fetch | src/cpu.rs:133-248 | the fetch method leaves the CPU in the fetch-stage state |
| RustCpu.Cpu.FetchCmov | src/cpu.rs:144-152 | CMOV arm: condition from the low nibble, rA and rB from the packed byte, valP = pc + 2 |
| RustCpu.Cpu.FetchIrmovq | src/cpu.rs:153-166 | IRMOVQ arm: rB from the low nibble, valC the literal at pc + 2, valP = pc + 10 |
| RustCpu.Cpu.FetchMove | src/cpu.rs:167-196 | RMMOVQ/MRMOVQ arm: rA, rB, valC the displacement at pc + 2, valP = pc + 10 |
| RustCpu.Cpu.FetchOpq | src/cpu.rs:197-205 | OPQ arm: op, rA and rB set; valP is not assigned |
| RustCpu.Cpu.FetchJump | src/cpu.rs:206-217 | J arm: condition, valC the target at pc + 1, valP = pc + 9 |
| RustCpu.Cpu.FetchCall | src/cpu.rs:218-227 | CALL arm: valC the target at pc + 1, valP = pc + 9 |
| RustCpu.Cpu.FetchStack | src/cpu.rs:232-245 | PUSHQ/POPQ arm: rA from the high nibble, valP = pc + 2 |
| RustCpu.Cpu.Decode | src/cpu.rs:250-283 | the decode method leaves the CPU in the decode-stage state |
| RustCpu.Cpu.Execute | src/cpu.rs:285-325 | the execute method leaves the CPU in the execute-stage state |
| RustCpu.Cpu.ExecuteOpq | src/cpu.rs:292-305 | the OPQ arm of execute computes valE and the flags as the execute stage does |
| RustCpu.Cpu.Memory | src/cpu.rs:327-367 | the memory method leaves the CPU in the memory-stage state |
| RustCpu.Cpu.Writeback | src/cpu.rs:369-385 | the writeback method leaves the CPU in the writeback-stage state |
| RustCpu.Cpu.ProgramCounter | src/cpu.rs:387-402 | the program-counter method leaves the CPU in the pc-stage state |
| RustCpu.Cpu.Step | src/lib.rs:11-16 | running the six stage methods in order performs exactly one `Next` step |
| RustProperties.FetchAdvances | src/cpu.rs:133-245 | fetch sets valP to pc + 1 (HALT, NOOP, RET), + 2 (CMOV, PUSHQ, POPQ), + 9 (J, CALL), + 10 (IRMOVQ, RMMOVQ, MRMOVQ); OPQ leaves valP as it was |
| RustProperties.PackedLengthIsFetched | src/cpu.rs:133-245 | the length of each packed encoding is the distance fetch advances for its family |
| RustProperties.FetchDecodesEncoding | src/cpu.rs:145-222 | fetching the packed encoding of any instruction recovers its family, condition or operator, registers and literal, and advances valP past it (except OPQ) |
| RustProperties.FetchDecodesCmov | src/cpu.rs:144-152 | fetch recovers a packed CMOV |
| RustProperties.FetchDecodesRegisters | src/cpu.rs:197-245 | fetch recovers an encoded OPQ, PUSHQ or POPQ |
| RustProperties.FetchDecodesMove | src/cpu.rs:153-196 | fetch recovers an encoded IRMOVQ, RMMOVQ or MRMOVQ |
| RustProperties.FetchDecodesTarget | src/cpu.rs:206-227 | fetch recovers an encoded J or CALL |
| RustProperties.CmovEncodingAsWritten | src/isa.rs:143 | the encoder's 3-byte CMOV is fetched as 2 bytes: `cmovq rax, rbx` reads as rA = rB = RAX and leaves the rB byte to be executed next |
| RustProperties.HaltStep | src/cpu.rs:287 | HALT only clears `stat`, sets pc to 0 and records the fetch outputs |
| RustProperties.NoopStep | src/cpu.rs:390 | NOOP only advances pc by 1 |
| RustProperties.CmovStep | src/cpu.rs:371 | CMOV copies rA to rB when the stale `cnd` holds; `cnd`, flags and memory are unchanged and pc advances by 2 |
| RustProperties.IrmovqStep | src/cpu.rs:372 | IRMOVQ writes the literal to rB and advances pc by 10; flags and memory unchanged |
| RustProperties.RmmovqStep | src/cpu.rs:329-333 | RMMOVQ stores rA at rB + displacement, registers and flags unchanged, pc + 10 |
| RustProperties.MrmovqStep | src/cpu.rs:373 | MRMOVQ loads from rB + displacement into rA, memory and flags unchanged, pc + 10 |
| RustProperties.OpqStep | src/cpu.rs:395 | OPQ writes `rA op rB` to rB and sets the flags as `OpqFlags`; pc jumps to the stale valP |
| RustProperties.JumpStep | src/cpu.rs:396 | J evaluates the condition table on the flags and goes to the target if it holds, else to pc + 9; registers, flags and memory unchanged |
| RustProperties.CallStep | src/cpu.rs:341-345 | CALL needs RSP ≥ 8, sets RSP -= 8, stores pc + 9 there and jumps to the target |
| RustProperties.RetStep | src/cpu.rs:346-352 | RET loads pc from old RSP and sets RSP += 8; memory and flags unchanged |
| RustProperties.PushqStep | src/cpu.rs:353-357 | PUSHQ sets RSP -= 8 and stores rA there; pc + 2 |
| RustProperties.PopqStep | src/cpu.rs:379-382 | POPQ loads from old RSP into rA after setting RSP += 8, so popping into RSP leaves the loaded value in RSP |
| RustProperties.FlagsOnlyByOpq | src/cpu.rs:292-305 | no instruction but OPQ changes the flags |
| RustProperties.MemoryFrame | src/cpu.rs:327-367 | only RMMOVQ, CALL and PUSHQ write memory, and only the 8 bytes at their effective address |
| RustProperties.PushThenPop | src/cpu.rs:353-364 | a PUSHQ followed by a POPQ copies the pushed value into the popped register and restores RSP |
| RustProperties.CallThenRet | src/cpu.rs:341-352 | a RET reached with the CALL's stack slot intact returns to the CALL's pc + 9 and restores RSP |
| RustProperties.StoreThenLoad | src/cpu.rs:329-340 | RMMOVQ then MRMOVQ at the same effective address loads the stored value |
| RustProperties.LessAsWritten | src/cpu.rs:311 | after `subq` of 2 from 1 the corrected L holds, but the as-written L (`sf && zf`) does not |
| RustProperties.AddOverflowAsWritten | src/cpu.rs:295 | 0x7fff_ffff_ffff_ffff + 1 overflows, but the as-written OF stays clear |
| RustProperties.SubOverflowAsWritten | src/cpu.rs:296 | the as-written OF is set for 0 - 1, which does not overflow |
| RustProperties.ZeroFlagAsWritten | src/cpu.rs:299-301 | a set ZF stays set after an addition with a non-zero result |
| RustProperties.SubtractionOrderAsWritten | src/cpu.rs:293 | OPQ Sub computes valA - valB (-2 for 1 and 3) where `subq` computes rB - rA (2) |
| RustProperties.AluAgainstReference | src/cpu.rs:293 | the operator table equals the instruction set's for ADD, AND and XOR, and for SUB computes the instruction set's result with the operands exchanged |
| RustProperties.CondHoldsAgainstReference | src/cpu.rs:306-317 | the condition table equals the instruction set's for unconditional, E and NE; with OF clear also for LE and G, and for GE unless SF and ZF are both set; with OF clear, L differs exactly when SF is set and ZF clear |
| RustProperties.CorrectedExecute | src/cpu.rs:289 | the corrected execute differs from execute only for CMOV, where it evaluates the CMOV's own condition on the flags; it keeps memory and the current family |
| RustProperties.CorrectedCmovStep | src/cpu.rs:371 | with the corrected execute, CMOV copies rA to rB exactly when its own condition holds on the current flags; flags and memory are unchanged and pc advances by 2 |
| RustProperties.CorrectedAgreesElsewhere | src/cpu.rs:285-325 | the corrected step equals `Next` for every instruction but CMOV |
| RustProperties.JumpThenCmovAsWritten | src/cpu.rs:371 | after `jmp`, a `cmovle` with SF, ZF and OF clear writes rB although LE does not hold, where the corrected CMOV leaves the registers unchanged |
| CCpu.GetReg | cy86/cpu.c:46-48 | definition: slot `index` of the register array; properties with `set_reg` in CCpu.SetReg |
| CCpu.Initial | cy86/cpu.c:3-44 | `default_cpu` reads 0 from all 15 register slots, has 1024 zero bytes of memory, pc 0, `stat` false, HALT as current family and all flags clear |
| CCpu.FetchOk | cy86/cpu.c:54-138 | definition of when fetch is defined: every byte it reads lies in memory; precondition of CCpu.FetchStage |
| CCpu.SetReg | cy86/cpu.c:50-52 | `set_reg` writes exactly slot `index` of the register array |
| CCpu.UpperBits | cy86/cpu.c:72 | `regs & 0xf0` is the high nibble times 16, not shifted down |
| CCpu.OpqFlags | cy86/cpu.c:212-220 | ZF and SF are set-only; OF changes only for add (0) and sub (1) |
| CCpu.FetchStage | cy86/cpu.c:54-138 | fetch changes only the fetch outputs |
| CCpu.CmovArm | cy86/cpu.c:67-74 | definition of the CMOV arm; properties in CProperties.FetchSplitsRegisters and CCpu.CCpu.FetchCmov |
| CCpu.IrmovqArm | cy86/cpu.c:75-83 | definition of the IRMOVQ arm; properties in CProperties.IrmovqEncodingAsWritten and CCpu.CCpu.FetchIrmovq |
| CCpu.MoveArm | cy86/cpu.c:84-99 | definition of the RMMOVQ and MRMOVQ arms; properties in CProperties.FetchDropsDisplacement and CCpu.CCpu.FetchMove |
| CCpu.OpqArm | cy86/cpu.c:100-107 | definition of the OPQ arm; properties in CProperties.FetchAdvances and CCpu.CCpu.FetchOpq |
| CCpu.JumpArm | cy86/cpu.c:108-113 | definition of the J arm; properties in CProperties.FetchAdvances and CCpu.CCpu.FetchJump |
| CCpu.CallArm | cy86/cpu.c:114-118 | definition of the CALL arm; properties in CProperties.FetchAdvances and CCpu.CCpu.FetchCall |
| CCpu.StackArm | cy86/cpu.c:123-136 | definition of the PUSHQ and POPQ arms; properties in CProperties.FetchSplitsRegisters and CCpu.CCpu.FetchStack |
| CCpu.DecodeOk | cy86/cpu.c:140-173 | definition of when decode is defined: every register slot it reads exists; precondition of CCpu.DecodeStage |
| CCpu.DecodeStage | cy86/cpu.c:140-173 | decode changes only valA and valB |
| CCpu.ExecuteOk | cy86/cpu.c:192 | definition: `actions[op]` reads one of the four table entries; precondition of CCpu.ExecuteStage |
| CCpu.Alu | cy86/cpu.c:175-192 | definition of the `actions` table; properties in CProperties.AluTablesAgree |
| CCpu.CondHolds | cy86/cpu.c:226-248 | definition of the condition switch; properties in CProperties.CondTablesAgree |
| CCpu.ExecuteStage | cy86/cpu.c:191-265 | execute leaves registers, memory and pc unchanged |
| CCpu.MemoryOk | cy86/cpu.c:267-290 | definition: the 8 bytes behind each `u64*` cast lie in memory; precondition of CCpu.MemoryStage |
| CCpu.MemoryStage | cy86/cpu.c:267-290 | the memory stage leaves registers, flags and pc unchanged and memory 1024 bytes long |
| CCpu.WritebackOk | cy86/cpu.c:292-323 | definition of when writeback is defined: every register slot it writes exists; precondition of CCpu.WritebackStage |
| CCpu.WritebackStage | cy86/cpu.c:292-323 | writeback changes only the register array and keeps its 15 slots |
| CCpu.PcStage | cy86/cpu.c:325-369 | the program-counter stage changes only pc |
| CCpu.StepOk | cy86/cpu.c:373-379 | definition: each of the six stages of one pass is defined; precondition of CCpu.Next |
| CCpu.Next | cy86/cpu.c:373-379 | one pass of the stages keeps 15 registers and 1024 bytes of memory |
| CCpu.UpdateFlags | cy86/cpu.c:212-220 | the flag-update statements compute `OpqFlags` |
| CCpu.CCpu.constructor | cy86/cpu.c:3-44 | `default_cpu` zeroes registers, flags, memory, pc and scratch, with HALT current and `stat` false |
| CCpu.CCpu.StoreWord | cy86/cpu.c:270 | the `u64*` cast store writes the word little-endian at [a, a+8) and nothing else |
| CCpu.CCpu.Fetch | cy86/cpu.c:54-138 | the fetch function leaves the CPU in the fetch-stage state |
| CCpu.CCpu.FetchCmov | cy86/cpu.c:67-74 | CMOV arm: condition, rA = high nibble, rB = unshifted `regs & 0xf0`, valP = pc + 2 |
| CCpu.CCpu.FetchIrmovq | cy86/cpu.c:75-83 | IRMOVQ arm: rB unshifted, valC the literal at pc + 2, valP = pc + 10 |
| CCpu.CCpu.FetchMove | cy86/cpu.c:84-99 | RMMOVQ/MRMOVQ arm: rA, rB unshifted, the literal read but not kept, valP = pc + 10 |
| CCpu.CCpu.FetchOpq | cy86/cpu.c:100-107 | OPQ arm: op, rA, rB unshifted, valP = pc + 2 |
| CCpu.CCpu.FetchJump | cy86/cpu.c:108-113 | J arm: condition, valC the target at pc + 1, valP = pc + 9 |
| CCpu.CCpu.FetchCall | cy86/cpu.c:114-118 | CALL arm: valC the target at pc + 1, valP = pc + 9 |
| CCpu.CCpu.FetchStack | cy86/cpu.c:123-136 | PUSHQ/POPQ arm: rA, rB unshifted, valP = pc + 2 |
| CCpu.CCpu.Decode | cy86/cpu.c:140-173 | the decode function leaves the CPU in the decode-stage state |
| CCpu.CCpu.Execute | cy86/cpu.c:191-265 | the execute function leaves the CPU in the execute-stage state |
| CCpu.CCpu.ExecuteOpq | cy86/cpu.c:210-221 | the OPQ case computes valE through the operator table and the flags as the execute stage does |
| CCpu.CCpu.Memory | cy86/cpu.c:267-290 | the memory function leaves the CPU in the memory-stage state |
| CCpu.CCpu.Writeback | cy86/cpu.c:292-323 | the writeback function leaves the CPU in the writeback-stage state |
| CCpu.CCpu.ProgramCounter | cy86/cpu.c:325-369 | the program-counter function leaves the CPU in the pc-stage state |
| CCpu.CCpu.Step | cy86/cpu.c:373-379 | running the six functions in order performs exactly one `Next` step |
| CProperties.FetchAdvances | cy86/cpu.c:54-138 | fetch sets the family and valP = pc + 1, 2, 9 or 10 as the family's length, OPQ included; an opcode with high nibble above 0xb changes nothing |
| CProperties.FetchSplitsRegisters | cy86/cpu.c:72 | rB is the unshifted high nibble, a valid register exactly when that nibble is 0, and then RAX; rA is the high nibble |
| CProperties.FetchDropsDisplacement | cy86/cpu.c:84-99 | RMMOVQ and MRMOVQ fetch leaves valC at its previous value |
| CProperties.IrmovqEncodingAsWritten | cy86/cpu.c:78 | no encoded IRMOVQ can be executed: its 0xf high nibble makes rB 0xf0, beyond the register file |
| CProperties.HaltStep | cy86/cpu.c:197-199 | HALT clears `stat` and sets pc to 0 |
| CProperties.NoopStep | cy86/cpu.c:63-66 | NOOP changes nothing but the fetch outputs and pc, which moves to the next byte |
| CProperties.UnknownOpcodeStep | cy86/cpu.c:54-138 | an opcode with high nibble above 0xb leaves fetch without effect, so the later stages rerun the previous instruction's fields: a HALT halts again, a NOOP jumps to its old valP |
| CProperties.CmovStep | cy86/cpu.c:294-296 | an executable CMOV moves RAX to RAX: registers, `cnd`, flags and memory unchanged, pc + 2 |
| CProperties.IrmovqStep | cy86/cpu.c:298-299 | an executable IRMOVQ writes the literal to RAX; pc + 10 |
| CProperties.RmmovqStep | cy86/cpu.c:269-270 | an executable RMMOVQ stores RAX at RAX + the stale valC |
| CProperties.MrmovqStep | cy86/cpu.c:272-273 | an executable MRMOVQ loads RAX from RAX + the stale valC |
| CProperties.OpqStep | cy86/cpu.c:210-221 | an executable OPQ writes `RAX op RAX` to RAX, sets the flags by `OpqFlags` and advances pc by 2 |
| CProperties.JumpStep | cy86/cpu.c:222-249 | J evaluates the condition table (a condition above 6 keeps the old `cnd`) and goes to the target or pc + 9 |
| CProperties.CallStep | cy86/cpu.c:275-277 | CALL sets RSP -= 8 with wrap-around, stores the stale valA there and jumps to the target |
| CProperties.RetStep | cy86/cpu.c:278-280 | RET loads pc from old RSP and sets RSP += 8 |
| CProperties.PushqStep | cy86/cpu.c:281-283 | PUSHQ sets RSP -= 8 and stores rA there; pc + 2 |
| CProperties.PopqStep | cy86/cpu.c:316-318 | POPQ sets RSP += 8, then loads the old top into rA |
| CProperties.PushThenPop | cy86/cpu.c:281-286 | a PUSHQ followed by a POPQ copies the pushed register into the popped one and restores RSP |
| CProperties.StackSlot | cy86/cpu.c:251 | when RSP - 8 is a valid address, the wrap-around is not taken and adding 8 back restores RSP |
| CProperties.PoppedSlot | cy86/cpu.c:282-285 | the word stored at RSP - 8 is loaded back from there |
| CProperties.CallThenRet | cy86/cpu.c:275-280 | a RET reached with the CALL's slot intact returns to the stale valA the CALL stored, not to the CALL's valP |
| CProperties.CondTablesAgree | cy86/cpu.c:226-248 | the C condition table equals the Rust one on every condition 0..6 |
| CProperties.AluTablesAgree | cy86/cpu.c:192 | the C operator table equals the Rust one on every operator 0..3 |
| CProperties.AddOverflowIsCarry | cy86/cpu.c:213 | in both versions OF after an addition is the unsigned carry out, not signed overflow |
| CProperties.SubOverflowRules | cy86/cpu.c:215 | Rust OF after Sub is a < b; C OF is a < b or a - b > b |
| CProperties.SubOverflowPortsDiffer | cy86/cpu.c:215 | on 3 - 1 the C OF is set, the Rust OF is clear, and no signed overflow occurs |

## Left out

- The driver loops (`src/lib.rs:8-21`, `cy86/cpu.c:371-383`) are modelled as one step, `Next`, with the stages in loop order. Since `stat` starts false, both loops stop after one pass.
- Host endianness: the `u64*` cast and `transmute` loads and stores are modelled little-endian.
- Unaligned access: the C casts of `memory + offset` to `u64*` are treated as plain little-endian accesses. Alignment and strict-aliasing undefined behaviour are not modelled.
- Undefined behaviour and panics are preconditions, not modelled outcomes:
  - `unreachable_unchecked` in fetch and in the condition and operator conversions;
  - the register `transmute` of a nibble 0xf;
  - out-of-bounds memory and register indexing;
  - `actions[op]` with op above 3;
  - the debug-build overflow panics of the plain `+` and `-` in the Rust execute stage.
- The Rust 8-byte literal loads shift a byte before widening it. A debug build panics there; a release build adds up the bytes. The Rust model gives these loads their evident little-endian meaning, through the one `ReadLE` definition, and records the release behaviour as a finding.
- `cy86/cpu.h` and `cy86/types.h` are used for field and enumeration names only.
- Word arithmetic: wrap-around is written out only for sums and differences of two words. The other operations, AND and XOR, are defined bit by bit on 64 bits and stay within a word by construction.

## Findings

| source | as written | input that shows it | evidently intended | confidence | as-written member | corrected member |
|---|---|---|---|---|---|---|
| src/cpu.rs:311 | condition L is `sf && zf` (also cy86/cpu.c:234) | flags SF = 1, ZF = 0, OF = 0, which the instruction set's `subq` of 2 from 1 leaves: `jl` is not taken. The as-written subtraction order computes 1 there, with SF clear, so both defects act on this input | L is SF xor OF, signed less | not executed | RustProperties.LessAsWritten | Reference.ConditionsCompare |
| src/cpu.rs:295 | OF after Add compares the result with valA twice, so it is the unsigned carry (also cy86/cpu.c:213) | 0x7fff_ffff_ffff_ffff + 1: signed overflow, OF clear | OF is signed overflow | not executed | RustProperties.AddOverflowAsWritten | Reference.AddOverflowIsExact |
| src/cpu.rs:296 | OF after Sub is set when the result exceeds valA | 0 - 1 sets OF, though no overflow occurs | OF is signed overflow of rB - rA | not executed | RustProperties.SubOverflowAsWritten | Reference.SubOverflowIsExact |
| cy86/cpu.c:215 | OF after Sub is set when the result exceeds either operand | 3 - 1: C sets OF; Rust and the definition do not | OF is signed overflow of rB - rA | not executed | CProperties.SubOverflowPortsDiffer | Reference.SubOverflowIsExact |
| src/cpu.rs:299-304 | ZF and SF are only ever set, never cleared (also cy86/cpu.c:217-220) | addition 1 + 1 with ZF already set leaves ZF set | each OPQ recomputes ZF and SF from its result | not executed | RustProperties.ZeroFlagAsWritten | Reference.CodesOf |
| src/cpu.rs:293 | OPQ computes valA op valB, so Sub is rA - rB | `subq` with rA = 1, rB = 3 gives -2 | `subq rA, rB` computes rB - rA | not executed | RustProperties.SubtractionOrderAsWritten | Reference.ConditionsCompare |
| src/isa.rs:143 | the CMOV encoder emits 3 bytes with rA and rB in separate bytes; fetch reads one packed byte and advances 2 | `cmovq rax, rbx` encodes as 20 00 03 and is fetched as rA = rB = RAX, with 03 left as the next opcode | CMOV packs `rA<<4 \| rB` in one byte, 2 bytes in all | not executed | RustProperties.CmovEncodingAsWritten | RustProperties.FetchDecodesEncoding |
| src/cpu.rs:159 | the literal loads shift a byte by 8i before widening: a debug panic, and a release sum of the bytes | the word 0x100 loads as 1 | little-endian load | not executed | Isa.ByteSumLosesLanes | Isa.ReadLeBytes |
| src/cpu.rs:197-205 | the OPQ fetch arm never sets valP, so the pc stage jumps to a stale valP | OPQ at pc 0 in a fresh machine leaves pc at 0 | valP = pc + 2 | not executed | RustProperties.OpqStep | CProperties.FetchAdvances |
| src/cpu.rs:371 | CMOV's `cnd` is never computed; only J assigns it | `jmp` followed by `cmovle` with SF, ZF and OF clear: the jump leaves `cnd` set, so the move happens although LE does not hold | CMOV evaluates its own condition on the flags | not executed | RustProperties.JumpThenCmovAsWritten | RustProperties.CorrectedCmovStep |
| cy86/cpu.c:72 | rB is `regs & 0xf0`, unshifted (also lines 78, 88, 96, 105, 127, 134) | any encoded IRMOVQ gives rB = 0xf0 and writes outside the register file | rB = `regs & 0x0f` | not executed | CProperties.IrmovqEncodingAsWritten | RustProperties.FetchDecodesEncoding |
| cy86/cpu.c:89 | RMMOVQ and MRMOVQ read the displacement into a local and never assign valC (also line 97) | `rmmovq` with displacement 8 uses the previous valC | valC = the displacement | not executed | CProperties.FetchDropsDisplacement | RustProperties.RmmovqStep |
| cy86/cpu.c:276 | CALL stores valA, which nothing sets for CALL, as the return address | a CALL reached while valA is still 0, as it is from reset, pushes 0, so the matching RET goes to address 0 | CALL pushes valP | not executed | CProperties.CallThenRet | RustProperties.CallThenRet |
