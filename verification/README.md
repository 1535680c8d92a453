# Verified models of the RISC-V core, the AES accelerator, the C8 toolchain and four kernels

The models follow the RTL, VHDL and Python of the repository branch by branch. Each part
pairs a step-by-step form (a class or a loop) with a value-level specification, and the
theorems are about every program, every input and every run of that specification.

- **The pipeline (`rv_*.dfy`).** `RvIsa` is the one-instruction-at-a-time architecture the
  core implements: RV32I from chapter 2 of the RISC-V Unprivileged ISA, with the core's traps
  and CSRs. `RvEncoding` ties its decoder to the instruction listings, `RvArithmetic`,
  `RvIntegers` and `RvMemoryWords` its operations and data accesses to integers, bits and byte
  order. `RvStandard` is the machine the standards describe, and says on exactly which steps
  the two agree. `RvStages` and `RvCore` are the five stages signal by signal, and `RvMachine`
  the same blocks as objects whose registers change in place. `RvRefinement` proves that a
  clock is a stutter or exactly one architectural step or trap entry, for every program and
  interrupt schedule; `RvPredictor` says what the branch predictor learns; `RvRuns` carries
  the refinement to whole runs from reset, to the order of register writes and stores, to the
  counters, to progress and to the exact count of clocks, stalls and redirects;
  `RvConformance` restates it against the standard machine; `RvTransparency` proves that a
  main program cannot tell that it was interrupted.
- **The firmware (`soc_*.dfy`).** The Python assembler against that decoder, what exactly it
  refuses, `li` modulo 2^32, branches to labels, and the timer demonstration: the builder's
  words are assembled and, from reset on the pipeline under any interrupts, the word its loop
  stores counts 1, 2, 3, ..., every timer interrupt is reported, and its ticks are counted.
- **AES (`aes_*.dfy`).** FIPS 197 with its worked example and a proof that every key gives a
  bijection whose inverse is the inverse cipher of section 5.3; the Python loops, the unrolled
  schedule, the shared-sum MixColumns and the VHDL form are each proved equal to it. The
  pipelined core, its bus registers, starts that overlap and the whitener are cycle-level
  models with whole-run theorems.
- **C8 (`c8_*.dfy`).** The simulator with its arithmetic and conditions, the single-cycle
  hardware in lockstep with it, the call stack over whole runs, and the two-pass assembler
  with its labels and exactly what it accepts.
- **GF(2) rank (`gf2_*.dfy`)** and the **MIDI receiver (`midi_*.dfy`)**.

Words of the RISC-V core are `bv32`; bytes of AES are `bv8`; bytes and words of the C8 are
bounded naturals, as the simulator masks its integers. A 128-bit AES vector is four columns
of four bytes, first byte most significant. Clocked Verilog is modelled as a function of
the state before the edge; the classes update their fields one after another and are proved
to reach the same state. `dafny verify dfyconfig.toml` checks everything; the option set
there keeps the bit-vector lemmas quick.

## Where the code and its documentation differ

The models follow the code.

- A redirect costs three EX bubbles (`RvRuns.RedirectCost`), not the two of
  `docs/core.md:59`.
- MRET leaves EX as a redirect that cancels its own slot at EX/MEM
  (`modules/core/rtl/riscv_core.sv:339`), so it never reaches `minstret`:
  `RvRuns.RetiredExactly` gives the exact count.
- `mie` stores all 32 bits (`modules/core/rtl/csr_file.sv:185`), not the three of
  `docs/traps.md:34`.
- `valid_o` of the AES core rises one edge after its ciphertext
  (`modules/aes/rtl/aes128_core.v:83-86`). `AesCore.ValidMatchesCiphertext` gives the exact
  condition under which the announced block is the right one; the throughput of one block
  a cycle in `docs/aes.md:53` is therefore not met by this handshake. For the bus
  registers the same edge means that DATA must survive one clock after the start strobe
  (`AesRegs.StartDataExact`).
- Starting the AES block is meant to clear `done` until the new ciphertext is there
  (`rtl/aes_regs.sv:72-74`). It does so exactly when the core is idle
  (`AesOverlap.StartClearsExactly`); a second start during a run can read the first run's
  completion and ciphertext (`AesOverlap.SecondStartReadsFirst`).
- Reset does not hold back the write ports of the C8, so `LDI` or `CALL` at address 0 leaves
  its mark before the machine is released (`C8Rtl.ResetIsPowerOn` is exact).
- The whitener encrypts each block on its own; the chaining that
  `modules/trng/rtl/aes_whitener.vhd:5` mentions is not in the code.
- C8 `ST` takes its data from bits 5:3 in the hardware
  (`modules/cpu8/rtl/cpu.v:167-171`) and from the rd field in the simulator and assembler;
  `SHF` with function code 3 rotates in the simulator and passes its operand in the
  hardware. `C8Rtl.LockstepExact` says exactly on which states this shows.
- The C8 call stack is sound for 256 nested calls, one more than the 255 that leave the
  stack pointer unwrapped; `C8Calls.FullStackClobbered` covers the next one.
- The MIDI receiver discards the status bytes of system messages, but not the data of a
  system-exclusive one, as `docs/synth.md:79` says: it takes them for running-status data
  (`MidiSystem.ExclusiveDiscardedExactly`, `MidiSystem.ExclusiveMisread`).
- The MIDI receiver samples every `B + 1` clocks for bits of `B` clocks. A byte is announced
  within its own frame, and back-to-back bytes are all heard as sent, exactly from `B = 21` on
  (`MidiUart.BitTimeExact`, `MidiUart.BackToBackExact`).

## Where the core and the RISC-V standards differ

`RvStandard.ConformsExactly` is the exact statement, step by step; `RvConformance` carries it
to the pipeline. The pipeline is proved equal to `RvIsa` on all runs, and to the standard
machine on every run of conforming steps.

- ECALL from machine mode sets `mcause` to 8 (`modules/core/rtl/rv32i_pkg.sv:93`); the
  standard's cause is 11. Input: the word 0x00000073 (`RvStandard.EcallCauses`).
- An ECALL or EBREAK with an enabled interrupt pending names itself
  (`modules/core/rtl/csr_file.sv:84-94`); in the standard every interrupt outranks it. These two
  differences touch only `mcause`; runs that never look at it are otherwise the standard's.
- A misaligned load or store is rounded down to its width
  (`modules/core/rtl/memories.sv:52-67`, `modules/core/rtl/mem_stage.sv:47-73`); the standard
  accesses the addressed bytes or traps.
- A CSR the core lacks reads 0 and ignores writes (`modules/core/rtl/csr_file.sv:115`). The
  standard allows that for registers that may be zero, and raises an illegal-instruction
  exception for the rest, except for the next two.
- `mcycleh` and `minstreth` must exist and hold the upper halves of the counters; the core
  reads 0. Input: the word 0xB80020F3 (`RvStandard.CounterHalfLost`).
- The counters must be writable; the core ignores the write
  (`modules/core/rtl/csr_file.sv:194`). Input: the word 0xB0009073
  (`RvStandard.CounterWriteLost`).
- `minstret` is short of the instructions retired by those still in MEM and WB and by every
  MRET and WFI (`RvConformance.MinstretFallsShort`).
- `mie` keeps bits that must read as zero, those of the supervisor's interrupts and the other
  unassigned ones below 16 (`modules/core/rtl/csr_file.sv:185`). Input: the word 0x30409073
  with 0x222 in `x1` (`RvStandard.MieKeepsReadOnlyBits`).
- Unknown opcodes and privileged operations are no-operations that take no interrupt, and a
  jump to a misaligned target goes there; the standard machine modelled here traps on both.
  Encodings that the standards reserve under a known opcode do there what they do in the core.

## Model

| member | source | states |
|---|---|---|
| RvDatapath.BranchCondExact | modules/core/rtl/ex_stage.sv:108-118 | the ALU operation chosen for each branch, read back as zero or one, decides exactly the ISA condition, reserved funct3 values included |
| RvDatapath.AluExact | modules/core/rtl/ex_stage.sv:85-100 | the decoded ALU operation computes the ISA function of a register instruction on all operands |
| RvDatapath.AluExactImmediate | modules/core/rtl/id_stage.sv:152-167 | the same for immediates, where bit 30 matters only for shifts |
| RvIntegers.SignedOrder | modules/core/rtl/ex_stage.sv:90 | the signed comparison orders the integers the words stand for |
| RvIntegers.UnsignedOrder | modules/core/rtl/ex_stage.sv:91 | the unsigned comparison orders naturals below 2^32 |
| RvIntegers.ArithmeticShift | modules/core/rtl/ex_stage.sv:94 | the arithmetic shift divides the integer by a power of two, rounding down |
| RvArithmetic.SumsExact | modules/core/rtl/ex_stage.sv:87-88 | addition and subtraction are those of the integers modulo 2^32 |
| RvArithmetic.ShiftsExact | modules/core/rtl/ex_stage.sv:89-94 | left shifts multiply and right shifts divide, rounding down, by a power of two whose exponent is taken modulo 32 |
| RvArithmetic.ComparisonsExact | modules/core/rtl/ex_stage.sv:90-91 | `slt` and `sltu` give one exactly when the signed or unsigned integers are in order, zero otherwise |
| RvArithmetic.ConditionsExact | modules/core/rtl/ex_stage.sv:108-118 | the signed and equality branches decide the order of the integers the operands stand for |
| RvArithmetic.UnsignedConditionsExact | modules/core/rtl/ex_stage.sv:108-118 | likewise the unsigned branches |
| RvArithmetic.LogicExact | modules/core/rtl/ex_stage.sv:92-96 | and, or and exclusive or bit by bit |
| RvArithmetic.BitMeans | modules/core/rtl/ex_stage.sv:92-96 | bit k of a word is binary digit k of the natural it stands for |
| RvArithmetic.AluShifts | modules/core/rtl/ex_stage.sv:89-94 | the hardware ALU, with the operation the decoder selects, multiplies and divides likewise |
| RvArithmetic.AluSums | modules/core/rtl/ex_stage.sv:87-88 | and adds and subtracts modulo 2^32 |
| RvArithmetic.FetchesByWord | modules/core/rtl/memories.sv:15-33 | instruction k lies at address 4k |
| RvArithmetic.ResetReads | modules/core/rtl/csr_file.sv:153-164 | after reset interrupts are off and every stored CSR reads zero, but for the machine mode in `mstatus` |
| RvEncoding.ListedDecodes | modules/core/rtl/rv32i_pkg.sv:13-69 | every RV32I and Zicsr instruction, in the listed format and opcode, decodes to itself with its own registers and immediate |
| RvEncoding.OtherOpcodes | modules/core/rtl/id_stage.sv:92-213 | no other opcode is decoded |
| RvMemoryWords.StoreReads | modules/core/rtl/memories.sv:52-67 | a stored word is read back and no other word changes |
| RvMemoryWords.LoadsLittleEndian | modules/core/rtl/rv32i_pkg.sv:168-195 | the lowest byte of a loaded word or half lies at the lowest address |
| RvMemoryWords.StoresLittleEndian | modules/core/rtl/mem_stage.sv:47-73 | stores of all three widths leave their bytes in that order |
| RvMemoryWords.LoadsSignExtend | modules/core/rtl/rv32i_pkg.sv:168-195 | signed loads subtract 2^8 or 2^16 from what has its top bit set |
| RvStages.WireI | modules/core/rtl/id_stage.sv:69 | the concatenated I immediate is the architecture's |
| RvStages.WireS | modules/core/rtl/id_stage.sv:70 | likewise for stores |
| RvStages.WireB | modules/core/rtl/id_stage.sv:71 | likewise for branches |
| RvStages.WireU | modules/core/rtl/id_stage.sv:72 | likewise for upper immediates |
| RvStages.WireJ | modules/core/rtl/id_stage.sv:73 | likewise for jumps |
| RvDatapath.CsrWriteExact | modules/core/rtl/csr_file.sv:125-149 | write enable and value agree with the architecture, including set and clear with a zero source being reads |
| RvDatapath.TrapDecision | modules/core/rtl/csr_file.sv:69-94 | the trap decision and cause of the flags in the control word are those of the decoded instruction in the core's architecture |
| RvStandard.InterruptsAgree | modules/core/rtl/csr_file.sv:65-73 | pending and priority among interrupts are the standard's, computed from `mip` and `mie` as words |
| RvStandard.EcallCauses | modules/core/rtl/rv32i_pkg.sv:90-94 | the input on which the cause is wrong: ECALL gives 8 where the standard gives 11 |
| RvStandard.TrapsAgreeExactly | modules/core/rtl/csr_file.sv:75-94 | trap or not and its cause are the standard's if and only if the step is no ECALL, no EBREAK with an interrupt pending, and none on which the core lacks the exception |
| RvStandard.AccessesAgreeExactly | modules/core/rtl/memories.sv:52-67 | loads and stores access the addressed bytes of every memory if and only if they are aligned to their width |
| RvStandard.ConformingStep | modules/core/rtl/csr_file.sv:97-199 | a conforming step is the standard's, and one that differs in its cause differs in nothing else |
| RvStandard.ConformsExactly | modules/core/rtl/csr_file.sv:75-199 | the trap decision, the step on every memory and the counters left unwritten are the standard's if and only if the step conforms: no missing trap or foreign cause, no misaligned access, no counter written, no counter value shown that differs, no read-only bit of `mie` set |
| RvStandard.MieKeepsReadOnlyBits | modules/core/rtl/csr_file.sv:185 | the input on which `mie` is wrong: 0x222 written by 0x30409073 stays, and reads as 0 in the standard |
| RvStandard.CounterWriteLost | modules/core/rtl/csr_file.sv:194 | the input on which a counter write is lost |
| RvStandard.CounterHalfLost | modules/core/rtl/csr_file.sv:113-115 | the input on which `mcycleh` reads 0 instead of the upper half |
| RvDatapath.DatapathMatchesIsa | modules/core/rtl/riscv_core.sv:268-352 | for every instruction word, operand values, CSR state and interrupt lines, the slot EX hands on, the next PC and the CSRs are the ISA step's effect |
| RvMemoryPort.LanesStore | modules/core/rtl/mem_stage.sv:47-73 | byte enables with replicated data write exactly the bytes the ISA store writes |
| RvMemoryPort.WordLoad | modules/core/rtl/riscv_core.sv:400-402 | formatting the aligned word by funct3 and the low address bits gives the ISA load value |
| RvRefinement.OperandExact | modules/core/rtl/hazard_unit.sv:69-85 | forwarding delivers the architectural register whatever MEM and WB hold, given that a load in MEM does not target it |
| RvRefinement.OperandsArchitectural | modules/core/rtl/ex_stage.sv:56-80 | in every reachable state both operands and the CSR source in EX are the ISA registers before that instruction |
| RvRefinement.CommitMoves | modules/core/rtl/riscv_core.sv:376-414 | moving the pending MEM and WB effects one stage on leaves the architectural registers and memory as they were, plus the instruction leaving EX |
| RvRefinement.ExAgrees | modules/core/rtl/riscv_core.sv:261-352 | what EX hands on is the ISA effect of the abstract state |
| RvRefinement.BubbleInert | modules/core/rtl/riscv_core.sv:165-176 | a bubble in EX writes nothing, redirects nothing and takes no trap |
| RvRefinement.BogusRedirectUnreachable | modules/core/rtl/if_stage.sv:159-168 | the safety net for a predicted non-branch never fires at aligned PCs |
| RvRefinement.SuccessorReached | modules/core/rtl/if_stage.sv:145-188 | comparing directions only is enough: the next slot already holds the instruction's true successor or the fetch is sent there |
| RvRefinement.FetchStaysPaired | modules/core/rtl/riscv_core.sv:139-202 | through stalls and redirects each valid fetch and IF/ID slot pairs a PC with the word at that PC, and an invalid fetch means IF/ID is a bubble |
| RvRefinement.ExStaysDecoded | modules/core/rtl/riscv_core.sv:224-259 | a real slot in EX is the decoded word at its PC with current operands; any other slot is a bubble |
| RvRefinement.LoadStaysSettled | modules/core/rtl/hazard_unit.sv:60-85 | a load in MEM is never the producer of an operand of EX, and the live bus in WB is that load's own word |
| RvRefinement.PathStaysFollowed | modules/core/rtl/riscv_core.sv:178-202 | consecutive valid slots follow the prediction each carries |
| RvRefinement.BtbStaysExact | modules/core/rtl/if_stage.sv:106-125 | every aligned PC the predictor would send elsewhere is a branch, and the stored target is that branch's own |
| RvRefinement.TargetExactIffAligned | modules/core/rtl/if_stage.sv:96-99 | a PC that shares a branch's entry gets its own exact target if and only if it is aligned |
| RvPredictor.TwiceDecides | modules/core/rtl/if_stage.sv:118-125 | two equal outcomes in a row decide the next prediction of a branch, from any counter, over any run with no other branch in its entry |
| RvPredictor.OnceDoesNotDecide | modules/core/rtl/if_stage.sv:118-125 | one contrary outcome after three equal ones does not |
| RvPredictor.FetchGoes | modules/core/rtl/if_stage.sv:170-188 | the fetch at a predicted branch goes to its target and at any other trained PC to the next word |
| RvPredictor.FirstOutcomeDecides | modules/core/rtl/if_stage.sv:106-117 | from reset a first outcome decides, taken or not |
| RvPredictor.NothingAtReset | modules/core/rtl/if_stage.sv:106-117 | nothing is predicted before that |
| RvPredictor.TagsSeparate | modules/core/rtl/if_stage.sv:96-99 | a branch lends its entry to no PC with another tag |
| RvRefinement.InvKept | modules/core/rtl/riscv_core.sv:139-402 | the invariant over all stages survives any clock, reset or not |
| RvRefinement.PcRefines | modules/core/rtl/riscv_core.sv:139-202 | the PC of the oldest real slot moves to the ISA's next PC when EX commits and stays otherwise |
| RvRefinement.TickRefines | modules/core/rtl/riscv_core.sv:139-414 | one clock is exactly one ISA step or trap entry if EX holds a real slot, and changes no architectural state otherwise |
| RvRuns.ResetEstablishes | modules/core/rtl/riscv_core.sv:178-388 | one reset clock establishes the invariant from any power-up state, with PC 0 and reset CSRs |
| RvRuns.RunRefines | modules/core/rtl/riscv_core.sv:178-402 | any number of clocks is the ISA run over the environments in which slots committed |
| RvRuns.CoreRefinesIsa | modules/core/rtl/riscv_core.sv:178-402 | the same from reset out of arbitrary power-up contents |
| RvConformance.TickMatchesStandard | modules/core/rtl/riscv_core.sv:139-414 | a clock that commits a conforming instruction is one step of the standard machine, and all but `mcause` of it where only the cause differs |
| RvConformance.StaysAligned | modules/core/rtl/if_stage.sv:174-188 | conforming steps never leave the word-aligned PCs |
| RvConformance.CoreRunsStandard | modules/core/rtl/riscv_core.sv:139-414 | from reset a run of conforming steps is the standard machine's, with no assumption on alignment; one that conforms but for causes it never reads is the standard's in all but `mcause` |
| RvConformance.MinstretFallsShort | modules/core/rtl/csr_file.sv:165-166 | after any conforming run from reset the standard's count of retired instructions is the core's plus those in MEM and WB plus every MRET and WFI |
| RvRuns.WritesInOrder | modules/core/rtl/riscv_core.sv:376-414 | the register writes leaving WB are the ISA's in order and value; only the last two can still be under way |
| RvRuns.StoresInOrder | modules/core/rtl/riscv_core.sv:334-352 | the stores on the data port are the ISA's in order: none from a cancelled or wrong-path instruction |
| RvRuns.RetiredExactly | modules/core/rtl/csr_file.sv:165-166 | `minstret` counts exactly the committed instructions that are decoded, do not trap and are not MRET, at most two still on their way to WB |
| RvRuns.CyclesCounted | modules/core/rtl/csr_file.sv:163-165 | `mcycle` counts every clock after reset |
| RvRuns.BubbleFalls | modules/core/rtl/riscv_core.sv:178-259 | the number of empty slots before the next real one falls on every bubble |
| RvRuns.RealSlotArrives | modules/core/rtl/riscv_core.sv:178-259 | at most three consecutive clocks have no instruction in EX |
| RvRuns.RedirectCost | modules/core/rtl/riscv_core.sv:178-202 | a redirect leaves exactly three bubbles |
| RvRuns.StallLastsOneClock | modules/core/rtl/hazard_unit.sv:60-67 | a load-use stall is over after one clock and costs one bubble |
| RvRuns.StallsExactly | modules/core/rtl/hazard_unit.sv:60-67 | the core stalls exactly for a load in EX, not into x0, whose destination is a source field of the next instruction |
| RvRuns.RedirectsExactly | modules/core/rtl/if_stage.sv:145-188 | the front end is redirected exactly for a trap, MRET, a jump, or a branch that does not go the predicted way on the architecture's own operands |
| RvRuns.CyclesExactly | modules/core/rtl/riscv_core.sv:178-259 | over any run, the clocks are the committed instructions plus three for every redirect and one for every stall, up to the bubbles at the two ends; so at least one clock in four commits |
| RvRuns.InterruptLatency | modules/core/rtl/csr_file.sv:69-81 | from any reachable state the first instruction is in EX within four clocks, and a pending, enabled interrupt is taken there if and only if the core knows its opcode |
| RvMachine.IfStage.Clock | modules/core/rtl/if_stage.sv:106-143 | updating the predictor arrays and PC in place gives the specified next front-end state |
| RvMachine.CsrFile.Clock | modules/core/rtl/csr_file.sv:152-199 | trap over MRET over CSR write, with the counters |
| RvMachine.DataMemory.Clock | modules/core/rtl/memories.sv:52-67 | enabled bytes are written and the read register takes the word from before the write |
| RvMachine.RiscvCore.Clock | modules/core/rtl/riscv_core.sv:178-402 | latching every register and block in place is one clock of the model |
| RvMachine.RiscvCore.ClockRefines | modules/core/rtl/riscv_core.sv:178-402 | the refinement on the object: one clock is one ISA step or none, and reachable states stay reachable |
| RvTransparency.EffectDependsOnReads | modules/core/rtl/ex_stage.sv:76-141 | a non-SYSTEM instruction depends only on the registers it reads |
| RvTransparency.InterruptsTransparent | modules/core/rtl/csr_file.sv:165-204 | for disjoint registers and memory and a handler that ends in MRET and writes neither `mepc` nor `mstatus`, the main program's registers, memory and PC are always those of its own uninterrupted run |
| RvTransparency.PipelineTransparent | modules/core/rtl/riscv_core.sv:178-402 | the same for the pipeline after any number of clocks |
| SocWords.ToWordSum | socgen/asm.py:76-78 | masking with 32 ones turns integer addition into word addition, negative operands included |
| SocWords.SplitAdds | socgen/asm.py:211-216 | an upper part shifted by twelve plus a signed low part gives back the integer modulo 2^32 |
| SocAsm.SignedFits | socgen/asm.py:44-51 | an integer that passes the range check is its own sign-extended field |
| SocAsm.DecodesAsMeant | socgen/asm.py:80-180 | every accepted instruction decodes to the operation, destination, sign-extended immediate and source registers asked for |
| SocAsm.HardwareImmediate | modules/core/rtl/id_stage.sv:69-90 | for every accepted call the hardware immediate generator gives the integer, upper part, CSR number or operation number meant |
| SocAsm.LoadConstantLoads | socgen/asm.py:202-223 | executing the one or two words of `li` leaves any integer modulo 2^32 in rd and changes nothing else |
| SocProgram.BranchDecodes | socgen/asm.py:99-105 | the scattered offset bits decode to the same signed offset and comparison |
| SocProgram.BranchImmediate | modules/core/rtl/id_stage.sv:69-90 | the hardware reads the same offset from an assembled branch |
| SocProgram.BranchReaches | socgen/asm.py:227-242 | in an assembled program a taken branch continues at its label and an untaken one at the next word |
| SocProgram.Assembler.Define | socgen/asm.py:68-72 | a label names the next byte address; a second definition is refused without effect |
| SocProgram.Assembler.Emit | socgen/asm.py:76-97 | exactly the accepted instructions append their word |
| SocProgram.Assembler.Branch | socgen/asm.py:127-133 | a branch is left pending with its own byte address |
| SocProgram.Assembler.Li | socgen/asm.py:202-223 | appends the words of the load-constant sequence |
| SocProgram.Assembler.Assemble | socgen/asm.py:227-242 | resolves every entry in order, or fails if some label is undefined or too far |
| SocRanges.AcceptsExactly | socgen/asm.py:44-51 | an instruction is accepted exactly when its field can hold the immediate or the CSR number |
| SocRanges.ResolvesExactly | socgen/asm.py:227-242 | a program resolves exactly when every branch has a defined label within thirteen signed bits |
| SocRanges.LoadsInOneWord | socgen/asm.py:202-223 | `li` takes one word exactly for what `addi` or `lui` alone can load |
| SocFirmware.BuildTimerDemo | socgen/firmware.py:106-181 | the calls on one assembler build the 36 entries and three labels of the demonstration |
| SocDemo.DemoAssembles | socgen/firmware.py:106-181 | both branches of the demonstration resolve |
| SocDemo.MainRuns | socgen/firmware.py:176-180 | uninterrupted, the counter and the stored word follow the number of instructions executed |
| SocDemo.DemoBehaves | socgen/firmware.py:129-149 | under any interrupts the handler keeps out of the loop's registers and memory, `mepc` and `mstatus` |
| SocDemo.DemoCounts | socgen/firmware.py:107-115 | from the end of the start-up on, whatever the interrupt schedule, the loop's word of RAM is the number of its completed stores |
| SocDemo.DemoCountsOnPipeline | socgen/firmware.py:107-115 | the same on the five-stage pipeline for any number of clocks |
| SocBoot.BootStep | socgen/firmware.py:151-176 | each start-up instruction executes with interrupts off and sets up its pointer, vector or enable |
| SocBoot.DemoFromReset | socgen/firmware.py:106-181 | from PC 0 and reset CSRs, under any interrupts, the word of RAM stays 0 through the start-up and then counts the loop's stores: 1, 2, 3, ... |
| SocBoot.DemoFromResetOnPipeline | socgen/firmware.py:106-181 | the same on the pipeline from one reset clock out of any power-up state with that word zero |
| SocHandler.HandlerReports | socgen/firmware.py:129-149 | one round of the handler leaves the tick count, the cause and the resumption address in RAM words 1 to 3 and the deadline 400 after `mtime`, by exactly six stores in the documented order, changes no other word, and resumes with interrupts as they were |
| SocTicks.TrapsOnTimer | socgen/firmware.py:169-174 | the running demonstration is interrupted exactly when the timer is high, with the timer's cause |
| SocTicks.TicksCount | socgen/firmware.py:129-131 | over any run the tick word counts the interrupts taken, the one whose store is still to come aside |
| SocArmed.StartArms | socgen/firmware.py:151-174 | from reset the start-up code enables the timer alone, points `mtvec` at the handler, clears the ticks and sets the first deadline |
| SocArmed.InterruptReported | socgen/firmware.py:129-149 | fourteen steps after a timer interrupt cause 0x80000007 and the interrupted PC are in RAM and the main program is back at that PC |
| SocArmed.TicksFromReset | socgen/firmware.py:106-181 | from reset under any interrupt lines the second word of RAM counts the timer interrupts |
| SocArmed.TicksOnPipeline | modules/core/rtl/riscv_core.sv:178-402 | the same on the pipeline for any number of clocks |
| AesField.SBoxIsAffineInverse | modules/trng/rtl/aes_sbox.vhd:3-5 | every table entry is the affine image of the multiplicative inverse in GF(2^8) |
| AesCipher.MixColumnUndone | modules/aes/rtl/aes_mixcol.v:4-8 | MixColumns and the inverse with coefficients 14, 11, 13, 9 undo each other, both ways |
| AesCipher.MixStepMeaning | modules/aes/rtl/aes_mixcol.v:10-11 | the shared-sum form of a mixed byte is the matrix row with coefficients 2, 3, 1, 1 |
| AesCipher.MixColumnFast | modules/aes/rtl/aes_mixcol.v:17-40 | the wired column is MixColumns of FIPS 197 |
| AesCipher.CipherBijective | modules/trng/README.md:49-55 | for every list of round keys the cipher and the inverse cipher of section 5.3 undo each other |
| AesCipher.EncryptBijective | modules/trng/README.md:49-55 | AES-128 under any key is a bijection on blocks |
| AesVectors.ExampleEncrypts | modules/aes/sim/tb_aes128_core.v:88-90 | the worked example of FIPS 197, appendix B, with its key schedule and every round |
| AesReference.KeyExpand | modules/aes/bench/aes_benchmark.py:45-57 | the loop over packed 32-bit words produces the round keys of section 5.2 for every key |
| AesReference.PyAddRoundKeyMeaning | modules/aes/bench/aes_benchmark.py:60-61 | exclusive-or with shifted word bytes adds the round key |
| AesReference.PyShiftRows | modules/aes/bench/aes_benchmark.py:68-77 | the element assignments shift row r left by r |
| AesReference.PyMixColumns | modules/aes/bench/aes_benchmark.py:80-89 | the loop mixes every column as FIPS 197 does |
| AesReference.Aes128Encrypt | modules/aes/bench/aes_benchmark.py:92-109 | the whole reference, final reordering included, is FIPS 197 encryption for every key and block |
| AesCore.RoundOutMeaning | modules/aes/rtl/aes_round.v:14-60 | the wired round is one round of section 5.1 |
| AesCore.ExpandKeyMeaning | modules/aes/rtl/aes_key_expand.v:114-181 | the unrolled schedule with literal round constants is section 5.2 for every key |
| AesCore.StagesKept | modules/aes/rtl/aes128_core.v:66-88 | over any run without reset or key load, stage i holds round i of the plaintext offered i + 1 edges ago, and the output the cipher of the one eleven edges ago |
| AesCore.ValidLine | modules/aes/rtl/aes128_core.v:68-84 | the valid bits are a twelve-stage delay line |
| AesCore.ValidMatchesCiphertext | modules/aes/rtl/aes128_core.v:83-86 | what `valid_o` announces is the ciphertext of the block it was raised for if and only if the plaintext input was held one more edge |
| AesCore.Aes128Core.Clock | modules/aes/rtl/aes128_core.v:30-88 | shifting the stage and valid registers in place is one edge of the model |
| AesCore.Aes128Core.AssertReset | modules/aes/rtl/aes128_core.v:62-66 | reset at any time clears the valid bits and outputs and nothing else |
| AesRegs.WordsLoaded | rtl/aes_regs.sv:61-70 | four DATA or KEY writes make the register the block of their words, the lowest offset in the low bits, and KEY writes leave the core ready with that key |
| AesRegs.WordsReadBack | rtl/aes_regs.sv:61-70 | OUT word j of a block made of four words is word j |
| AesRegs.ResetIdle | rtl/aes_regs.sv:48-55 | reset leaves the block idle, so the protocol can start |
| AesRegs.ResetClears | rtl/aes_regs.sv:45-53 | reset clears every register a program can see |
| AesRegs.StrobesExactly | rtl/aes_regs.sv:59-80 | only a selected write of an odd word to 0x20 starts the core, and only selected writes to the KEY words load the key |
| AesRegs.WritesExactly | rtl/aes_regs.sv:59-68 | a selected write reaches its own word of KEY or DATA, and both stay without one |
| AesRegs.StatusReads | rtl/aes_regs.sv:100-106 | 0x20 reads busy and 0x24 reads done |
| AesRegs.KeyReadyKept | rtl/aes_regs.sv:62-66 | after any KEY write the core's round keys follow the KEY registers |
| AesRegs.CompletionClock | rtl/aes_regs.sv:83-87 | after a start on an idle core, with no KEY write or second start, completion is signalled on the twelfth clock and no other |
| AesRegs.DoneExactly | rtl/aes_regs.sv:71-87 | STATUS.done is 0 and busy 1 for twelve clocks and then the reverse, and OUT is the encryption of DATA as it stood one clock after the strobe |
| AesRegs.PollThenRead | rtl/aes_regs.sv:100-114 | once a poll of STATUS reads 1, reading OUT word j returns word j of that ciphertext |
| AesRegs.StartDataExact | rtl/aes_regs.sv:67-78 | the result is the encryption of DATA at the strobe if and only if the clock after the strobe left DATA unchanged |
| AesRegs.IdleKept | rtl/aes_regs.sv:47-82 | whatever does not start the core leaves an idle block idle |
| AesRegs.SessionEncrypts | rtl/aes_regs.sv:47-114 | reset, four KEY writes, four DATA writes, a start, a poll that returns 1 and a read of OUT word j give word j of the encryption, with any other traffic that leaves KEY alone and DATA alone for one clock |
| AesRegs.IdleAgain | rtl/aes_regs.sv:83-87 | a finished run leaves the block ready for the next start |
| AesOverlap.DoneAfterStart | rtl/aes_regs.sv:71-87 | after a start in any state, done is set n clocks later if and only if the run has had its thirteen clocks or a valid bit of an earlier one has come out by then |
| AesOverlap.StartClearsExactly | rtl/aes_regs.sv:72-87 | a start clears done until its own completion if and only if the core was idle |
| AesOverlap.TrafficExactly | rtl/aes_regs.sv:83-87 | under any traffic with further starts, OUT is the encryption of the DATA of the latest captured start, and done is set if and only if no start followed that capture |
| AesOverlap.HonestExactly | rtl/aes_regs.sv:72-87 | a poll of 1 speaks for the newest start if and only if no start came within thirteen clocks after the captured one |
| AesOverlap.SecondStartReadsFirst | rtl/aes_regs.sv:72-87 | the traffic on which it does not: new DATA and a second start two clocks into a run read the first ciphertext |
| AesRegs.AesRegisters.Clock | rtl/aes_regs.sv:47-114 | the in-place registers with the core inside make one clock of the model, completion overriding a start |
| AesWhitener.ConstantsAreSchedule | modules/trng/rtl/aes_whitener.vhd:44-63 | the eleven stored round keys are the key schedule of the zero key |
| AesWhitener.MixedRoundMeaning | modules/trng/rtl/aes_whitener.vhd:91-145 | the doubled and tripled byte form of a round is one round of section 5.1 |
| AesWhitener.BitsInOrder | modules/trng/rtl/aes_whitener.vhd:183-197 | the accumulated bits fill the block from its most significant bit |
| AesWhitener.ResetIsPowerOn | modules/trng/rtl/aes_whitener.vhd:186-190 | reset leaves the power-on state, which announces nothing |
| AesWhitener.StepConserves | modules/trng/rtl/aes_whitener.vhd:184-240 | each clock keeps accumulator, engine and outputs consistent with the bits accepted since reset |
| AesWhitener.RunConserves | modules/trng/rtl/aes_whitener.vhd:184-242 | over any run output block k is the zero-key cipher of accepted bits 128k to 128k + 127, each accepted bit is in one output, in the engine or still collected, and no block meets a busy engine |
| AesWhitener.EngineBusy | modules/trng/rtl/aes_whitener.vhd:191-238 | a block occupies the engine for ten clocks, the only ones that drop bits, and leaves on the eleventh |
| AesWhitener.OutputsDetermineBits | modules/trng/README.md:49-55 | equal outputs come from equal accepted bits, so whitening loses none of them |
| AesWhitener.WhitenerUnit.Clock | modules/trng/rtl/aes_whitener.vhd:184-240 | the two clocked processes updating in place make one step of the model |
| C8Sim.Sim.Step | modules/cpu8/sim/sim.py:109-228 | the in-place simulator step is the specified instruction, counts one cycle and reports whether it still runs |
| C8Sim.Sim.Run | modules/cpu8/sim/sim.py:230-235 | the loop ends halted or at the limit, in the state of exactly the cycles it counted |
| C8Sim.Sim.Reset | modules/cpu8/sim/sim.py:81-86 | clears everything but registers and memories |
| C8Arithmetic.SumsExact | modules/cpu8/sim/sim.py:141-153 | ADD and SUB give the sum and difference modulo 256, with carry, borrow, zero, sign and signed overflow of the integers |
| C8Arithmetic.LogicExact | modules/cpu8/sim/sim.py:155-168 | AND, OR and XOR digit by digit, clearing carry and overflow |
| C8Arithmetic.ShiftsExact | modules/cpu8/sim/sim.py:170-182 | the three shifts on integers, the digit shifted out in the carry |
| C8Arithmetic.LoadedIsRead | modules/cpu8/sim/sim.py:90-95 | what is loaded into a register is what the next instruction reads; r0 keeps nothing |
| C8Arithmetic.CompareThenBranch | modules/cpu8/sim/sim.py:105-107 | after CMP the eight conditions are equality, order and sign of the operands, and the branch goes to its signed offset |
| C8Arithmetic.CompareThenBranchInHardware | modules/cpu8/rtl/cpu.v:92-105 | the same on two clock edges of the hardware |
| C8Rtl.LockstepExact | modules/cpu8/rtl/cpu.v:127-218 | a clock equals a simulator step in every register, flag and byte if and only if the instruction is not a store of a different register value or a code-3 shift that shows |
| C8Rtl.LockstepRunsExactly | modules/cpu8/rtl/cpu.v:127-218 | from equal states the hardware and the simulator agree on each of the first n clocks if and only if the definitions meet at each of them |
| C8Rtl.RunsInLockstep | modules/cpu8/rtl/cpu.v:127-218 | runs from equal states stay equal while the definitions meet |
| C8Rtl.PartsWhenNotMet | modules/cpu8/rtl/cpu.v:167-171 | and differ on the next clock when it first fails |
| C8Rtl.C8Core.AssertReset | modules/cpu8/rtl/cpu.v:206-211 | the asynchronous reset sets the processor registers and leaves both memories |
| C8Rtl.ResetIsPowerOn | modules/cpu8/rtl/cpu.v:206-211 | on empty memories a held reset is power-on if and only if the first instruction is neither CALL nor a non-zero `LDI` into a register other than r0 |
| C8Rtl.ResetLoadsRegister | modules/cpu8/rtl/cpu.v:206-211 | the input on which it is not: `LDI r1, 5` at address 0 is in r1 while reset is held |
| C8Rtl.C8Core.Clock | modules/cpu8/rtl/cpu.v:206-218 | registers, memory and flags sampled together are one edge of the model, in and out of reset |
| C8Calls.PowerOnFramed | modules/cpu8/sim/sim.py:68-79 | the simulator starts with an empty call stack |
| C8Calls.StepFramed | modules/cpu8/sim/sim.py:212-219 | a disciplined step keeps SP and the memory above it equal to the ghost stack of return addresses |
| C8Calls.RunFramed | modules/cpu8/sim/sim.py:212-219 | so does any disciplined run |
| C8Calls.ReturnsAfterMatchingCall | modules/cpu8/sim/sim.py:212-219 | the return that matches a call, after any nesting in between, lands just after that call |
| C8Calls.FullStackClobbered | modules/cpu8/sim/sim.py:212-215 | a call at depth 256 keeps the outermost return address if and only if it pushes the same value |
| C8Asm.EncodeMeans | modules/cpu8/asm/c8asm.py:185-284 | the word of any statement, executed where it was placed, does what the statement means |
| C8Asm.PlacedWord | modules/cpu8/asm/c8asm.py:298-305 | the word at an address is that of the line placed there last |
| C8Asm.AssembledRuns | modules/cpu8/asm/c8asm.py:287-305 | running the assembled words simulates the labelled source step for step, for every program that assembles |
| C8Labels.AddressesExact | modules/cpu8/asm/c8asm.py:143-162 | addresses start at 0, a word moves on by one, `.ORG` sets the address |
| C8Labels.LabelsExact | modules/cpu8/asm/c8asm.py:148-151 | the labels are exactly the names, each standing for the address counted before its line |
| C8Labels.FirstPassSucceeds | modules/cpu8/asm/c8asm.py:143-162 | the first pass succeeds if and only if names differ and every `.ORG` names an address |
| C8Labels.FirstPassFails | modules/cpu8/asm/c8asm.py:148-158 | a failure is that of the first bad line |
| C8Labels.JumpsToLine | modules/cpu8/asm/c8asm.py:165-170 | in the assembled words `JMP`, `CALL` and a taken `BR` to a label continue at the labelled line |
| C8Encoding.EncodesExactly | modules/cpu8/asm/c8asm.py:185-284 | a line is encoded if and only if its operand fits; labels win over numbers; the error names the line and its kind |
| C8Encoding.UnusedFieldsZero | modules/cpu8/asm/c8asm.py:185-284 | fields a format leaves out are zero |
| C8Encoding.AssemblesExactly | modules/cpu8/asm/c8asm.py:143-310 | a program assembles if and only if both passes and the placement can |
| C8Encoding.HardwareRunsSource | modules/cpu8/rtl/cpu.v:206-218 | clocked on the assembled words of any program without `ST` and `.WORD`, the hardware runs its source statement by statement |
| C8Passes.FirstPass | modules/cpu8/asm/c8asm.py:142-161 | the loop gives every line its address and the label map, or the first error |
| C8Passes.SecondPass | modules/cpu8/asm/c8asm.py:185-284 | the loop gives every line its word, or the first error |
| C8Passes.AssembleLines | modules/cpu8/asm/c8asm.py:287-305 | the passes and the placement together are the specified assembler, errors included |
| Gf2Linear.SwapKeepsSpan | modules/trng/tools/nist_sts.py:199 | exchanging rows keeps the row space |
| Gf2Linear.AddKeepsSpan | modules/trng/tools/nist_sts.py:200-202 | adding one row to another keeps the row space |
| Gf2Linear.IndependentRank | modules/trng/tools/nist_sts.py:189-204 | k independent rows span exactly 2^k vectors |
| Gf2Linear.RankUnique | modules/trng/tools/nist_sts.py:189-204 | a matrix has one rank |
| Gf2Rank.ReducedRank | modules/trng/tools/nist_sts.py:189-204 | a reduced matrix has as many pivots as its rank |
| Gf2Rank.MatrixRank | modules/trng/tools/nist_sts.py:189-204 | for every size the count returned is the rank of the original matrix; the first rows end independent with the same span and the others zero |
| Gf2Rank.ClearColumn | modules/trng/tools/nist_sts.py:199-203 | one column of the elimination keeps the span and finishes that column |
| MidiUart.BitPasses | modules/synth/rtl/midi_rx.v:84-96 | over one bit the receiver samples that bit and ends one clock later in the next |
| MidiUart.FrameHeard | modules/synth/rtl/midi_rx.v:57-109 | at 21 clocks a bit or more a frame is heard once and the receiver is idle again in time for the next |
| MidiUart.BitTimeExact | modules/synth/rtl/midi_rx.v:64-104 | a byte is announced by the end of its own frame if and only if a bit lasts at least 21 clocks; below that none is |
| MidiUart.BackToBackExact | modules/synth/rtl/midi_rx.v:57-109 | back-to-back bytes, however long the line stays idle after them, are all heard as sent if and only if a bit lasts at least 21 clocks |
| MidiUart.BackToBackDropped | modules/synth/rtl/midi_rx.v:97-103 | at 19 or 20 clocks a bit a byte followed at once by another is lost |
| MidiUart.LineHeard | modules/synth/rtl/midi_rx.v:57-109 | any bytes with any idle gaps are heard as sent |
| MidiParser.RealTimeIgnored | modules/synth/rtl/midi_rx.v:135-141 | bytes from 0xF8 up change nothing wherever they appear |
| MidiParser.EventParsed | modules/synth/rtl/midi_rx.v:154-185 | the data bytes of one event after its status are reported as that event, or as nothing for the kinds the receiver ignores |
| MidiParser.StreamParses | modules/synth/rtl/midi_rx.v:121-191 | channel messages with or without running status are reported as exactly their Note On, Note Off and Control Change, velocity 0 as Note Off |
| MidiSystem.SystemStatusIgnored | modules/synth/rtl/midi_rx.v:135-142 | status bytes from 0xF0 up change nothing wherever they appear |
| MidiSystem.ExclusiveDiscardedExactly | modules/synth/rtl/midi_rx.v:143-185 | a system-exclusive message is discarded if and only if the running status is one the receiver does not report or fewer than two data bytes follow |
| MidiSystem.ExclusiveMisread | modules/synth/rtl/midi_rx.v:143-185 | the input on which it is not: its data is reported as a second Note On |
| MidiSystem.NothingBeforeStatus | modules/synth/rtl/midi_rx.v:121-131 | before any channel status nothing is reported |
| MidiReceiver.MessageHalfSees | modules/synth/rtl/midi_rx.v:121-135 | the message half has parsed every byte but one announced on the last clock |
| MidiReceiver.MessagesReceived | modules/synth/rtl/midi_rx.v:51-191 | serialised as 8N1 frames of B clocks a bit, any list of channel messages is reported exactly, for every B of at least 21 |
| MidiReceiver.ResetMakesReady | modules/synth/rtl/midi_rx.v:52-60 | two clocks of reset on an idle line leave the receiver ready from any state |
| MidiReceiver.MidiRx.Clock | modules/synth/rtl/midi_rx.v:52-191 | the clocked registers make one step of the model, in and out of reset, and `msg_valid` is high for exactly the clocks that report a message |

## Left out

- Misaligned PCs: the core has no misaligned-fetch trap, so the run theorems against `RvIsa`
  assume that its PCs stay word aligned; `RvRefinement.TargetExactIffAligned` shows why, and
  runs of conforming steps need no such assumption.
- Instruction memory is constant and holds 1024 words; data memory is a total RAM, zero where
  never written, without the peripherals, their read side effects or the 4 KB limit.
- Interrupt lines and the counters are inputs of the architectural step. The standard machine
  keeps its own count of retired instructions; a counter write ends the runs on which it is
  compared with the core.
- Performance counters, and the address decode of the system-on-chip.
- The timer of the demonstration is an arbitrary interrupt level, and its registers are plain
  memory.
- SocProgram.Assembler.Emit: registers are numbers below 32; the name table and its errors are
  not modelled.
- AesCore.Aes128Core.Clock: the never-written eleventh state register is not modelled.
- AesReference.PyShiftRows: lists are values, so aliasing of Python lists is not modelled.
- C8Asm.EncodeMeans: lines start as tokens already split into mnemonic, registers and numbers;
  the regular expressions and error texts are not modelled.
- C8Sim.Sim.Step: bytes are naturals below 256, with the overflow expression read at bit 7,
  where the simulator shifts the whole expression down.
- The listing, hex and command-line output of the C8 tools, and trace printing.
- MidiParser.StreamParses: system exclusive and system common bytes are not sent; `MidiSystem`
  says what they would do.
- The AXI wrapper of the AES core, the UART and SPI blocks, the FIFO, the graphics and
  synthesiser data paths and the statistical p-values.
