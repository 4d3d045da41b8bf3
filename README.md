# STM32 (Cortex-M3) instruction simulator — a Dafny model

This project models the core of a small simulator for an STM32F10x
microcontroller. The simulator has four parts:

- **Memory bus** (`MemoryBus`, memory.dfy): 64 KiB of flash at `0x08000000` and 20 KiB of SRAM at
  `0x20000000`. Byte reads outside both regions return `0xFF`. Only SRAM accepts writes.
- **Register file** (`CpuState`, cpu_state.dfy): sixteen general registers, the special
  registers (xPSR, PRIMASK, FAULTMASK, BASEPRI, CONTROL, MSP, PSP) and a separate program
  counter. `cpu_reset` zeroes all of them.
- **GPIO bank** (`Gpio`, gpio.dfy): seven ports A–G, each in a 0x400-byte window from
  `0x40010800` on, each with registers CRL, CRH, IDR, ODR, BSRR, BRR and LCKR. Reads and
  writes find the port by scanning the base-address table.
- **Executor** (`Decoder`, decoder.dfy, and `Execute`, execute.dfy):
  - `simulator_step` fetches a halfword at `pc` and advances `pc` by 2.
  - It then executes one of four 16-bit Thumb forms:
    - MOV (immediate);
    - ADD (register);
    - SUB (register);
    - unconditional B.
  - In the ADD/SUB group (bits 11-15 = `00011`), sub-opcodes `10` and `11` change no register
    and only advance `pc`.
  - A word whose bits 11-15 are none of `00100`, `00011` and `11100` parks `pc` at `0xFFFFFFFF`.
  - `simulator_run` steps while `pc` is below the end of flash. It is bounded by a function-static
    counter that starts at 20 and is never refilled.

Each C structure whose fields the code updates in place is a Dafny class:

- `Memory` has two fixed buffers;
- `Cpu` and `GpioState` hold their state as fields and arrays;
- `Simulator` owns one of each.

Pure logic is modelled as functions on values:

- `Instr` is the decoded instruction.
- `Port` is the seven registers of one GPIO port.
- `Image` is the contents of both memory buffers.
- `Core` is the general registers plus `pc`.

`Step` and `Run` are proved to update the objects exactly as the specification functions
`StepCore` and `RunCore` say. The properties are then proved about those functions.

The model follows the code where the code differs from the hardware manuals or from its own
comments:

- **Branch target.** The target is `((pc + 4) + (offset << 1))` with bit 1 cleared. The ARMv7-M
  manual does not clear any bit for B. So `0xE7FE` branches to itself only at addresses whose bit 1
  is clear: at `0x08000006` it lands on `0x08000004` (`Execute.BranchExamples`).
- **BSRR halves.** A BSRR write treats bits 0–15 as *reset* and bits 16–31 as *set*. This is the
  opposite of section 9.2.5 of RM0008, where the low half sets and the high half resets. The tests
  expect the code's reading. When both halves name a bit, the set wins because it is applied second.
- **The run loop.** It tests only `pc < 0x08010000`, so `pc = 0` straight after reset counts as
  "inside". The fetch there reads unmapped `0xFFFF` and the run stops after one step
  (`Execute.RunFromResetPc`). The step counter belongs to the function, so it is shared by every
  call and every simulator. It is also decremented on the iteration that ends the run.

scenario.dfy proves what the program `0x2005 0x2103 0x1882 0xE7FE`
(`MOV R0, #5; MOV R1, #3; ADD R2, R0, R2; B -2`) computes when it is loaded at the start of flash
and run from there. The branch at `0x08000006` lands on the ADD, so the loop adds R0 to R2 once
per round. With the counter at 20, the run ends with R2 = 45, stopped by the counter
(`Scenario.DemoProgram`).

The C `memory_read_halfword` is declared in core/include/memory.h but not defined in
core/src/memory.c. It is modelled as the little-endian pair of bytes at `addr` and `addr + 1`,
which is how the test's `uint16_t` program (copied with `memcpy`) reads back on a little-endian
host.

Integer widths are modelled explicitly:

- registers and `pc` are `bv32`, so every addition and subtraction wraps at 2^32;
- memory bytes are `bv8`;
- the fetched word is `bv16`;
- GPIO window arithmetic uses integers in `[0, 2^32)`, because it never wraps.

The left shift of a negative branch offset, which is undefined in C, is taken as two's
complement.

## Model

| member | source | states |
|---|---|---|
| Decoder.GetBits | core/src/execute.c:6-9 | the extracted field is below 2^(end-start+1), and shifted back to `start` it equals exactly the bits `start..end` of the value |
| Decoder.SignExtend | core/src/execute.c:12-18 | a field without its sign bit is unchanged; one with it set becomes `value - 2^bits` modulo 2^32 |
| Decoder.SignExtend11 | core/src/execute.c:12-18 | the 11-bit branch field read as signed is `v` below 1024 and `v - 2048` from 1024 on, always within [-1024, 1023] |
| Decoder.Decode | core/src/execute.c:42-96 | the decoded instruction is well formed, and it is MOV, ADD/SUB or B exactly when bits 11-15 are 00100, 00011 or 11100 |
| Decoder.DecodeMovFields | core/src/execute.c:45-48 | a MOV word yields Rd from bits 8-10 and imm8 from bits 0-7 |
| Decoder.DecodeAddSubFields | core/src/execute.c:53-57 | an ADD/SUB word yields the sub-opcode from bits 9-10, Rm 6-8, Rn 3-5 and Rd 0-2 |
| Decoder.DecodeBranchField | core/src/execute.c:71-72 | a B word yields its 11-bit offset field from bits 0-10 |
| Decoder.EncodeDecode | core/src/execute.c:37-44 | decoding loses nothing: every 16-bit word is re-encoded to itself |
| Decoder.DecodeEncode | core/src/execute.c:37-44 | a well-formed instruction in the layouts of the executor's comments decodes back to itself |
| Decoder.Encode | core/src/execute.c:37-40 | the encoding of each form carries that form's opcode in bits 11-15, in the layouts written in the executor's comments |
| Decoder.KnownEncodings | test/test_simulator.c:120 | `0x2005`, the test's word, is MOV R0,#5; the words of the model's demonstration program decode as `0x2103` MOV R1,#3, `0x1882` ADD R2,R0,R2 and `0xE7FE` B with offset -2 |
| MemoryBus.RegionsDisjoint | core/include/memory_map.h:8-15 | flash and SRAM never overlap, and both lie below the peripheral base |
| MemoryBus.ReadByte | core/src/memory.c:29-38 | a flash address reads the flash byte at its offset; an SRAM address reads the SRAM byte; anything else reads 0xFF |
| MemoryBus.ReadHalfword | core/include/memory.h:25 | the low byte of the halfword is the byte at `addr` and the high byte the one at `addr + 1`, with the address wrapping at 2^32 |
| MemoryBus.Memory.Init | core/src/memory.c:5-20 | both buffers are freshly allocated, of the configured sizes, and zero-filled |
| MemoryBus.Memory.WriteByte | core/src/memory.c:40-46 | an SRAM address stores the value there and reads it back; flash and unmapped writes change nothing; every other address reads as before |
| MemoryBus.FetchOfCopiedWord | test/test_simulator.c:119-124 | the bytes 0x05, 0x20 at the start of flash fetch as the halfword 0x2005 |
| CpuState.Cpu.Reset | core/src/cpu_state.c:4-20 | afterwards every general register, every special register and `pc` is zero, whatever the state before |
| Gpio.WindowIndexCorrect | core/src/gpio.c:40-47 | port `i`'s window contains the address exactly when the direct computation `(a - base_A) / 0x400` gives `i`, so the windows never overlap |
| Gpio.WindowIndex | core/src/gpio.c:40-47 | the closed form of the port scan always yields -1 or a port number 0-6; `WindowIndexCorrect` ties it to the window test |
| Gpio.OffsetIsLowBits | core/src/gpio.c:50-57 | inside a window, the distance from the port's base is the address modulo 0x400 |
| Gpio.GetPortIndex | core/src/gpio.c:40-47 | the scan returns -1 exactly when no window holds the address; otherwise it returns the window that holds it |
| Gpio.GetRegisterOffset | core/src/gpio.c:50-57 | the scan returns the distance into the owning window (the address modulo 0x400), or 0 outside every window |
| Gpio.PortRead | core/src/gpio.c:69-89 | BSRR and BRR read as ODR; an unlisted offset reads 0xFFFFFFFF |
| Gpio.ResetPhase | core/src/gpio.c:116-119 | the guarded reset clears exactly the bits of the low half, and a zero low half changes nothing |
| Gpio.SetPhase | core/src/gpio.c:120-123 | the guarded set ORs in the high half moved down, and a zero high half changes nothing |
| Gpio.BsrrUpdate | core/src/gpio.c:112-124 | a BSRR write applies the reset phase and then the set phase, so every bit named in the set half is set afterwards, even if the reset half names it too |
| Gpio.BsrrClosedForm | core/src/gpio.c:112-124 | a BSRR write leaves `(odr & ~low) \| high`, whatever the guards |
| Gpio.BsrrResetClears | core/src/gpio.c:116-119 | a bit named only in the reset half is clear afterwards |
| Gpio.BsrrKeepsOthers | core/src/gpio.c:112-124 | a bit named in neither half keeps its value |
| Gpio.BsrrUpperUntouched | core/src/gpio.c:112-124 | bits 16-31 of ODR never change on a BSRR write |
| Gpio.PortWrite | core/src/gpio.c:102-135 | IDR, BSRR and BRR never store a written value; a write to IDR or to an unlisted offset leaves the port unchanged; CRL, CRH, LCKR and ODR change only when the write targets them (ODR through ODR, BSRR or BRR) |
| Gpio.WriteLeavesOtherReads | core/src/gpio.c:102-135 | a write changes only the register it targets: every other register reads as before, apart from ODR, BSRR and BRR, which all read ODR |
| Gpio.StoredRegisterReadsBack | core/src/gpio.c:103-111 | a value written to CRL, CRH, ODR or LCKR reads back unchanged |
| Gpio.SetResetVisibleInOdr | core/src/gpio.c:78-83 | after a BSRR write, reading ODR or BSRR gives the updated ODR; after a BRR write, reading BRR gives ODR with the value's bits cleared |
| Gpio.BsrrExample | test/test_gpio.c:103-116 | from ODR 0, writing `0xC \| (0x5 << 16)` to BSRR leaves ODR = 5 |
| Gpio.TestAddresses | test/test_gpio.c:60-65 | 0xDEADBEEF is in no port, and port A's CRL and ODR sit in window 0 at offsets 0x00 and 0x0C |
| Gpio.GpioState.Init | core/src/gpio.c:16-24 | every register of every port is zero, and the address table holds the seven bases in port order |
| Gpio.GpioState.Reset | core/src/gpio.c:26-37 | every register of every port is zero |
| Gpio.GpioState.ReadRegister | core/src/gpio.c:59-90 | outside every window the read gives 0xFFFFFFFF; otherwise it gives the owning port's register at the address's offset |
| Gpio.GpioState.WriteRegister | core/src/gpio.c:92-136 | outside every window nothing changes; otherwise only the owning port changes, by the register dispatch |
| Execute.ExecPc | core/src/execute.c:29-30 | MOV and ADD/SUB leave `pc` two past the instruction; B sets it to the branch target; an unknown word sets it to 0xFFFFFFFF |
| Execute.ExecResult | core/src/execute.c:45-64 | MOV writes imm8 to Rd; ADD writes `Rn + Rm` and SUB writes `Rn - Rm`, both modulo 2^32 |
| Execute.ExecFrame | core/src/execute.c:44-97 | a step writes at most one register, always among R0-R7; B, unknown words and ADD/SUB variants 10 and 11 write none |
| Execute.BranchOffset | core/src/execute.c:72-82 | the byte displacement of a branch is always even |
| Execute.BranchTarget | core/src/execute.c:82-84 | bit 1 of every branch target is clear, and the target differs from `(pc + 4) + offset` in no other bit |
| Execute.AddSubRegs | core/src/execute.c:53-68 | the ADD/SUB group leaves every register other than Rd unchanged |
| Execute.Exec | core/src/execute.c:44-97 | one decoded instruction keeps a sixteen-register core; what it does to `pc` and the registers is stated by `ExecPc`, `ExecResult` and `ExecFrame` |
| Execute.StepCore | core/src/execute.c:20-98 | one step executes the word fetched at the core's `pc` and keeps a sixteen-register core |
| Execute.RunCore | core/src/execute.c:100-110 | the run ends only with `pc` at or past the end of flash or with the counter below zero; the step and counter accounting is `RunAccounting` |
| Execute.BranchDisplacement | core/src/execute.c:72-82 | the byte displacement is `2 * imm11` for a field below 1024 and `-(2 * (2048 - imm11))` modulo 2^32 from 1024 on |
| Execute.BranchExamples | core/src/execute.c:71-88 | `0xE7FE` is a B; from 0x08000004 and from 0x08000006 it targets 0x08000004 |
| Execute.RunAccounting | core/src/execute.c:100-110 | steps taken plus counter left equals the counter at the start; the counter never grows; the run ends only with `pc` past flash or the counter below zero; a core past flash or a spent counter is returned unchanged |
| Execute.SharedBudget | core/src/execute.c:103-104 | two runs in a row take no more steps together than the one counter allowed at the start |
| Execute.MovFromFlash | test/test_simulator.c:119-137 | with `MOV R0, #5` at the start of flash, one step from there leaves 5 in R0, every other register unchanged, and `pc` at 0x08000002 |
| Execute.RunFromResetPc | core/src/cpu_state.c:19 | a run from `pc = 0` with counter left takes exactly one step and parks `pc` at 0xFFFFFFFF |
| Scenario.LoopBody | core/src/execute.c:53-88 | the word at 0x08000004 adds R0 to R2 and moves on, and the branch at 0x08000006 returns to 0x08000004 with the registers untouched |
| Scenario.LoopRuns | core/src/execute.c:100-110 | from the ADD with counter `2k`, the run goes round the loop `k` times, adding R0 to R2 each time, and stops on the ADD with the counter at -1 |
| Scenario.DemoProgram | core/src/execute.c:20-110 | the four-instruction program at the start of flash, run with counter 20, ends with R0 = 5, R1 = 3, R2 = 45, `pc` = 0x08000004, after 20 steps; the counter stops it, not leaving flash |
| Execute.StepCounter.constructor | core/src/execute.c:103 | the shared step counter starts at 20 |
| Execute.Simulator.Step | core/src/execute.c:20-98 | the registers and `pc` afterwards are one step of the core on the word fetched at the old `pc`; memory, the special registers and GPIO are not touched |
| Execute.Simulator.Dispatch | core/src/execute.c:44-97 | with `pc` already advanced, the switch gives the core that the decoded instruction yields |
| Execute.Simulator.MoveImmediate | core/src/execute.c:45-51 | MOV changes only Rd, which becomes imm8 |
| Execute.Simulator.AddSubRegister | core/src/execute.c:53-69 | the ADD/SUB group changes the registers exactly as the group's register update says |
| Execute.Simulator.Run | core/src/execute.c:100-110 | the registers, `pc` and the shared counter afterwards are those of the run specification from the old state |

## Left out

- Console output (`printf`, `perror`): it has no effect on the state.
- Allocation failure in `memory_init`: the Dafny allocator does not fail, so the `false` result is never produced.
- `memory_free`: releasing the buffers has no counterpart in Dafny.
- `memory_read_word`: it is declared but not defined, and nothing in the core calls it.
- The condition flags: no implemented instruction updates xPSR, so the flag-setting forms are modelled as the code runs them.
- Other instruction forms: the code does not implement them. ADD/SUB immediate (sub-opcodes `10` and `11` of the ADD/SUB group) only advance `pc`, and every word outside the three opcode classes parks `pc` at `0xFFFFFFFF`, as modelled.
- UsageFault: the code parks `pc` instead of raising it, and the model does the same.
- The vector-table reset: `cpu_reset` leaves MSP and `pc` at zero instead of loading them from flash, and the model does the same.
- Execute.WrappingAdd: stated as `bv32` addition and given no integer-level contract; the wrap-around is the type's own arithmetic.
- Execute.WrappingSub: the same, as `bv32` subtraction.
- Gpio.GpioState.Init: the address table is filled but never read back. Port lookup uses the same constant table, as the C `static` array does.
- The test and demo `main` programs: they drive the core through I/O. Their scenarios appear as the lemmas `KnownEncodings`, `FetchOfCopiedWord`, `MovFromFlash`, `BsrrExample` and `TestAddresses`.
