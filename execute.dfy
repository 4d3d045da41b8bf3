/**
 * The executor: `simulator_step` fetches the halfword at `pc`, advances
 * `pc` by 2 and carries out MOV (immediate), ADD/SUB (register) or B. In
 * the ADD/SUB group (bits 11-15 = 00011) the sub-opcodes 10 and 11 change
 * no register and only advance `pc`; a word whose bits 11-15 are none of
 * 00100, 00011 and 11100 parks `pc` at 0xFFFFFFFF. `simulator_run` steps while `pc`
 * lies below the end of flash, bounded by a step counter that starts at 20
 * and is shared by every call.
 *
 * The step and the run are specified by functions on a value `Core` (the
 * general registers and `pc`); the methods on the simulator's objects are
 * proved to follow them, and the properties are proved about the functions.
 */
module Execute {

  import opened Decoder
  import MemoryBus
  import CpuState
  import Gpio

  /** One past the last flash address, as the run loop compares it. */
  const FLASH_END: bv32 := 0x0801_0000

  /** Where the unknown-instruction path parks `pc`. */
  const HALT_PC: bv32 := 0xFFFF_FFFF

  /** The initial value of the run loop's step counter. */
  const MAX_STEPS: int := 20

  /** The part of the processor state a step can change. */
  datatype Core = Core(regs: seq<bv32>, pc: bv32)

  predicate ValidCore(c: Core) {
    |c.regs| == CpuState.NUM_REGS
  }

  /**
   * The byte displacement of a branch: the 11-bit field sign-extended and
   * shifted left once; the shift of a negative offset is taken as two's
   * complement, wrapping at 2^32.
   */
  function BranchOffset(imm11: bv32): (o: bv32)
    requires imm11 < 2048
    ensures o & 1 == 0
  {
    SignExtend(imm11, 11) << 1
  }

  /**
   * The branch target `(pc + 4) + offset` with bit 1 cleared; the sum wraps
   * at 2^32. Bit 1 of a target is always clear, and the target differs from
   * the sum in no other bit.
   */
  function BranchTarget(pc: bv32, imm11: bv32): (t: bv32)
    requires imm11 < 2048
    ensures t & 2 == 0
    ensures t | 2 == ((pc + 4) + BranchOffset(imm11)) | 2
  {
    ((pc + 4) + BranchOffset(imm11)) & !2
  }

  /** `uint32_t` addition and subtraction: bit-vector arithmetic, wrapping at 2^32. */
  function WrappingAdd(x: bv32, y: bv32): (r: bv32) {
    x + y
  }

  function WrappingSub(x: bv32, y: bv32): (r: bv32) {
    x - y
  }

  /**
   * The registers after the ADD/SUB (register) group: sub-opcode 00 writes
   * `Rn + Rm` to `Rd`, 01 writes `Rn - Rm`, and the other two change nothing.
   */
  function AddSubRegs(regs: seq<bv32>, subOp: bv32, rm: int, rn: int, rd: int): (r: seq<bv32>)
    requires |regs| == CpuState.NUM_REGS && 0 <= rm < 8 && 0 <= rn < 8 && 0 <= rd < 8
    ensures |r| == |regs|
    ensures forall k | 0 <= k < |regs| && k != rd :: r[k] == regs[k]
  {
    if subOp == 0 then regs[rd := WrappingAdd(regs[rn], regs[rm])]
    else if subOp == 1 then regs[rd := WrappingSub(regs[rn], regs[rm])]
    else regs
  }

  /** What a decoded instruction does to the core; `pc` here is the address it was fetched from. */
  function Exec(c: Core, i: Instr): (d: Core)
    requires ValidCore(c) && WellFormed(i)
    ensures ValidCore(d)
  {
    match i
    case MovImm(rd, imm8) => Core(c.regs[rd as int := imm8], c.pc + 2)
    case AddSubReg(subOp, rm, rn, rd) => Core(AddSubRegs(c.regs, subOp, rm as int, rn as int, rd as int), c.pc + 2)
    case Branch(imm11) => Core(c.regs, BranchTarget(c.pc, imm11))
    case Unknown(_) => Core(c.regs, HALT_PC)
  }

  /** The register an instruction writes, or -1 when it writes none. */
  function DestReg(i: Instr): (k: int)
    requires WellFormed(i)
  {
    match i
    case MovImm(rd, _) => rd as int
    case AddSubReg(subOp, _, _, rd) => if subOp == 0 || subOp == 1 then rd as int else -1
    case _ => -1
  }

  /** One step of `simulator_step` on a core, fetching the instruction from the memory image `img`. */
  function StepCore(img: MemoryBus.Image, c: Core): (d: Core)
    requires MemoryBus.ValidImage(img) && ValidCore(c)
    ensures ValidCore(d)
  {
    Exec(c, Decode(MemoryBus.ReadHalfword(img, c.pc)))
  }

  /** The core after `run`, the counter left behind, and how many steps were taken. */
  datatype RunOutcome = RunOutcome(core: Core, counter: int, steps: nat)

  function Max0(x: int): (n: nat) {
    if x > 0 then x else 0
  }

  /**
   * `simulator_run` on a core with the counter at `counter`: while `pc` is
   * below the end of flash, the counter is checked and decremented (also on
   * the iteration that stops the run), and one step is taken if it was
   * positive.
   */
  function RunCore(img: MemoryBus.Image, c: Core, counter: int): (out: RunOutcome)
    requires MemoryBus.ValidImage(img) && ValidCore(c)
    ensures ValidCore(out.core)
    ensures out.core.pc >= FLASH_END || out.counter < 0
    decreases Max0(counter)
  {
    if c.pc >= FLASH_END then RunOutcome(c, counter, 0)
    else if counter <= 0 then RunOutcome(c, counter - 1, 0)
    else
      var rest := RunCore(img, StepCore(img, c), counter - 1);
      RunOutcome(rest.core, rest.counter, rest.steps + 1)
  }

  // ---------------------------------------------------------------------
  // Properties of one step
  // ---------------------------------------------------------------------

  /**
   * MOV, ADD and SUB, and the two ADD/SUB variants that do nothing, leave
   * `pc` two past the instruction; the unknown path parks it at 0xFFFFFFFF.
   */
  lemma ExecPc(c: Core, i: Instr)
    requires ValidCore(c) && WellFormed(i)
    ensures i.MovImm? || i.AddSubReg? ==> Exec(c, i).pc == c.pc + 2
    ensures i.Unknown? ==> Exec(c, i).pc == HALT_PC
    ensures i.Branch? ==> Exec(c, i).pc == BranchTarget(c.pc, i.imm11)
  {
  }

  /** The value each instruction leaves in its destination register. */
  lemma ExecResult(c: Core, i: Instr)
    requires ValidCore(c) && WellFormed(i)
    ensures i.MovImm? ==> Exec(c, i).regs[i.rd as int] == i.imm8
    ensures i.AddSubReg? && i.subOp == 0 ==>
      Exec(c, i).regs[i.rd as int] == c.regs[i.rn as int] + c.regs[i.rm as int]
    ensures i.AddSubReg? && i.subOp == 1 ==>
      Exec(c, i).regs[i.rd as int] == c.regs[i.rn as int] - c.regs[i.rm as int]
  {
  }

  /**
   * A step writes at most one register, and that one is among R0-R7 since
   * the destination field is three bits wide: R8-R15 never change, and
   * branches, unknown words and the ADD/SUB variants 10 and 11 change none.
   */
  lemma ExecFrame(c: Core, i: Instr)
    requires ValidCore(c) && WellFormed(i)
    ensures -1 <= DestReg(i) < 8
    ensures forall k | 0 <= k < CpuState.NUM_REGS && k != DestReg(i) :: Exec(c, i).regs[k] == c.regs[k]
  {
  }

  /**
   * The branch displacement: forward by `2 * imm11` for a field below 1024,
   * backward by `2 * (2048 - imm11)` from 1024 on.
   */
  lemma BranchDisplacement(imm11: bv32)
    requires imm11 < 2048
    ensures imm11 < 1024 ==> BranchOffset(imm11) == 2 * imm11
    ensures imm11 >= 1024 ==> BranchOffset(imm11) == 0 - 2 * (2048 - imm11)
  {
  }

  /**
   * `0xE7FE` (B with offset -2) at an address whose bit 1 is clear branches
   * to itself, but at `0x08000006` it lands on `0x08000004`.
   */
  lemma BranchExamples()
    ensures Decode(0xE7FE) == Branch(0x7FE)
    ensures BranchTarget(0x0800_0004, 0x7FE) == 0x0800_0004
    ensures BranchTarget(0x0800_0006, 0x7FE) == 0x0800_0004
  {
    KnownEncodings();
  }

  // ---------------------------------------------------------------------
  // Properties of the run loop
  // ---------------------------------------------------------------------

  /**
   * Every unit of positive counter is either spent on a step or left over,
   * and the run stops only with `pc` past flash or with the counter below
   * zero; a core already past flash is returned untouched.
   */
  lemma {:induction false} RunAccounting(img: MemoryBus.Image, c: Core, counter: int)
    requires MemoryBus.ValidImage(img) && ValidCore(c)
    ensures var out := RunCore(img, c, counter);
      && out.steps + Max0(out.counter) == Max0(counter)
      && out.counter <= counter
      && (out.core.pc >= FLASH_END || out.counter < 0)
      && (c.pc >= FLASH_END ==> out == RunOutcome(c, counter, 0))
      && (counter <= 0 ==> out.core == c && out.steps == 0)
    decreases Max0(counter)
  {
    if c.pc >= FLASH_END || counter <= 0 {
    } else {
      RunAccounting(img, StepCore(img, c), counter - 1);
    }
  }

  /**
   * The counter is shared by all calls and never refilled: two runs in a row
   * take no more steps together than the counter allowed at the start.
   */
  lemma SharedBudget(img: MemoryBus.Image, c: Core, counter: int)
    requires MemoryBus.ValidImage(img) && ValidCore(c)
    ensures var first := RunCore(img, c, counter);
      var second := RunCore(img, first.core, first.counter);
      first.steps + second.steps <= Max0(counter)
  {
    var first := RunCore(img, c, counter);
    RunAccounting(img, c, counter);
    RunAccounting(img, first.core, first.counter);
  }

  /**
   * With `MOV R0, #5` (bytes 0x05 0x20) at the start of flash, one step from
   * there leaves 5 in R0 and moves `pc` to the next halfword.
   */
  lemma MovFromFlash(img: MemoryBus.Image, c: Core)
    requires MemoryBus.ValidImage(img) && ValidCore(c)
    requires img.flash[0] == 0x05 && img.flash[1] == 0x20 && c.pc == 0x0800_0000
    ensures StepCore(img, c).regs == c.regs[0 := 5]
    ensures StepCore(img, c).pc == 0x0800_0002
  {
    MemoryBus.FetchOfCopiedWord(img);
    KnownEncodings();
  }

  /**
   * Straight after `cpu_reset`, `pc` is 0: nothing is mapped there, the
   * fetch yields 0xFFFF, which is no known instruction, so a run with
   * counter left takes exactly one step and stops with `pc` parked.
   */
  lemma RunFromResetPc(img: MemoryBus.Image, c: Core, counter: int)
    requires MemoryBus.ValidImage(img) && ValidCore(c) && c.pc == 0 && counter > 0
    ensures RunCore(img, c, counter) == RunOutcome(Core(c.regs, HALT_PC), counter - 1, 1)
  {
    assert MemoryBus.ReadHalfword(img, 0) == 0xFFFF;
    assert Decode(0xFFFF).Unknown?;
  }

  // ---------------------------------------------------------------------
  // The objects of the simulator
  // ---------------------------------------------------------------------

  /** The function-static `max_steps` of the run loop: one per program, shared by every simulator. */
  class StepCounter {
    var remaining: int

    constructor ()
      ensures remaining == MAX_STEPS
    {
      remaining := MAX_STEPS;
    }
  }

  /** `Simulator`: the register file, the memory bus and the GPIO bank. */
  class Simulator {
    const cpu: CpuState.Cpu
    const mem: MemoryBus.Memory
    const gpio: Gpio.GpioState

    ghost predicate Valid()
      reads this, cpu, mem, gpio
    {
      cpu.Valid() && mem.Valid() && gpio.Valid()
    }

    /** The registers and `pc` as a value. */
    function CoreOf(): (c: Core)
      reads this, cpu, cpu.regs
      requires cpu.Valid()
      ensures ValidCore(c)
    {
      Core(cpu.regs[..], cpu.pc)
    }

    constructor (cpu: CpuState.Cpu, mem: MemoryBus.Memory, gpio: Gpio.GpioState)
      requires cpu.Valid() && mem.Valid() && gpio.Valid()
      ensures Valid() && this.cpu == cpu && this.mem == mem && this.gpio == gpio
    {
      this.cpu := cpu;
      this.mem := mem;
      this.gpio := gpio;
    }

    /**
     * `simulator_step`: fetch at `pc`, advance `pc` by 2, then dispatch on
     * bits 11-15. Only the general registers and `pc` can change; memory,
     * the special registers and GPIO are left alone.
     */
    method Step()
      requires Valid()
      modifies cpu`pc, cpu.regs
      ensures Valid()
      ensures CoreOf() == StepCore(mem.Contents(), old(CoreOf()))
    {
      ghost var before := CoreOf();
      ghost var img := mem.Contents();
      var instr := MemoryBus.ReadHalfword(mem.Contents(), cpu.pc);
      assert StepCore(img, before) == Exec(before, Decode(instr));
      var currentPc := cpu.pc;
      cpu.pc := cpu.pc + 2;
      Dispatch(Decode(instr), currentPc);
      assert mem.Contents() == img;
    }

    /**
     * The switch of `simulator_step` on an instruction fetched at `currentPc`,
     * with `pc` already advanced past it.
     */
    method Dispatch(decoded: Instr, currentPc: bv32)
      requires Valid() && WellFormed(decoded) && cpu.pc == currentPc + 2
      modifies cpu`pc, cpu.regs
      ensures Valid()
      ensures CoreOf() == Exec(Core(old(cpu.regs[..]), currentPc), decoded)
    {
      match decoded {
      case MovImm(rd, imm8) =>
        MoveImmediate(rd as int, imm8);
      case AddSubReg(subOp, rm, rn, rd) =>
        AddSubRegister(subOp, rm as int, rn as int, rd as int);
      case Branch(imm11) =>
        cpu.pc := BranchTarget(currentPc, imm11);
      case Unknown(_) =>
        cpu.pc := HALT_PC;
      }
    }

    method MoveImmediate(rd: int, imm8: bv32)
      requires Valid() && 0 <= rd < 8
      modifies cpu.regs
      ensures Valid()
      ensures cpu.regs[..] == old(cpu.regs[..])[rd := imm8]
    {
      cpu.regs[rd] := imm8;
    }

    /** The ADD/SUB (register) group of `simulator_step`. */
    method AddSubRegister(subOp: bv32, rm: int, rn: int, rd: int)
      requires Valid() && 0 <= rm < 8 && 0 <= rn < 8 && 0 <= rd < 8
      modifies cpu.regs
      ensures Valid()
      ensures cpu.regs[..] == AddSubRegs(old(cpu.regs[..]), subOp, rm, rn, rd)
    {
      if subOp == 0 {
        cpu.regs[rd] := WrappingAdd(cpu.regs[rn], cpu.regs[rm]);
      } else if subOp == 1 {
        cpu.regs[rd] := WrappingSub(cpu.regs[rn], cpu.regs[rm]);
      }
    }

    /**
     * `simulator_run`: while `pc` is below the end of flash, test and
     * decrement the shared counter, stopping when it was not positive, and
     * otherwise step.
     */
    method Run(counter: StepCounter)
      requires Valid()
      modifies cpu`pc, cpu.regs, counter
      ensures Valid()
      ensures CoreOf() == RunCore(mem.Contents(), old(CoreOf()), old(counter.remaining)).core
      ensures counter.remaining == RunCore(mem.Contents(), old(CoreOf()), old(counter.remaining)).counter
    {
      ghost var img := mem.Contents();
      ghost var whole := RunCore(img, CoreOf(), counter.remaining);
      ghost var taken := 0;
      while cpu.pc < FLASH_END
        invariant Valid() && mem.Contents() == img
        invariant var rest := RunCore(img, CoreOf(), counter.remaining);
          rest.core == whole.core && rest.counter == whole.counter && rest.steps + taken == whole.steps
        decreases Max0(counter.remaining)
      {
        var before := counter.remaining;
        counter.remaining := counter.remaining - 1;
        if before <= 0 {
          break;
        }
        Step();
        taken := taken + 1;
      }
    }
  }
}
