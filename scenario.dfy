/**
 * The end-to-end program `MOV R0, #5; MOV R1, #3; ADD R2, R0, R2; B -2`
 * loaded at the start of flash and run from `0x08000000` with the full
 * step counter. The branch clears bit 1 of its target, so it lands on
 * the ADD rather than on itself: the loop adds R0 to R2 once every two
 * steps until the counter runs out.
 */
module Scenario {

  import opened Decoder
  import MemoryBus
  import opened Execute

  const PROGRAM_START: bv32 := 0x0800_0000
  const LOOP_START: bv32 := 0x0800_0004

  /** The eight bytes of the four halfwords, little-endian, at the start of flash. */
  predicate HoldsProgram(img: MemoryBus.Image) {
    && MemoryBus.ValidImage(img)
    && img.flash[0] == 0x05 && img.flash[1] == 0x20
    && img.flash[2] == 0x03 && img.flash[3] == 0x21
    && img.flash[4] == 0x82 && img.flash[5] == 0x18
    && img.flash[6] == 0xFE && img.flash[7] == 0xE7
  }

  /** `x` with `y` added `k` times, wrapping at 2^32. */
  function AddTimes(x: bv32, y: bv32, k: nat): (r: bv32)
    decreases k
  {
    if k == 0 then x else AddTimes(WrappingAdd(y, x), y, k - 1)
  }

  /** The ADD at `0x08000004` and the branch after it: two steps back to the ADD, R2 grown by R0. */
  lemma LoopBody(img: MemoryBus.Image, regs: seq<bv32>)
    requires HoldsProgram(img) && |regs| == 16
    ensures StepCore(img, Core(regs, LOOP_START)) == Core(regs[2 := WrappingAdd(regs[0], regs[2])], LOOP_START + 2)
    ensures StepCore(img, Core(regs, LOOP_START + 2)) == Core(regs, LOOP_START)
  {
    assert MemoryBus.ReadHalfword(img, LOOP_START) == 0x1882;
    assert MemoryBus.ReadHalfword(img, LOOP_START + 2) == 0xE7FE;
    KnownEncodings();
    BranchExamples();
  }

  /**
   * From the ADD with an even counter `2 * k`, the run goes round the loop
   * `k` times and stops at the ADD with the counter at -1.
   */
  lemma {:induction false} LoopRuns(img: MemoryBus.Image, regs: seq<bv32>, k: nat)
    requires HoldsProgram(img) && |regs| == 16
    ensures RunCore(img, Core(regs, LOOP_START), 2 * k)
      == RunOutcome(Core(regs[2 := AddTimes(regs[2], regs[0], k)], LOOP_START), -1, 2 * k)
    decreases k
  {
    if k == 0 {
      assert regs[2 := AddTimes(regs[2], regs[0], 0)] == regs;
    } else {
      var next := regs[2 := WrappingAdd(regs[0], regs[2])];
      LoopBody(img, regs);
      LoopBody(img, next);
      assert RunCore(img, Core(regs, LOOP_START), 2 * k)
        == var rest := RunCore(img, Core(next, LOOP_START), 2 * (k - 1));
           RunOutcome(rest.core, rest.counter, rest.steps + 2);
      LoopRuns(img, next, k - 1);
      assert next[2 := AddTimes(next[2], regs[0], k - 1)] == regs[2 := AddTimes(regs[2], regs[0], k)];
    }
  }

  /**
   * The whole program with the counter at 20: two MOVs, then nine rounds of
   * ADD and B. It ends with R0 = 5, R1 = 3, R2 = 45 and `pc` on the ADD,
   * stopped by the counter after 20 steps, never by leaving flash.
   */
  lemma DemoProgram(img: MemoryBus.Image, regs: seq<bv32>)
    requires HoldsProgram(img) && |regs| == 16 && regs[2] == 0
    ensures var out := RunCore(img, Core(regs, PROGRAM_START), MAX_STEPS);
      && out.core.regs == regs[0 := 5][1 := 3][2 := 45]
      && out.core.pc == LOOP_START
      && out.counter == -1 && out.steps == 20
  {
    assert MemoryBus.ReadHalfword(img, PROGRAM_START) == 0x2005;
    assert MemoryBus.ReadHalfword(img, PROGRAM_START + 2) == 0x2103;
    KnownEncodings();
    var afterMovs := regs[0 := 5][1 := 3];
    assert StepCore(img, Core(regs, PROGRAM_START)) == Core(regs[0 := 5], PROGRAM_START + 2);
    assert StepCore(img, Core(regs[0 := 5], PROGRAM_START + 2)) == Core(afterMovs, LOOP_START);
    LoopRuns(img, afterMovs, 9);
    assert AddTimes(0, 5, 9) == 45;
  }
}
