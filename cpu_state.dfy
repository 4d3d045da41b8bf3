/**
 * The register file of the Cortex-M3 core: sixteen general registers, the
 * status and mask registers, the two banked stack pointers, and a program
 * counter kept in its own field, apart from `regs[15]`.
 */
module CpuState {

  const NUM_REGS: int := 16

  class Cpu {
    const regs: array<bv32>
    var xpsr: bv32
    var primask: bv32
    var faultmask: bv32
    var basepri: bv32
    var control: bv32
    var msp: bv32
    var psp: bv32
    var pc: bv32

    ghost predicate Valid()
      reads this
    {
      regs.Length == NUM_REGS
    }

    /** A register file whose contents are whatever the storage held: nothing is initialised. */
    constructor ()
      ensures Valid() && fresh(regs)
    {
      regs := new bv32[NUM_REGS];
    }

    /** Every general register, every special register and the program counter read zero. */
    ghost predicate IsReset()
      reads this, regs
    {
      && (forall k | 0 <= k < regs.Length :: regs[k] == 0)
      && xpsr == 0 && primask == 0 && faultmask == 0 && basepri == 0 && control == 0
      && msp == 0 && psp == 0 && pc == 0
    }

    /**
     * `cpu_reset`: zeroes the sixteen general registers one by one, then each
     * special register and the program counter. The result does not depend on
     * the state before, so resetting twice is resetting once.
     */
    method Reset()
      requires Valid()
      modifies this, regs
      ensures Valid()
      ensures IsReset()
    {
      var i := 0;
      while i < NUM_REGS
        invariant 0 <= i <= NUM_REGS
        invariant forall k | 0 <= k < i :: regs[k] == 0
      {
        regs[i] := 0;
        i := i + 1;
      }
      xpsr := 0;
      primask := 0;
      faultmask := 0;
      basepri := 0;
      control := 0;
      msp := 0;
      psp := 0;
      pc := 0;
    }
  }
}
