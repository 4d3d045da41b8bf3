/**
 * The GPIO bank: seven ports A to G laid out as on the STM32F10x (RM0008,
 * section 9.2), each a 0x400-byte window holding seven 32-bit registers.
 * A port is found by scanning the fixed base-address table; within a port
 * the register is chosen by its byte offset.
 */
module Gpio {

  const NUM_PORTS: int := 7

  /**
   * A 32-bit bus address. The window arithmetic on it never wraps, so it is
   * kept as an integer; register contents stay 32-bit patterns.
   */
  type Address = a: int | 0 <= a < 0x1_0000_0000

  const PORT_WINDOW: int := 0x400

  /** The fixed base addresses of ports A to G, 0x400 apart. */
  const PORT_BASES: seq<Address> :=
    [0x4001_0800, 0x4001_0C00, 0x4001_1000, 0x4001_1400, 0x4001_1800, 0x4001_1C00, 0x4001_2000]

  const CRL_OFFSET: int := 0x00
  const CRH_OFFSET: int := 0x04
  const IDR_OFFSET: int := 0x08
  const ODR_OFFSET: int := 0x0C
  const BSRR_OFFSET: int := 0x10
  const BRR_OFFSET: int := 0x14
  const LCKR_OFFSET: int := 0x18

  /** What a read returns for an address outside every port or at an unlisted offset. */
  const INVALID_VALUE: bv32 := 0xFFFF_FFFF

  /** The seven registers of one port. */
  datatype Port = Port(crl: bv32, crh: bv32, idr: bv32, odr: bv32, bsrr: bv32, brr: bv32, lckr: bv32)

  const ZERO_PORT: Port := Port(0, 0, 0, 0, 0, 0, 0)

  predicate IsRegisterOffset(offset: int) {
    offset in {CRL_OFFSET, CRH_OFFSET, IDR_OFFSET, ODR_OFFSET, BSRR_OFFSET, BRR_OFFSET, LCKR_OFFSET}
  }

  /** Port `i`'s window `[base_i, base_i + 0x400)` contains the address `a`. */
  predicate InWindow(a: int, i: int)
    requires 0 <= i < NUM_PORTS
  {
    PORT_BASES[i] <= a < PORT_BASES[i] + PORT_WINDOW
  }

  /**
   * The port an address belongs to, computed directly: the windows are
   * contiguous from port A on, so it is the distance from port A's base in
   * units of 0x400, or -1 outside `[0x40010800, 0x40012400)`.
   */
  function WindowIndex(a: int): (i: int)
    ensures -1 <= i < NUM_PORTS
  {
    var base := PORT_BASES[0];
    if base <= a < base + NUM_PORTS * PORT_WINDOW then (a - base) / PORT_WINDOW else -1
  }

  lemma DivideIntoWindows(d: int, i: int)
    requires 0 <= d && 0 <= i
    ensures PORT_WINDOW * i <= d < PORT_WINDOW * i + PORT_WINDOW <==> d / PORT_WINDOW == i
  {
  }

  /** Window `i` contains `a` exactly when the direct computation yields `i`; so no two windows overlap. */
  lemma WindowIndexCorrect(a: int, i: int)
    requires 0 <= i < NUM_PORTS
    ensures InWindow(a, i) <==> WindowIndex(a) == i
  {
    assert PORT_BASES[i] == PORT_BASES[0] + PORT_WINDOW * i;
    if PORT_BASES[0] <= a {
      DivideIntoWindows(a - PORT_BASES[0], i);
    }
  }

  /** Within a window, the distance from the port's base is the address modulo 0x400 (its low ten bits). */
  lemma OffsetIsLowBits(addr: Address)
    requires WindowIndex(addr) >= 0
    ensures addr % PORT_WINDOW == addr - PORT_BASES[WindowIndex(addr)]
  {
    var i := WindowIndex(addr);
    WindowIndexCorrect(addr, i);
    assert PORT_BASES[i] == PORT_WINDOW * (0x10_0042 + i);
  }

  /**
   * `get_gpio_port_index`: scans the windows in order and returns the first
   * that contains `addr`, or -1. It finds the one window the address lies in.
   */
  method GetPortIndex(addr: Address) returns (idx: int)
    ensures -1 <= idx < NUM_PORTS
    ensures idx == -1 <==> forall i | 0 <= i < NUM_PORTS :: !InWindow(addr, i)
    ensures idx >= 0 ==> InWindow(addr, idx)
    ensures idx == WindowIndex(addr)
  {
    for i := 0 to NUM_PORTS
      invariant forall j | 0 <= j < i :: !InWindow(addr, j)
      invariant WindowIndex(addr) < 0 || WindowIndex(addr) >= i
    {
      WindowIndexCorrect(addr, i);
      if PORT_BASES[i] <= addr && addr < PORT_BASES[i] + PORT_WINDOW {
        return i;
      }
    }
    return -1;
  }

  /**
   * `get_gpio_register_offset`: the same scan, returning how far `addr` lies
   * into its window, or 0 outside every window. Since every base is a
   * multiple of 0x400, the offset is the low ten bits of the address.
   */
  method GetRegisterOffset(addr: Address) returns (offset: int)
    ensures WindowIndex(addr) == -1 ==> offset == 0
    ensures WindowIndex(addr) >= 0 ==> offset == addr - PORT_BASES[WindowIndex(addr)]
    ensures WindowIndex(addr) >= 0 ==> offset == addr % PORT_WINDOW
  {
    for i := 0 to NUM_PORTS
      invariant WindowIndex(addr) < 0 || WindowIndex(addr) >= i
    {
      WindowIndexCorrect(addr, i);
      if PORT_BASES[i] <= addr && addr < PORT_BASES[i] + PORT_WINDOW {
        OffsetIsLowBits(addr);
        return addr - PORT_BASES[i];
      }
    }
    return 0;
  }

  /**
   * The register dispatch of `gpio_read_register` within one port. BSRR and
   * BRR keep nothing of their own: reading them shows the output data
   * register. An unlisted offset reads as 0xFFFFFFFF.
   */
  function PortRead(p: Port, offset: int): (v: bv32)
    ensures offset == BSRR_OFFSET || offset == BRR_OFFSET ==> v == p.odr
    ensures !IsRegisterOffset(offset) ==> v == INVALID_VALUE
  {
    if offset == CRL_OFFSET then p.crl
    else if offset == CRH_OFFSET then p.crh
    else if offset == IDR_OFFSET then p.idr
    else if offset == ODR_OFFSET then p.odr
    else if offset == BSRR_OFFSET then p.odr
    else if offset == BRR_OFFSET then p.odr
    else if offset == LCKR_OFFSET then p.lckr
    else INVALID_VALUE
  }

  /** The first phase of a BSRR write: the low half of `value` clears bits, skipped when it is zero. */
  function ResetPhase(odr: bv32, value: bv32): (r: bv32)
    ensures r == odr & !(value & 0xFFFF)
  {
    if value & 0xFFFF != 0 then odr & !(value & 0xFFFF) else odr
  }

  /** The second phase: the high half of `value`, moved down, sets bits, skipped when it is zero. */
  function SetPhase(odr: bv32, value: bv32): (r: bv32)
    ensures r == odr | (value >> 16)
  {
    if value & 0xFFFF_0000 != 0 then odr | (value >> 16) else odr
  }

  /** A BSRR write to output data `odr`: reset, then set, so a bit named in both halves ends up set. */
  function BsrrUpdate(odr: bv32, value: bv32): (r: bv32)
    ensures r & (value >> 16) == value >> 16
  {
    SetPhase(ResetPhase(odr, value), value)
  }

  /** The zero-half guards change nothing: one formula covers every value. */
  lemma BsrrClosedForm(odr: bv32, value: bv32)
    ensures BsrrUpdate(odr, value) == (odr & !(value & 0xFFFF)) | (value >> 16)
  {
  }

  /** A bit named only in the reset half is clear afterwards. */
  lemma BsrrResetClears(odr: bv32, value: bv32)
    ensures BsrrUpdate(odr, value) & (value & 0xFFFF) & !(value >> 16) == 0
  {
    BsrrClosedForm(odr, value);
  }

  /** A bit named in neither half keeps its value. */
  lemma BsrrKeepsOthers(odr: bv32, value: bv32)
    ensures BsrrUpdate(odr, value) & !((value & 0xFFFF) | (value >> 16)) == odr & !((value & 0xFFFF) | (value >> 16))
  {
    BsrrClosedForm(odr, value);
  }

  /** Both halves of `value` address bits 0-15 only: bits 16-31 of ODR are never touched. */
  lemma BsrrUpperUntouched(odr: bv32, value: bv32)
    ensures BsrrUpdate(odr, value) & 0xFFFF_0000 == odr & 0xFFFF_0000
  {
    BsrrClosedForm(odr, value);
  }

  /**
   * The register dispatch of `gpio_write_register` within one port. IDR,
   * BSRR and BRR never store what is written; a write at an unlisted offset
   * or at IDR changes nothing.
   */
  function PortWrite(p: Port, offset: int, value: bv32): (q: Port)
    ensures q.idr == p.idr && q.bsrr == p.bsrr && q.brr == p.brr
    ensures offset == IDR_OFFSET || !IsRegisterOffset(offset) ==> q == p
    ensures offset != CRL_OFFSET ==> q.crl == p.crl
    ensures offset != CRH_OFFSET ==> q.crh == p.crh
    ensures offset != LCKR_OFFSET ==> q.lckr == p.lckr
    ensures !ReadsOdr(offset) ==> q.odr == p.odr
  {
    if offset == CRL_OFFSET then p.(crl := value)
    else if offset == CRH_OFFSET then p.(crh := value)
    else if offset == ODR_OFFSET then p.(odr := value)
    else if offset == BSRR_OFFSET then p.(odr := BsrrUpdate(p.odr, value))
    else if offset == BRR_OFFSET then p.(odr := p.odr & !value)
    else if offset == LCKR_OFFSET then p.(lckr := value)
    else p
  }

  /** A value written to CRL, CRH, ODR or LCKR reads back unchanged. */
  lemma StoredRegisterReadsBack(p: Port, offset: int, value: bv32)
    requires offset in {CRL_OFFSET, CRH_OFFSET, ODR_OFFSET, LCKR_OFFSET}
    ensures PortRead(PortWrite(p, offset, value), offset) == value
  {
  }

  /** The offsets whose reads return the output data register. */
  predicate ReadsOdr(offset: int) {
    offset == ODR_OFFSET || offset == BSRR_OFFSET || offset == BRR_OFFSET
  }

  /** Two ports that agree on the field behind `offset` read the same there. */
  lemma SameFieldsSameRead(p: Port, q: Port, offset: int)
    requires offset == CRL_OFFSET ==> q.crl == p.crl
    requires offset == CRH_OFFSET ==> q.crh == p.crh
    requires offset == IDR_OFFSET ==> q.idr == p.idr
    requires offset == LCKR_OFFSET ==> q.lckr == p.lckr
    requires ReadsOdr(offset) ==> q.odr == p.odr
    ensures PortRead(q, offset) == PortRead(p, offset)
  {
  }

  /**
   * A write reaches only the register it targets: every other register reads
   * as before, except that ODR, BSRR and BRR all read the one ODR field.
   */
  lemma WriteLeavesOtherReads(p: Port, offset: int, value: bv32, other: int)
    requires IsRegisterOffset(other) && other != offset
    requires !(ReadsOdr(offset) && ReadsOdr(other))
    ensures PortRead(PortWrite(p, offset, value), other) == PortRead(p, other)
  {
    var q := PortWrite(p, offset, value);
    SameFieldsSameRead(p, q, other);
  }

  /** A BSRR write is seen through every read of ODR, BSRR and BRR; a BRR write clears `value`'s bits. */
  lemma SetResetVisibleInOdr(p: Port, value: bv32)
    ensures PortRead(PortWrite(p, BSRR_OFFSET, value), ODR_OFFSET) == BsrrUpdate(p.odr, value)
    ensures PortRead(PortWrite(p, BSRR_OFFSET, value), BSRR_OFFSET) == BsrrUpdate(p.odr, value)
    ensures PortRead(PortWrite(p, BRR_OFFSET, value), BRR_OFFSET) == p.odr & !value
  {
  }

  /** The BSRR case of the tests: with ODR 0, writing `0x0000000C | (0x5 << 16)` leaves ODR 5. */
  lemma BsrrExample()
    ensures BsrrUpdate(0, 0x0005_000C) == 5
  {
  }

  /**
   * The addresses of the register-access tests: 0xDEADBEEF lies in no port,
   * and port A's CRL and ODR sit at offsets 0x00 and 0x0C of window 0.
   */
  lemma TestAddresses()
    ensures WindowIndex(0xDEAD_BEEF) == -1
    ensures WindowIndex(PORT_BASES[0] + CRL_OFFSET) == 0 && (PORT_BASES[0] + CRL_OFFSET) % PORT_WINDOW == CRL_OFFSET
    ensures WindowIndex(PORT_BASES[0] + ODR_OFFSET) == 0 && (PORT_BASES[0] + ODR_OFFSET) % PORT_WINDOW == ODR_OFFSET
  {
  }

  class GpioState {
    const ports: array<Port>
    const portAddresses: array<Address>

    ghost predicate Valid()
      reads this
    {
      ports.Length == NUM_PORTS && portAddresses.Length == NUM_PORTS
    }

    /** `gpio_init`: every register of every port zero, and the address table filled in port order. */
    constructor Init()
      ensures Valid() && fresh(ports) && fresh(portAddresses)
      ensures forall i | 0 <= i < NUM_PORTS :: ports[i] == ZERO_PORT
      ensures portAddresses[..] == PORT_BASES
    {
      var addresses := new Address[NUM_PORTS](_ => 0);
      for i := 0 to NUM_PORTS
        invariant forall j | 0 <= j < i :: addresses[j] == PORT_BASES[j]
      {
        addresses[i] := PORT_BASES[i];
      }
      portAddresses := addresses;
      ports := new Port[NUM_PORTS](_ => ZERO_PORT);
    }

    /** `gpio_reset`: every register of every port zero; the address table untouched. */
    method Reset()
      requires Valid()
      modifies ports
      ensures forall i | 0 <= i < NUM_PORTS :: ports[i] == ZERO_PORT
    {
      for i := 0 to NUM_PORTS
        invariant forall j | 0 <= j < i :: ports[j] == ZERO_PORT
      {
        ports[i] := ZERO_PORT;
      }
    }

    /**
     * `gpio_read_register`: 0xFFFFFFFF outside every window, otherwise the
     * owning port's register at the address's offset.
     */
    method ReadRegister(addr: Address) returns (v: bv32)
      requires Valid()
      ensures WindowIndex(addr) == -1 ==> v == INVALID_VALUE
      ensures WindowIndex(addr) >= 0 ==> v == PortRead(ports[WindowIndex(addr)], addr % PORT_WINDOW)
    {
      var idx := GetPortIndex(addr);
      if idx == -1 {
        return INVALID_VALUE;
      }
      var offset := GetRegisterOffset(addr);
      v := PortRead(ports[idx], offset);
    }

    /**
     * `gpio_write_register`: outside every window nothing changes; otherwise
     * only the owning port is updated, by its register dispatch.
     */
    method WriteRegister(addr: Address, value: bv32)
      requires Valid()
      modifies ports
      ensures WindowIndex(addr) == -1 ==> ports[..] == old(ports[..])
      ensures WindowIndex(addr) >= 0 ==>
        ports[..] == old(ports[..])[WindowIndex(addr) := PortWrite(old(ports[WindowIndex(addr)]), addr % PORT_WINDOW, value)]
    {
      var idx := GetPortIndex(addr);
      if idx == -1 {
        return;
      }
      var offset := GetRegisterOffset(addr);
      ports[idx] := PortWrite(ports[idx], offset, value);
    }
  }
}
