/**
 * The memory bus: a 64 KiB flash image at 0x08000000 and 20 KiB of SRAM at
 * 0x20000000, each a byte buffer owned by the bus. Reads outside both
 * regions yield the sentinel 0xFF; only SRAM accepts writes.
 */
module MemoryBus {

  // Region bounds as integers: the C comparisons on `uint32_t` never wrap here.
  const FLASH_BASE: int := 0x0800_0000
  const FLASH_SIZE: int := 64 * 1024
  const SRAM_BASE: int := 0x2000_0000
  const SRAM_SIZE: int := 20 * 1024
  const PERIPH_BASE: int := 0x4000_0000

  /** The byte returned for an address that no region decodes. */
  const UNMAPPED_BYTE: bv8 := 0xFF

  predicate InFlash(addr: bv32) {
    FLASH_BASE <= addr as int < FLASH_BASE + FLASH_SIZE
  }

  predicate InSram(addr: bv32) {
    SRAM_BASE <= addr as int < SRAM_BASE + SRAM_SIZE
  }

  /** Addresses with the same integer value are the same address. */
  lemma AddressInjective(a: bv32, b: bv32)
    requires a as int == b as int
    ensures a == b
  {
    assert a == (a as int) as bv32;
    assert b == (b as int) as bv32;
  }

  /** The two regions never overlap, and neither reaches the peripheral range. */
  lemma RegionsDisjoint(addr: bv32)
    ensures !(InFlash(addr) && InSram(addr))
    ensures InFlash(addr) || InSram(addr) ==> addr as int < PERIPH_BASE
  {
  }

  /** The contents of both buffers, as the reads see them. */
  datatype Image = Image(flash: seq<bv8>, sram: seq<bv8>)

  predicate ValidImage(img: Image) {
    |img.flash| == FLASH_SIZE && |img.sram| == SRAM_SIZE
  }

  /** `memory_read_byte`: the byte a region holds at `addr`, or 0xFF outside both regions. */
  function ReadByte(img: Image, addr: bv32): (b: bv8)
    requires ValidImage(img)
    ensures InFlash(addr) ==> b == img.flash[addr as int - FLASH_BASE]
    ensures InSram(addr) ==> b == img.sram[addr as int - SRAM_BASE]
    ensures !InFlash(addr) && !InSram(addr) ==> b == UNMAPPED_BYTE
  {
    if InFlash(addr) then
      img.flash[addr as int - FLASH_BASE]
    else if InSram(addr) then
      img.sram[addr as int - SRAM_BASE]
    else
      UNMAPPED_BYTE
  }

  /**
   * `memory_read_halfword`: the little-endian pair of bytes at `addr` and
   * `addr + 1` (the address wraps at 2^32 like the C `uint32_t`).
   */
  function ReadHalfword(img: Image, addr: bv32): (h: bv16)
    requires ValidImage(img)
    ensures (h & 0xFF) as bv8 == ReadByte(img, addr)
    ensures (h >> 8) as bv8 == ReadByte(img, addr + 1)
  {
    (ReadByte(img, addr + 1) as bv16 << 8) | ReadByte(img, addr) as bv16
  }

  class Memory {
    const flash: array<bv8>
    const sram: array<bv8>

    ghost predicate Valid()
      reads this
    {
      flash.Length == FLASH_SIZE && sram.Length == SRAM_SIZE
    }

    /** What the two buffers hold now. */
    function Contents(): (img: Image)
      reads this, flash, sram
      requires Valid()
      ensures ValidImage(img)
    {
      Image(flash[..], sram[..])
    }

    /** `memory_init`: both buffers freshly allocated and zero-filled. */
    constructor Init()
      ensures Valid() && fresh(flash) && fresh(sram)
      ensures forall k | 0 <= k < flash.Length :: flash[k] == 0
      ensures forall k | 0 <= k < sram.Length :: sram[k] == 0
    {
      flash := new bv8[FLASH_SIZE](_ => 0);
      sram := new bv8[SRAM_SIZE](_ => 0);
    }

    /**
     * `memory_write_byte`: an SRAM address stores `value`; any other address,
     * flash included, changes nothing.
     */
    method WriteByte(addr: bv32, value: bv8)
      requires Valid()
      modifies sram
      ensures InSram(addr) ==> sram[..] == old(sram[..])[addr as int - SRAM_BASE := value]
      ensures !InSram(addr) ==> sram[..] == old(sram[..])
      ensures InSram(addr) ==> ReadByte(Contents(), addr) == value
      ensures forall a :: a != addr ==> ReadByte(Contents(), a) == ReadByte(old(Contents()), a)
    {
      ghost var before := Contents();
      if InSram(addr) {
        sram[addr as int - SRAM_BASE] := value;
        forall a | a != addr
          ensures ReadByte(Contents(), a) == ReadByte(before, a)
        {
          if a as int == addr as int {
            AddressInjective(a, addr);
          }
        }
      }
    }
  }

  /** The halfword the tests copy into flash as the host's `uint16_t` 0x2005 reads back as 0x2005. */
  lemma FetchOfCopiedWord(img: Image)
    requires ValidImage(img) && img.flash[0] == 0x05 && img.flash[1] == 0x20
    ensures ReadHalfword(img, 0x0800_0000) == 0x2005
  {
  }
}
