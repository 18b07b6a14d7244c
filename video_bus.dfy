// The bus as the PPU of core/src/ppu.cpp sees it: any 64 KiB byte space it
// can read and write. The PPU is modelled over this abstract bus; the
// concrete `memory_map` is one instance of it, obtained by reading every
// address through `Memory.ReadByte`.

module VideoBus {
  import opened Bits
  import Memory

  /** The contents of the 16-bit address space. */
  type Space = s: seq<u8> | |s| == 0x1_0000 witness seq(0x1_0000, _ => 0)

  /** The address space a `memory_map` presents: 0xFF wherever no array backs it. */
  function View(m: Memory.Image): (space: Space)
    ensures forall a: u16 :: space[a] == Memory.ReadByte(m, a)
  {
    seq(0x1_0000, (a: int) requires 0 <= a < 0x1_0000 => Memory.ReadByte(m, a))
  }

  /** A bus whose contents the PPU reads and writes in place. */
  class Bus {
    var bytes: Space

    constructor (initial: Space)
      ensures bytes == initial
    {
      bytes := initial;
    }

    /** `mem.read(address)` */
    function Read(address: u16): u8
      reads this
    {
      bytes[address]
    }

    /** `mem.write(address, value)` */
    method Write(address: u16, value: u8)
      modifies this
      ensures bytes == old(bytes)[address := value]
    {
      bytes := bytes[address := value];
    }
  }

  /** On the concrete memory map, LCDC (0xFF40) reads 0xFF, so the LCD and
      every layer count as on, and LY, STAT and the tile data in VRAM are
      not backed. */
  lemma ConcreteLcdRegisters(m: Memory.Image, a: u16)
    requires 0x8000 <= a < 0xC000 || 0xFF40 <= a <= 0xFF4B
    ensures View(m)[a] == 0xFF
  {
    Memory.UnbackedReadsFF(m, a);
  }
}
