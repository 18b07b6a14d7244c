// The memory bus of core/src/memory_map.h: a 16-bit address space backed by
// three fixed byte arrays (ROM, work RAM, high RAM). Every other address is
// unbacked: it reads as 0xFF and ignores writes.

module Memory {
  import opened Bits

  const ROM_SIZE: nat := 0x8000    // 0x0000-0x7FFF
  const WRAM_SIZE: nat := 8 * 1024 // 0xC000-0xDFFF
  const HRAM_SIZE: nat := 127      // 0xFF80-0xFFFE

  /** The contents of the three backing arrays. */
  datatype Banks = Banks(rom: seq<u8>, wram: seq<u8>, hram: seq<u8>)

  /** Banks of the fixed sizes: the state of a memory_map as a value. */
  type Image = b: Banks | |b.rom| == ROM_SIZE && |b.wram| == WRAM_SIZE && |b.hram| == HRAM_SIZE
    witness Banks(seq(ROM_SIZE, _ => 0), seq(WRAM_SIZE, _ => 0), seq(HRAM_SIZE, _ => 0))

  /** What the constructor leaves behind: every array filled with 0. */
  function Blank(): Image
  {
    Banks(seq(ROM_SIZE, _ => 0), seq(WRAM_SIZE, _ => 0), seq(HRAM_SIZE, _ => 0))
  }

  predicate InRom(address: u16) { address <= 0x7FFF }
  predicate InWram(address: u16) { 0xC000 <= address <= 0xDFFF }
  predicate InHram(address: u16) { 0xFF80 <= address <= 0xFFFE }

  /** Addresses whose writes are stored. */
  predicate Writable(address: u16) { InWram(address) || InHram(address) }

  /** Addresses backed by one of the three arrays. */
  predicate Backed(address: u16) { InRom(address) || Writable(address) }

  /** `memory_map::read`: the byte at `address`, 0xFF where nothing backs it. */
  function ReadByte(m: Image, address: u16): u8
  {
    if address <= 0x7FFF then
      m.rom[address]
    else if address >= 0xC000 && address <= 0xDFFF then
      m.wram[address - 0xC000]
    else if address >= 0xFF80 && address <= 0xFFFE then
      m.hram[address - 0xFF80]
    else
      0xFF
  }

  /** `memory_map::write`: stores into work RAM or high RAM, drops everything else. */
  function WriteByte(m: Image, address: u16, value: u8): Image
  {
    if address >= 0xC000 && address <= 0xDFFF then
      m.(wram := m.wram[address - 0xC000 := value])
    else if address >= 0xFF80 && address <= 0xFFFE then
      m.(hram := m.hram[address - 0xFF80 := value])
    else
      m
  }

  // ---------------------------------------------------------------------
  // Properties of the bus

  /** Reading never fails, and every unbacked address (VRAM, external RAM,
      echo RAM, OAM, I/O registers, 0xFFFF) reads 0xFF. */
  lemma UnbackedReadsFF(m: Image, address: u16)
    requires !Backed(address)
    ensures ReadByte(m, address) == 0xFF
  {
  }

  /** A value written to work RAM or high RAM reads back unchanged. */
  lemma ReadAfterWrite(m: Image, address: u16, value: u8)
    requires Writable(address)
    ensures ReadByte(WriteByte(m, address, value), address) == value
  {
  }

  /** A write outside work RAM and high RAM (ROM, VRAM, I/O, 0xFFFF) changes nothing. */
  lemma WriteOutsideRamIsDropped(m: Image, address: u16, value: u8)
    requires !Writable(address)
    ensures WriteByte(m, address, value) == m
  {
  }

  /** A write changes at most the byte at its own address. */
  lemma WriteFrame(m: Image, address: u16, value: u8, other: u16)
    requires other != address
    ensures ReadByte(WriteByte(m, address, value), other) == ReadByte(m, other)
  {
  }

  /** Two images that read alike everywhere are the same image: reads
      observe every stored byte. */
  lemma {:induction false} ReadsDetermineImage(m: Image, n: Image)
    requires forall a: u16 :: ReadByte(m, a) == ReadByte(n, a)
    ensures m == n
  {
    forall i | 0 <= i < ROM_SIZE ensures m.rom[i] == n.rom[i] {
      var a: u16 := i;
      assert ReadByte(m, a) == ReadByte(n, a);
    }
    forall i | 0 <= i < WRAM_SIZE ensures m.wram[i] == n.wram[i] {
      var a: u16 := i + 0xC000;
      assert ReadByte(m, a) == ReadByte(n, a);
    }
    forall i | 0 <= i < HRAM_SIZE ensures m.hram[i] == n.hram[i] {
      var a: u16 := i + 0xFF80;
      assert ReadByte(m, a) == ReadByte(n, a);
    }
  }

  /** A freshly constructed map reads 0 at every backed address. */
  lemma BlankReadsZero(address: u16)
    requires Backed(address)
    ensures ReadByte(Blank(), address) == 0
  {
  }

  /** Seen through this bus, the LCD control register reads 0xFF (LCD, window,
      sprites and background all on) and writes to LY and STAT are lost. */
  lemma LcdRegistersUnbacked(m: Image, value: u8)
    ensures ReadByte(m, 0xFF40) == 0xFF
    ensures WriteByte(m, 0xFF41, value) == m && WriteByte(m, 0xFF44, value) == m
  {
  }

  // ---------------------------------------------------------------------
  // The memory map object

  class MemoryMap {
    const rom: array<u8>
    const wram: array<u8>
    const hram: array<u8>

    ghost predicate Valid()
    {
      rom.Length == ROM_SIZE && wram.Length == WRAM_SIZE && hram.Length == HRAM_SIZE
    }

    /** The current contents as a value. */
    function Snapshot(): Image
      reads rom, wram, hram
      requires Valid()
    {
      Banks(rom[..], wram[..], hram[..])
    }

    constructor ()
      ensures Valid() && fresh(rom) && fresh(wram) && fresh(hram)
      ensures Snapshot() == Blank()
    {
      rom := new u8[ROM_SIZE](_ => 0);
      wram := new u8[WRAM_SIZE](_ => 0);
      hram := new u8[HRAM_SIZE](_ => 0);
    }

    /** `read`: the lookup over the three arrays. */
    function Read(address: u16): u8
      reads rom, wram, hram
      requires Valid()
    {
      ReadByte(Snapshot(), address)
    }

    method Write(address: u16, value: u8)
      requires Valid()
      modifies wram, hram
      ensures Snapshot() == WriteByte(old(Snapshot()), address, value)
    {
      if address >= 0xC000 && address <= 0xDFFF {
        wram[address - 0xC000] := value;
      } else if address >= 0xFF80 && address <= 0xFFFE {
        hram[address - 0xFF80] := value;
      }
      // the ROM area is read-only, so nothing else is stored
    }

    /** `load_rom` with the file's fate passed in: `None` when the file cannot
        be opened (the source throws, and the ROM is left as it was);
        otherwise up to ROM_SIZE leading bytes of the file are copied into ROM. */
    method LoadRom(file: Option<seq<u8>>) returns (loaded: bool)
      requires Valid()
      modifies rom
      ensures loaded == file.Some?
      ensures !loaded ==> Snapshot() == old(Snapshot())
      ensures loaded ==> Snapshot() == old(Snapshot()).(rom := Overlay(old(rom[..]), file.value))
    {
      if file.None? {
        return false;
      }
      var bytes := file.value;
      var n := if |bytes| < rom.Length then |bytes| else rom.Length;
      var i := 0;
      while i < n
        invariant 0 <= i <= n
        invariant rom[..] == Overlay(old(rom[..]), bytes[..i])
      {
        rom[i] := bytes[i];
        i := i + 1;
      }
      assert bytes[..n] == bytes[..i];
      OverlayPrefix(old(rom[..]), bytes);
      return true;
    }
  }

  datatype Option<T> = None | Some(value: T)

  /** `base` with its leading bytes replaced by those of `data`, as far as both reach. */
  function Overlay(base: seq<u8>, data: seq<u8>): (r: seq<u8>)
    ensures |r| == |base|
    ensures forall i :: 0 <= i < |r| ==> r[i] == if i < |data| then data[i] else base[i]
  {
    seq(|base|, i requires 0 <= i < |base| => if i < |data| then data[i] else base[i])
  }

  /** Bytes of `data` beyond the length of `base` are ignored. */
  lemma OverlayPrefix(base: seq<u8>, data: seq<u8>)
    ensures |data| > |base| ==> Overlay(base, data) == Overlay(base, data[..|base|])
  {
  }
}
