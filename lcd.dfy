// The constants and one-line helpers of core/src/ppu.h and `get_color` of
// core/src/ppu.cpp: screen size, dot timing, the LCD register addresses,
// the PPU modes, the LCDC bit tests and the palette lookup. Bit tests are
// done on `bv8`, as the C++ `&` does them.

module Lcd {
  import opened Bits

  const SCREEN_WIDTH: nat := 160
  const SCREEN_HEIGHT: nat := 144
  const FRAME_SIZE: nat := SCREEN_WIDTH * SCREEN_HEIGHT

  const CYCLES_OAM: nat := 80
  const CYCLES_DRAWING: nat := 172
  const CYCLES_HBLANK: nat := 204
  const CYCLES_LINE: nat := 456
  const TOTAL_LINES: nat := 154

  const LCDC_ADDR: u16 := 0xFF40
  const STAT_ADDR: u16 := 0xFF41
  const SCY_ADDR: u16 := 0xFF42
  const SCX_ADDR: u16 := 0xFF43
  const LY_ADDR: u16 := 0xFF44
  const LYC_ADDR: u16 := 0xFF45
  const BGP_ADDR: u16 := 0xFF47
  const OBP0_ADDR: u16 := 0xFF48
  const OBP1_ADDR: u16 := 0xFF49
  const WY_ADDR: u16 := 0xFF4A
  const WX_ADDR: u16 := 0xFF4B

  /** `ppu_mode`, in declaration order. */
  datatype Mode = HBlank | VBlank | OAM | Drawing

  /** `value & mask` is non-zero. */
  predicate Test(value: u8, mask: bv8)
  {
    (value as bv8) & mask != 0
  }

  /** `is_lcd_enabled` */
  predicate IsLcdEnabled(lcdc: u8) { Test(lcdc, 0x80) }

  /** `is_window_enabled` */
  predicate IsWindowEnabled(lcdc: u8) { Test(lcdc, 0x20) }

  /** `is_sprites_enabled` */
  predicate IsSpritesEnabled(lcdc: u8) { Test(lcdc, 0x02) }

  /** `is_bg_enabled` */
  predicate IsBgEnabled(lcdc: u8) { Test(lcdc, 0x01) }

  /** Bit `k` of a byte, counted from the least significant. */
  function BitAt(value: u8, k: bv8): bool
    requires k < 8
  {
    ((value as bv8) >> k) & 1 == 1
  }

  /** The four colours `get_color` can return: white, light grey, dark grey, black. */
  const WHITE: u32 := 0xFFFF_FFFF
  const LIGHT_GRAY: u32 := 0xFFAA_AAAA
  const DARK_GRAY: u32 := 0xFF55_5555
  const BLACK: u32 := 0xFF00_0000

  /** The shade a palette assigns to a colour id: `(palette >> (color_id * 2)) & 0x03`. */
  function Shade(colorId: bv8, palette: u8): (shade: bv8)
    requires colorId < 4
    ensures shade < 4
  {
    ((palette as bv8) >> (colorId * 2)) & 0x03
  }

  /** `get_color`. The `default` arm of the switch cannot be reached. */
  function GetColor(colorId: bv8, palette: u8): u32
    requires colorId < 4
  {
    var shade := Shade(colorId, palette);
    if shade == 0 then WHITE
    else if shade == 1 then LIGHT_GRAY
    else if shade == 2 then DARK_GRAY
    else if shade == 3 then BLACK
    else WHITE
  }

  /** The colour id of a pixel from the two bit planes of a tile row:
      `((byte1 >> bit) & 1) | (((byte2 >> bit) & 1) << 1)`. */
  function ColorId(byte1: u8, byte2: u8, bit: bv8): (id: bv8)
    requires bit < 8
    ensures id < 4
  {
    (((byte1 as bv8) >> bit) & 1) | ((((byte2 as bv8) >> bit) & 1) << 1)
  }

  // ---------------------------------------------------------------------
  // Properties of the constants and helpers

  /** The three phases of a visible line fill exactly one line of dots. */
  lemma LinePhases()
    ensures CYCLES_OAM + CYCLES_DRAWING + CYCLES_HBLANK == CYCLES_LINE == 456
    ensures FRAME_SIZE == 23040
  {
  }

  /** The LCDC predicates test bit 7 (LCD), bit 5 (window), bit 1 (sprites)
      and bit 0 (background), and nothing else. */
  lemma LcdcBits(lcdc: u8)
    ensures IsLcdEnabled(lcdc) == BitAt(lcdc, 7)
    ensures IsWindowEnabled(lcdc) == BitAt(lcdc, 5)
    ensures IsSpritesEnabled(lcdc) == BitAt(lcdc, 1)
    ensures IsBgEnabled(lcdc) == BitAt(lcdc, 0)
  {
  }

  /** Colour 0 of the palette is its two low bits, colour 3 its two high bits. */
  lemma ShadeFields(palette: u8)
    ensures Shade(0, palette) == (palette as bv8) & 0x03
    ensures Shade(3, palette) == (palette as bv8) >> 6
  {
  }

  /** `get_color` returns the shade's colour: 0 white, 1 light grey,
      2 dark grey, 3 black, so always one of the four. */
  lemma GetColorIsShade(colorId: bv8, palette: u8)
    requires colorId < 4
    ensures GetColor(colorId, palette) == [WHITE, LIGHT_GRAY, DARK_GRAY, BLACK][Shade(colorId, palette) as int]
  {
  }

  /** The colour id is the pair of bits taken from the two planes, plane 2
      giving the high bit; it is 0 exactly when both bits are clear. */
  lemma ColorIdBits(byte1: u8, byte2: u8, bit: bv8)
    requires bit < 8
    ensures ColorId(byte1, byte2, bit) & 1 == 1 <==> BitAt(byte1, bit)
    ensures ColorId(byte1, byte2, bit) & 2 == 2 <==> BitAt(byte2, bit)
    ensures ColorId(byte1, byte2, bit) == 0 <==> !BitAt(byte1, bit) && !BitAt(byte2, bit)
  {
  }
}
