// What `render_background`, `render_window`, `render_sprites` and
// `render_scanline` of core/src/ppu.cpp put into the framebuffer, as
// functions of the framebuffer before and the bus contents. The methods of
// `Ppu.Ppu` are proved to leave exactly these frames.

module Render {
  import opened Bits
  import opened Lcd
  import opened VideoBus

  /** The framebuffer contents: SCREEN_WIDTH x SCREEN_HEIGHT colours, row by row. */
  type Frame = f: seq<u32> | |f| == FRAME_SIZE witness seq(FRAME_SIZE, _ => 0)

  /** Index of the first pixel of row `line`: `scanline * SCREEN_WIDTH`. */
  function RowStart(line: int): int { line * SCREEN_WIDTH }

  /** Whether framebuffer index `i` lies in row `line`. */
  predicate InRow(i: int, line: int) { RowStart(line) <= i < RowStart(line) + SCREEN_WIDTH }

  /** The 160 pixels of row `line`. */
  function Row(fb: Frame, line: int): (row: seq<u32>)
    requires 0 <= line < SCREEN_HEIGHT
    ensures |row| == SCREEN_WIDTH
  {
    fb[RowStart(line)..RowStart(line) + SCREEN_WIDTH]
  }

  /** The frame with row `line` replaced by `row`. */
  function WithRow(fb: Frame, line: int, row: seq<u32>): (f: Frame)
    requires 0 <= line < SCREEN_HEIGHT && |row| == SCREEN_WIDTH
  {
    fb[..RowStart(line)] + row + fb[RowStart(line) + SCREEN_WIDTH..]
  }

  /** `WithRow` keeps every pixel outside row `line` and holds `row` in it. */
  lemma WithRowPixels(fb: Frame, line: int, row: seq<u32>)
    requires 0 <= line < SCREEN_HEIGHT && |row| == SCREEN_WIDTH
    ensures forall i :: 0 <= i < FRAME_SIZE && !InRow(i, line) ==> WithRow(fb, line, row)[i] == fb[i]
    ensures forall c :: 0 <= c < SCREEN_WIDTH ==> WithRow(fb, line, row)[RowStart(line) + c] == row[c]
  {
  }

  /** A frame that agrees with `fb` outside row `line` and holds `row` in it
      is `WithRow(fb, line, row)`. */
  lemma FrameOfRow(f: Frame, fb: Frame, line: int, row: seq<u32>)
    requires 0 <= line < SCREEN_HEIGHT && |row| == SCREEN_WIDTH
    requires forall i :: 0 <= i < FRAME_SIZE && !InRow(i, line) ==> f[i] == fb[i]
    requires forall c :: 0 <= c < SCREEN_WIDTH ==> f[RowStart(line) + c] == row[c]
    ensures f == WithRow(fb, line, row)
  {
    var g := WithRow(fb, line, row);
    WithRowPixels(fb, line, row);
    forall i | 0 <= i < FRAME_SIZE
      ensures f[i] == g[i]
    {
      if InRow(i, line) {
        var c := i - RowStart(line);
        assert f[RowStart(line) + c] == row[c] == g[RowStart(line) + c];
      }
    }
  }

  /** Writing one pixel of row `line` is updating that row. */
  lemma WithRowUpdate(fb: Frame, line: int, row: seq<u32>, c: int, v: u32)
    requires 0 <= line < SCREEN_HEIGHT && |row| == SCREEN_WIDTH && 0 <= c < SCREEN_WIDTH
    ensures WithRow(fb, line, row)[RowStart(line) + c := v] == WithRow(fb, line, row[c := v])
  {
    FrameOfRow(WithRow(fb, line, row)[RowStart(line) + c := v], fb, line, row[c := v]);
  }

  /** The row just put in is the row read back, and a second replacement
      of the same row overrides the first. */
  lemma WithRowTwice(fb: Frame, line: int, row: seq<u32>, row2: seq<u32>)
    requires 0 <= line < SCREEN_HEIGHT && |row| == SCREEN_WIDTH && |row2| == SCREEN_WIDTH
    ensures Row(WithRow(fb, line, row), line) == row
    ensures WithRow(WithRow(fb, line, row), line, row2) == WithRow(fb, line, row2)
  {
    var f := WithRow(fb, line, row);
    WithRowPixels(fb, line, row);
    assert forall c :: 0 <= c < SCREEN_WIDTH ==> Row(f, line)[c] == f[RowStart(line) + c];
    FrameOfRow(WithRow(f, line, row2), fb, line, row2);
  }

  /** Replacing a row by its own contents changes nothing. */
  lemma WithOwnRow(fb: Frame, line: int)
    requires 0 <= line < SCREEN_HEIGHT
    ensures WithRow(fb, line, Row(fb, line)) == fb
  {
    FrameOfRow(fb, fb, line, Row(fb, line));
  }

  // ---------------------------------------------------------------------
  // Tiles

  /** The tile number as used: with signed addressing,
      `static_cast<int8_t>(tile_id) + 128` stored back into a uint8_t. */
  function TileIndex(id: u8, signedAddressing: bool): u8
  {
    if signedAddressing then Wrap8(Signed(id) + 128) else id
  }

  /** `tile_data`: 0x8000 when LCDC bit 4 is set, else 0x8800 with signed addressing. */
  function TileData(lcdc: u8): int
  {
    if Test(lcdc, 0x10) then 0x8000 else 0x8800
  }

  /** `tile_location + line`: the first of the two bytes of row `row` of the
      tile whose number is stored at `tileAddr`. */
  function TileRowAddress(m: Space, lcdc: u8, tileAddr: u16, row: int): (a: int)
    requires 0 <= row < 8
    ensures 0x8000 <= a && a + 1 < 0x9800
  {
    TileData(lcdc) + TileIndex(m[tileAddr], !Test(lcdc, 0x10)) * 16 + row * 2
  }

  /** The colour id of column `col` of that row; bit 7 is the leftmost pixel. */
  function TilePixel(m: Space, lcdc: u8, tileAddr: u16, row: int, col: int): (id: bv8)
    requires 0 <= row < 8 && 0 <= col < 8
    ensures id < 4
  {
    var a := TileRowAddress(m, lcdc, tileAddr, row);
    ColorId(m[a], m[a + 1], (7 - col) as bv8)
  }

  /** The colour of that pixel under `palette`. */
  function TileColor(m: Space, lcdc: u8, tileAddr: u16, row: int, col: int, palette: u8): u32
    requires 0 <= row < 8 && 0 <= col < 8
  {
    GetColor(TilePixel(m, lcdc, tileAddr, row, col), palette)
  }

  // ---------------------------------------------------------------------
  // Background and window

  /** The background tile map: 0x9C00 when LCDC bit 3 is set, else 0x9800. */
  function BackgroundMap(lcdc: u8): u16 { if Test(lcdc, 0x08) then 0x9C00 else 0x9800 }

  /** The colour `render_background` gives column `x` of row `scanline`: the
      background scrolled by SCX and SCY, both wrapping at 256. */
  function BackgroundPixel(m: Space, scanline: int, x: int): u32
    requires 0 <= scanline < SCREEN_HEIGHT && 0 <= x < SCREEN_WIDTH
  {
    var lcdc := m[LCDC_ADDR];
    var y := (scanline + m[SCY_ADDR]) % 256;
    var mappedX := (x + m[SCX_ADDR]) % 256;
    var tileAddr := BackgroundMap(lcdc) + (y / 8) * 32 + mappedX / 8;
    TileColor(m, lcdc, tileAddr, y % 8, mappedX % 8, m[BGP_ADDR])
  }

  /** The 160 colours `render_background` gives row `scanline`. */
  function BackgroundLine(m: Space, scanline: int): (line: seq<u32>)
    requires 0 <= scanline < SCREEN_HEIGHT
    ensures |line| == SCREEN_WIDTH
  {
    seq(SCREEN_WIDTH, x requires 0 <= x < SCREEN_WIDTH => BackgroundPixel(m, scanline, x))
  }

  /** Row `row` after the first `n` iterations of the loop of
      `render_background`: columns below `n` taken from `line`, the rest
      untouched. */
  function Painted(row: seq<u32>, line: seq<u32>, n: int): (r: seq<u32>)
    requires |row| == |line|
    ensures |r| == |row|
  {
    seq(|row|, c requires 0 <= c < |row| => if c < n then line[c] else row[c])
  }

  /** One more iteration paints column `n`. */
  lemma PaintedNext(row: seq<u32>, line: seq<u32>, n: int)
    requires |row| == |line| && 0 <= n < |row|
    ensures Painted(row, line, n)[n := line[n]] == Painted(row, line, n + 1)
  {
  }

  /** The loop starts from the row as it was and ends with the whole line. */
  lemma PaintedEnds(row: seq<u32>, line: seq<u32>)
    requires |row| == |line|
    ensures Painted(row, line, 0) == row
    ensures Painted(row, line, |row|) == line
  {
  }

  /** One iteration of the loop of `render_background`: the registers read
      once before the loop, the tile address and the fetched colour give
      `BackgroundPixel`. */
  lemma BackgroundStep(m: Space, scanline: int, x: int, lcdc: u8, scx: u8, scy: u8, palette: u8, tileAddr: u16, color: u32)
    requires 0 <= scanline < SCREEN_HEIGHT && 0 <= x < SCREEN_WIDTH
    requires lcdc == m[LCDC_ADDR] && scx == m[SCX_ADDR] && scy == m[SCY_ADDR] && palette == m[BGP_ADDR]
    requires tileAddr == BackgroundMap(lcdc) + ((scanline + scy) % 256 / 8) * 32 + (x + scx) % 256 / 8
    requires color == TileColor(m, lcdc, tileAddr, (scanline + scy) % 256 % 8, (x + scx) % 256 % 8, palette)
    ensures color == BackgroundLine(m, scanline)[x]
  {
  }

  /** `render_background`: every pixel of row `scanline` replaced. */
  function BackgroundFrame(fb: Frame, m: Space, scanline: int): Frame
    requires 0 <= scanline < SCREEN_HEIGHT
  {
    WithRow(fb, scanline, BackgroundLine(m, scanline))
  }

  /** The window tile map: 0x9C00 when LCDC bit 6 is set, else 0x9800. */
  function WindowMap(lcdc: u8): u16 { if Test(lcdc, 0x40) then 0x9C00 else 0x9800 }

  /** The colour of window column `x` on row `scanline`, at or below WY. */
  function WindowPixel(m: Space, scanline: int, x: int): u32
    requires m[WY_ADDR] <= scanline < SCREEN_HEIGHT && 0 <= x < SCREEN_WIDTH + 7
  {
    var lcdc := m[LCDC_ADDR];
    var windowLine := Wrap8(scanline - m[WY_ADDR]);
    var tileAddr := WindowMap(lcdc) + (windowLine / 8) * 32 + x / 8;
    TileColor(m, lcdc, tileAddr, windowLine % 8, x % 8, m[BGP_ADDR])
  }

  /** Number of window columns the loop of `render_window` can visit:
      `SCREEN_WIDTH - wx + 7` with WX = 0. */
  const WINDOW_COLUMNS: nat := SCREEN_WIDTH + 7

  /** The colours of the window's row `scanline`, by window column. */
  function WindowLine(m: Space, scanline: int): (line: seq<u32>)
    requires m[WY_ADDR] <= scanline < SCREEN_HEIGHT
    ensures |line| == WINDOW_COLUMNS
  {
    seq(WINDOW_COLUMNS, x requires 0 <= x < WINDOW_COLUMNS => WindowPixel(m, scanline, x))
  }

  /** One iteration of the loop of `render_window` that lands on screen:
      the tile address and the fetched colour give the window's colour. */
  lemma WindowStep(m: Space, scanline: int, x: int, lcdc: u8, wy: u8, palette: u8, tileAddr: u16, color: u32)
    requires m[WY_ADDR] <= scanline < SCREEN_HEIGHT && 0 <= x < WINDOW_COLUMNS
    requires lcdc == m[LCDC_ADDR] && wy == m[WY_ADDR] && palette == m[BGP_ADDR]
    requires tileAddr == WindowMap(lcdc) + (Wrap8(scanline - wy) / 8) * 32 + x / 8
    requires color == TileColor(m, lcdc, tileAddr, Wrap8(scanline - wy) % 8, x % 8, palette)
    ensures color == WindowLine(m, scanline)[x]
  {
  }

  /** The bound of the loop of `render_window`, `SCREEN_WIDTH - wx + 7`;
      no iteration runs when it is not positive. */
  function WindowEnd(wx: u8): int
  {
    if wx <= WINDOW_COLUMNS then WINDOW_COLUMNS - wx else 0
  }

  /** Row `row` after the first `n` iterations of the loop of
      `render_window`: window column `x` lands on screen column x + WX - 7,
      so the screen columns whose window column is below `n` show the
      window and the rest are untouched. */
  function WindowPainted(row: seq<u32>, line: seq<u32>, wx: u8, n: int): (r: seq<u32>)
    requires |row| == SCREEN_WIDTH && |line| == WINDOW_COLUMNS
    ensures |r| == SCREEN_WIDTH
  {
    seq(SCREEN_WIDTH, c requires 0 <= c < SCREEN_WIDTH =>
      if 0 <= c + 7 - wx < n then line[c + 7 - wx] else row[c])
  }

  /** One more iteration: window column `n` painted when it lands on
      screen, nothing changed when it does not. */
  lemma WindowPaintedNext(row: seq<u32>, line: seq<u32>, wx: u8, n: int)
    requires |row| == SCREEN_WIDTH && |line| == WINDOW_COLUMNS && 0 <= n < WINDOW_COLUMNS
    ensures 0 <= n + wx - 7 < SCREEN_WIDTH ==>
      WindowPainted(row, line, wx, n)[n + wx - 7 := line[n]] == WindowPainted(row, line, wx, n + 1)
    ensures !(0 <= n + wx - 7 < SCREEN_WIDTH) ==> WindowPainted(row, line, wx, n) == WindowPainted(row, line, wx, n + 1)
  {
  }

  /** The loop starts from the row as it was. */
  lemma WindowPaintedStart(row: seq<u32>, line: seq<u32>, wx: u8)
    requires |row| == SCREEN_WIDTH && |line| == WINDOW_COLUMNS
    ensures WindowPainted(row, line, wx, 0) == row
  {
  }

  /** `render_window`: nothing above WY; from WY down, the window's row
      over screen columns WX - 7 onwards. */
  function WindowFrame(fb: Frame, m: Space, scanline: int): Frame
    requires 0 <= scanline < SCREEN_HEIGHT
  {
    if scanline < m[WY_ADDR] then fb
    else WithRow(fb, scanline, WindowPainted(Row(fb, scanline), WindowLine(m, scanline), m[WX_ADDR], WindowEnd(m[WX_ADDR])))
  }

  // ---------------------------------------------------------------------
  // Sprites

  /** An OAM entry as `render_sprites` copies it: Y and X already moved by
      -16 and -8, wrapping as uint8_t. */
  datatype Sprite = Sprite(y: u8, x: u8, tile: u8, attributes: u8)

  /** Number of OAM entries, and the most sprites drawn on one line. */
  const OAM_ENTRIES: nat := 40
  const SPRITES_PER_LINE: nat := 10

  /** The `i`th entry at 0xFE00 + 4 * i. */
  function SpriteAt(m: Space, i: nat): Sprite
    requires i < OAM_ENTRIES
  {
    var a := 0xFE00 + i * 4;
    Sprite(Wrap8(m[a] as int - 16), Wrap8(m[a + 1] as int - 8), m[a + 2], m[a + 3])
  }

  /** The 40 entries in OAM order. */
  function Oam(m: Space): (sprites: seq<Sprite>)
    ensures |sprites| == OAM_ENTRIES
    ensures forall i :: 0 <= i < OAM_ENTRIES ==> sprites[i] == SpriteAt(m, i)
  {
    seq(OAM_ENTRIES, i requires 0 <= i < OAM_ENTRIES => SpriteAt(m, i))
  }

  /** 16 with tall sprites (LCDC bit 2), else 8. */
  function SpriteHeight(lcdc: u8): int { if Test(lcdc, 0x04) then 16 else 8 }

  /** The sprite covers row `scanline`. */
  predicate OnLine(s: Sprite, scanline: int, height: int)
  {
    !(scanline < s.y || scanline >= s.y + height)
  }

  /** The sprites `render_sprites` draws from `sprites`, in order: those on
      the line, until ten have been taken. */
  function Chosen(sprites: seq<Sprite>, scanline: int, height: int): (r: seq<Sprite>)
    ensures |r| <= SPRITES_PER_LINE && |r| <= |sprites|
    ensures forall k :: 0 <= k < |r| ==> OnLine(r[k], scanline, height)
    decreases |sprites|
  {
    if |sprites| == 0 then []
    else
      var earlier := Chosen(sprites[..|sprites| - 1], scanline, height);
      var last := sprites[|sprites| - 1];
      if |earlier| < SPRITES_PER_LINE && OnLine(last, scanline, height) then earlier + [last] else earlier
  }

  /** One more OAM entry considered: taken when fewer than ten are taken
      and it is on the line. */
  lemma ChosenStep(sprites: seq<Sprite>, i: int, scanline: int, height: int)
    requires 0 <= i < |sprites|
    ensures Chosen(sprites[..i + 1], scanline, height) ==
      var earlier := Chosen(sprites[..i], scanline, height);
      if |earlier| < SPRITES_PER_LINE && OnLine(sprites[i], scanline, height) then earlier + [sprites[i]] else earlier
  {
    assert sprites[..i + 1][..i] == sprites[..i];
  }

  /** Once ten sprites are taken, the rest of OAM adds nothing. */
  lemma {:induction false} ChosenSaturates(sprites: seq<Sprite>, i: int, scanline: int, height: int)
    requires 0 <= i <= |sprites|
    requires i == |sprites| || |Chosen(sprites[..i], scanline, height)| >= SPRITES_PER_LINE
    ensures Chosen(sprites, scanline, height) == Chosen(sprites[..i], scanline, height)
  {
    ChosenSaturatesFrom(sprites, i, |sprites|, scanline, height);
    assert sprites[..|sprites|] == sprites;
  }

  lemma {:induction false} ChosenSaturatesFrom(sprites: seq<Sprite>, i: int, j: int, scanline: int, height: int)
    requires 0 <= i <= j <= |sprites|
    requires i == j || |Chosen(sprites[..i], scanline, height)| >= SPRITES_PER_LINE
    ensures Chosen(sprites[..j], scanline, height) == Chosen(sprites[..i], scanline, height)
    decreases j
  {
    if j > i {
      ChosenSaturatesFrom(sprites, i, j - 1, scanline, height);
      ChosenStep(sprites, j - 1, scanline, height);
    }
  }

  /** Every sprite on the line, in order, with no limit. */
  function OnLineSprites(sprites: seq<Sprite>, scanline: int, height: int): seq<Sprite>
    decreases |sprites|
  {
    if |sprites| == 0 then []
    else
      var earlier := OnLineSprites(sprites[..|sprites| - 1], scanline, height);
      var last := sprites[|sprites| - 1];
      if OnLine(last, scanline, height) then earlier + [last] else earlier
  }

  /** `tile_addr`: the tile row the sprite shows on this line, flipped
      vertically when attribute bit 6 is set. */
  function SpriteRowAddress(s: Sprite, scanline: int, height: int): (a: int)
    requires OnLine(s, scanline, height) && (height == 8 || height == 16)
    ensures 0x8000 <= a && a + 1 <= 0x900F
  {
    var line := Wrap8(scanline - s.y);
    var row := if Test(s.attributes, 0x40) then height - 1 - line else line;
    0x8000 + s.tile * 16 + row * 2
  }

  /** The colour id of sprite column `x`, flipped horizontally when
      attribute bit 5 is set. */
  function SpritePixel(m: Space, s: Sprite, scanline: int, height: int, x: int): (id: bv8)
    requires OnLine(s, scanline, height) && (height == 8 || height == 16) && 0 <= x < 8
    ensures id < 4
  {
    var a := SpriteRowAddress(s, scanline, height);
    var bit := if Test(s.attributes, 0x20) then x else 7 - x;
    ColorId(m[a], m[a + 1], bit as bv8)
  }

  /** OBP1 when attribute bit 4 is set, else OBP0. */
  function SpritePalette(m: Space, s: Sprite): u8
  {
    if Test(s.attributes, 0x10) then m[OBP1_ADDR] else m[OBP0_ADDR]
  }

  /** The colour ids of the sprite's eight columns on this line. */
  function SpriteIds(m: Space, s: Sprite, scanline: int, height: int): (ids: seq<bv8>)
    requires OnLine(s, scanline, height) && (height == 8 || height == 16)
    ensures |ids| == 8
  {
    seq(8, x requires 0 <= x < 8 => SpritePixel(m, s, scanline, height, x))
  }

  /** The colours of the sprite's eight columns under its palette. */
  function SpriteColors(m: Space, s: Sprite, scanline: int, height: int): (colors: seq<u32>)
    requires OnLine(s, scanline, height) && (height == 8 || height == 16)
    ensures |colors| == 8
  {
    seq(8, x requires 0 <= x < 8 => GetColor(SpritePixel(m, s, scanline, height, x), SpritePalette(m, s)))
  }

  /** One column of the inner loop of `render_sprites`: the two bytes of
      the tile row fetched before the loop give the sprite's colour id, and
      the palette read gives its colour. */
  lemma SpriteStep(m: Space, s: Sprite, scanline: int, height: int, x: int, byte1: u8, byte2: u8, colorId: bv8,
                   palette: u8)
    requires OnLine(s, scanline, height) && (height == 8 || height == 16) && 0 <= x < 8
    requires byte1 == m[SpriteRowAddress(s, scanline, height)] && byte2 == m[SpriteRowAddress(s, scanline, height) + 1]
    requires colorId == ColorId(byte1, byte2, (if Test(s.attributes, 0x20) then x else 7 - x) as bv8)
    requires palette == SpritePalette(m, s)
    ensures colorId == SpriteIds(m, s, scanline, height)[x]
    ensures GetColor(colorId, palette) == SpriteColors(m, s, scanline, height)[x]
  {
  }

  /** Row `row` after the first `n` iterations of the inner loop of
      `render_sprites` for a sprite at X position `sx`: sprite column `x`
      is drawn on screen column sx + x, when that is on screen and its
      colour id is not 0 (transparent). */
  function SpritePainted(row: seq<u32>, sx: u8, ids: seq<bv8>, colors: seq<u32>, n: int): (r: seq<u32>)
    requires |row| == SCREEN_WIDTH && |ids| == 8 && |colors| == 8
    ensures |r| == SCREEN_WIDTH
  {
    seq(SCREEN_WIDTH, c requires 0 <= c < SCREEN_WIDTH =>
      if sx <= c < sx + n && c - sx < 8 && ids[c - sx] != 0 then colors[c - sx] else row[c])
  }

  /** One more column of the sprite: drawn when on screen and opaque,
      nothing changed otherwise. */
  lemma SpritePaintedNext(row: seq<u32>, sx: u8, ids: seq<bv8>, colors: seq<u32>, n: int)
    requires |row| == SCREEN_WIDTH && |ids| == 8 && |colors| == 8 && 0 <= n < 8
    ensures sx + n < SCREEN_WIDTH && ids[n] != 0 ==>
      SpritePainted(row, sx, ids, colors, n)[sx + n := colors[n]] == SpritePainted(row, sx, ids, colors, n + 1)
    ensures !(sx + n < SCREEN_WIDTH && ids[n] != 0) ==>
      SpritePainted(row, sx, ids, colors, n) == SpritePainted(row, sx, ids, colors, n + 1)
  {
  }

  /** The inner loop starts from the row as it was. */
  lemma SpritePaintedStart(row: seq<u32>, sx: u8, ids: seq<bv8>, colors: seq<u32>)
    requires |row| == SCREEN_WIDTH && |ids| == 8 && |colors| == 8
    ensures SpritePainted(row, sx, ids, colors, 0) == row
  {
  }

  /** The row after one sprite: the whole inner loop. */
  function DrawSprite(row: seq<u32>, m: Space, s: Sprite, scanline: int, height: int): (r: seq<u32>)
    requires |row| == SCREEN_WIDTH && OnLine(s, scanline, height) && (height == 8 || height == 16)
    ensures |r| == SCREEN_WIDTH
  {
    SpritePainted(row, s.x, SpriteIds(m, s, scanline, height), SpriteColors(m, s, scanline, height), 8)
  }

  /** The row after drawing `sprites` one after another. */
  function DrawAll(row: seq<u32>, m: Space, sprites: seq<Sprite>, scanline: int, height: int): (r: seq<u32>)
    requires |row| == SCREEN_WIDTH && (height == 8 || height == 16)
    requires forall k :: 0 <= k < |sprites| ==> OnLine(sprites[k], scanline, height)
    ensures |r| == SCREEN_WIDTH
    decreases |sprites|
  {
    if |sprites| == 0 then row
    else
      var last := |sprites| - 1;
      DrawSprite(DrawAll(row, m, sprites[..last], scanline, height), m, sprites[last], scanline, height)
  }

  /** `render_sprites`: the chosen sprites drawn over row `scanline`. */
  function SpritesFrame(fb: Frame, m: Space, scanline: int): Frame
    requires 0 <= scanline < SCREEN_HEIGHT
  {
    var height := SpriteHeight(m[LCDC_ADDR]);
    WithRow(fb, scanline, DrawAll(Row(fb, scanline), m, Chosen(Oam(m), scanline, height), scanline, height))
  }

  /** `render_scanline`: background, window and sprites, each if LCDC enables it. */
  function ScanlineFrame(fb: Frame, m: Space, scanline: int): Frame
    requires 0 <= scanline < SCREEN_HEIGHT
  {
    var lcdc := m[LCDC_ADDR];
    var f1 := if IsBgEnabled(lcdc) then BackgroundFrame(fb, m, scanline) else fb;
    var f2 := if IsWindowEnabled(lcdc) then WindowFrame(f1, m, scanline) else f1;
    if IsSpritesEnabled(lcdc) then SpritesFrame(f2, m, scanline) else f2
  }
}
