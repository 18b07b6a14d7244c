// The picture processing unit of core/src/ppu.h and core/src/ppu.cpp: an
// object holding the dot counter, the current line, the mode and the
// framebuffer, updated in place by `tick` and the rendering passes it calls.
// Every method is proved to leave exactly what the functions of `Render` and
// `LcdTiming` describe.

module Ppu {
  import opened Bits
  import opened Lcd
  import opened VideoBus
  import opened Render
  import T = LcdTiming

  class Ppu {
    var counter: u32
    var line: u8
    var mode: Mode
    /** `framebuffer_`: one colour per pixel, row by row. */
    const framebuffer: array<u32>

    ghost predicate Valid()
      reads this
    {
      framebuffer.Length == FRAME_SIZE
    }

    /** The counter, line and mode together. */
    function Timing(): T.Timing
      reads this
    {
      T.Timing(counter, line, mode)
    }

    /** The framebuffer contents. */
    function Frame(): Frame
      requires Valid()
      reads this, framebuffer
    {
      framebuffer[..]
    }

    /** `ppu()`: counter 0, line 0, mode OAM and an all-zero framebuffer. */
    constructor ()
      ensures Valid() && fresh(framebuffer)
      ensures Timing() == T.START
      ensures Frame() == seq(FRAME_SIZE, _ => 0)
    {
      counter, line, mode := 0, 0, OAM;
      framebuffer := new u32[FRAME_SIZE](_ => 0);
    }

    /** `tick` */
    method Tick(cycles: u32, bus: Bus)
      requires Valid()
      modifies this, framebuffer, bus
      ensures Valid()
      ensures T.Outcome(Timing(), Frame(), bus.bytes) == T.Tick(old(Timing()), old(Frame()), old(bus.bytes), cycles)
    {
      if !IsLcdEnabled(bus.Read(LCDC_ADDR)) {
        return;
      }
      counter := Wrap32(counter as int + cycles);
      if counter >= CYCLES_LINE {
        NewLine(bus);
      }
      UpdateMode(bus);
    }

    /** The block of `tick` run once the counter reaches a full line. */
    method NewLine(bus: Bus)
      requires Valid() && counter >= CYCLES_LINE
      modifies this, framebuffer, bus
      ensures T.Outcome(Timing(), Frame(), bus.bytes) == T.NewLine(old(Timing()), old(Frame()), old(bus.bytes))
    {
      counter := counter - CYCLES_LINE;
      line := Wrap8(line as int + 1);
      if line >= TOTAL_LINES {
        line := 0;
      }
      bus.Write(LY_ADDR, line);
      if line < SCREEN_HEIGHT {
        RenderScanline(bus);
      } else if line == SCREEN_HEIGHT {
        mode := VBlank;
      }
    }

    /** `render_scanline` */
    method RenderScanline(bus: Bus)
      requires Valid() && line < SCREEN_HEIGHT
      modifies framebuffer
      ensures Frame() == ScanlineFrame(old(Frame()), bus.bytes, line)
    {
      var lcdc := bus.Read(LCDC_ADDR);
      if IsBgEnabled(lcdc) {
        RenderBackground(bus, line);
      }
      if IsWindowEnabled(lcdc) {
        RenderWindow(bus, line);
      }
      if IsSpritesEnabled(lcdc) {
        RenderSprites(bus, line);
      }
    }

    /** `render_background` */
    method RenderBackground(bus: Bus, scanline: int)
      requires Valid() && 0 <= scanline < SCREEN_HEIGHT
      modifies framebuffer
      ensures Frame() == BackgroundFrame(old(Frame()), bus.bytes, scanline)
    {
      ghost var m, fb0 := bus.bytes, Frame();
      ghost var row, line := Row(fb0, scanline), BackgroundLine(m, scanline);
      var lcdc := bus.Read(LCDC_ADDR);
      var scx := bus.Read(SCX_ADDR);
      var scy := bus.Read(SCY_ADDR);
      var tileMap := BackgroundMap(lcdc);
      var palette := bus.Read(BGP_ADDR);
      var y := (scanline + scy) % 256;
      var tileRow := y / 8;
      WithOwnRow(fb0, scanline);
      PaintedEnds(row, line);
      var x := 0;
      while x < SCREEN_WIDTH
        invariant 0 <= x <= SCREEN_WIDTH
        invariant bus.bytes == m
        invariant Frame() == WithRow(fb0, scanline, Painted(row, line, x))
      {
        BackgroundColumn(bus, scanline, x, lcdc, scx, scy, palette, tileMap, y, tileRow, fb0, row, line);
        x := x + 1;
      }
    }

    /** The body of the loop of `render_background`: column `x` of the
        line fetched from the background map and written. */
    method BackgroundColumn(bus: Bus, scanline: int, x: int, lcdc: u8, scx: u8, scy: u8, palette: u8,
                            tileMap: u16, y: int, tileRow: int, ghost fb: Frame, ghost row: seq<u32>, ghost line: seq<u32>)
      requires Valid() && 0 <= scanline < SCREEN_HEIGHT && 0 <= x < SCREEN_WIDTH
      requires lcdc == bus.bytes[LCDC_ADDR] && scx == bus.bytes[SCX_ADDR] && scy == bus.bytes[SCY_ADDR]
      requires palette == bus.bytes[BGP_ADDR] && tileMap == BackgroundMap(lcdc)
      requires y == (scanline + scy) % 256 && tileRow == y / 8
      requires |row| == SCREEN_WIDTH && line == BackgroundLine(bus.bytes, scanline)
      requires Frame() == WithRow(fb, scanline, Painted(row, line, x))
      modifies framebuffer
      ensures Frame() == WithRow(fb, scanline, Painted(row, line, x + 1))
    {
      var mappedX := (x + scx) % 256;
      var tileCol := mappedX / 8;
      var tileAddr := tileMap + tileRow * 32 + tileCol;
      var colorId := TileColorId(bus, lcdc, tileAddr, y % 8, mappedX % 8);
      var color := GetColor(colorId, palette);
      BackgroundStep(bus.bytes, scanline, x, lcdc, scx, scy, palette, tileAddr, color);
      SetPixel(scanline, x, color);
      WithRowUpdate(fb, scanline, Painted(row, line, x), x, color);
      PaintedNext(row, line, x);
    }

    /** The tile fetch shared by `render_background` and `render_window`:
        the tile number at `tileAddr`, remapped under signed addressing, then
        the colour id of pixel (`col`, `row`) of that tile. */
    method TileColorId(bus: Bus, lcdc: u8, tileAddr: u16, row: int, col: int) returns (colorId: bv8)
      requires 0 <= row < 8 && 0 <= col < 8
      ensures colorId == TilePixel(bus.bytes, lcdc, tileAddr, row, col)
    {
      var tileData := TileData(lcdc);
      var signedAddressing := !Test(lcdc, 0x10);
      var tileId := TileIndex(bus.Read(tileAddr), signedAddressing);
      var tileLocation := tileData + tileId as int * 16;
      var rowOffset := row * 2;
      var byte1 := bus.Read(tileLocation + rowOffset);
      var byte2 := bus.Read(tileLocation + rowOffset + 1);
      var bitNum := 7 - col;
      colorId := ColorId(byte1, byte2, bitNum as bv8);
    }

    /** `framebuffer_[scanline * SCREEN_WIDTH + column] = color` */
    method SetPixel(scanline: int, column: int, color: u32)
      requires Valid() && 0 <= scanline < SCREEN_HEIGHT && 0 <= column < SCREEN_WIDTH
      modifies framebuffer
      ensures Frame() == old(Frame())[RowStart(scanline) + column := color]
    {
      framebuffer[scanline * SCREEN_WIDTH + column] := color;
    }

    /** `render_window` */
    method RenderWindow(bus: Bus, scanline: int)
      requires Valid() && 0 <= scanline < SCREEN_HEIGHT
      modifies framebuffer
      ensures Frame() == WindowFrame(old(Frame()), bus.bytes, scanline)
    {
      ghost var m, fb0 := bus.bytes, Frame();
      var wy := bus.Read(WY_ADDR);
      if scanline < wy {
        return;
      }
      ghost var row, line := Row(fb0, scanline), WindowLine(m, scanline);
      var wx := bus.Read(WX_ADDR);
      var lcdc := bus.Read(LCDC_ADDR);
      var tileMap := WindowMap(lcdc);
      var palette := bus.Read(BGP_ADDR);
      var windowLine := Wrap8(scanline - wy);
      var tileRow := windowLine / 8;
      WithOwnRow(fb0, scanline);
      WindowPaintedStart(row, line, wx);
      var x := 0;
      while x < SCREEN_WIDTH - wx + 7
        invariant 0 <= x <= WindowEnd(wx)
        invariant bus.bytes == m
        invariant Frame() == WithRow(fb0, scanline, WindowPainted(row, line, wx, x))
      {
        WindowColumn(bus, scanline, x, wx, lcdc, wy, palette, tileMap, windowLine, tileRow, fb0, row, line);
        x := x + 1;
      }
    }

    /** The body of the loop of `render_window` for window column `x`:
        skipped left of the screen, otherwise the tile fetched and the
        pixel written when it lands on screen. */
    method WindowColumn(bus: Bus, scanline: int, x: int, wx: u8, lcdc: u8, wy: u8, palette: u8,
                        tileMap: u16, windowLine: u8, tileRow: int, ghost fb: Frame, ghost row: seq<u32>, ghost line: seq<u32>)
      requires Valid() && wy <= scanline < SCREEN_HEIGHT && 0 <= x < WINDOW_COLUMNS
      requires wx == bus.bytes[WX_ADDR] && lcdc == bus.bytes[LCDC_ADDR] && wy == bus.bytes[WY_ADDR]
      requires palette == bus.bytes[BGP_ADDR]
      requires tileMap == WindowMap(lcdc) && windowLine == Wrap8(scanline - wy) && tileRow == windowLine / 8
      requires |row| == SCREEN_WIDTH && line == WindowLine(bus.bytes, scanline)
      requires Frame() == WithRow(fb, scanline, WindowPainted(row, line, wx, x))
      modifies framebuffer
      ensures Frame() == WithRow(fb, scanline, WindowPainted(row, line, wx, x + 1))
    {
      WindowPaintedNext(row, line, wx, x);
      if x + wx < 7 {
        return;
      }
      var tileCol := x / 8;
      var tileAddr := tileMap + tileRow * 32 + tileCol;
      var colorId := TileColorId(bus, lcdc, tileAddr, windowLine % 8, x % 8);
      var screenX := x + wx - 7;
      if 0 <= screenX < SCREEN_WIDTH {
        var color := GetColor(colorId, palette);
        WindowStep(bus.bytes, scanline, x, lcdc, wy, palette, tileAddr, color);
        SetPixel(scanline, screenX, color);
        WithRowUpdate(fb, scanline, WindowPainted(row, line, wx, x), screenX, color);
      }
    }

    /** `render_sprites` */
    method RenderSprites(bus: Bus, scanline: int)
      requires Valid() && 0 <= scanline < SCREEN_HEIGHT
      modifies framebuffer
      ensures Frame() == SpritesFrame(old(Frame()), bus.bytes, scanline)
    {
      ghost var m, fb0 := bus.bytes, Frame();
      ghost var row := Row(fb0, scanline);
      var lcdc := bus.Read(LCDC_ADDR);
      var height := SpriteHeight(lcdc);
      var sprites := CopyOam(bus);
      WithOwnRow(fb0, scanline);
      ghost var chosen: seq<Sprite> := [];
      var spritesOnLine := 0;
      var i := 0;
      while i < OAM_ENTRIES
        invariant 0 <= i <= OAM_ENTRIES
        invariant chosen == Chosen(sprites[..i], scanline, height) && spritesOnLine == |chosen|
        invariant sprites[..] == Oam(m)
        invariant Frame() == WithRow(fb0, scanline, DrawAll(row, m, chosen, scanline, height))
        modifies framebuffer
      {
        if spritesOnLine >= SPRITES_PER_LINE {
          break;
        }
        ChosenStep(sprites[..], i, scanline, height);
        var taken := ConsiderSprite(bus, scanline, sprites[i], height, fb0, row, chosen);
        if taken {
          spritesOnLine := spritesOnLine + 1;
          assert (chosen + [sprites[i]])[..|chosen|] == chosen;
          chosen := chosen + [sprites[i]];
        }
        i := i + 1;
      }
      ChosenSaturates(sprites[..], i, scanline, height);
      assert sprites[..][..i] == sprites[..i];
    }

    /** The first loop of `render_sprites`: the 40 OAM entries copied into
        a local array, Y and X moved by -16 and -8 as uint8_t. */
    method CopyOam(bus: Bus) returns (sprites: array<Sprite>)
      ensures fresh(sprites) && sprites[..] == Oam(bus.bytes)
    {
      sprites := new Sprite[OAM_ENTRIES];
      var i := 0;
      while i < OAM_ENTRIES
        invariant 0 <= i <= OAM_ENTRIES
        invariant forall k :: 0 <= k < i ==> sprites[k] == SpriteAt(bus.bytes, k)
        modifies sprites
      {
        var spriteAddr := 0xFE00 + i * 4;
        sprites[i] := Sprite(Wrap8(bus.Read(spriteAddr) as int - 16), Wrap8(bus.Read(spriteAddr + 1) as int - 8),
                             bus.Read(spriteAddr + 2), bus.Read(spriteAddr + 3));
        i := i + 1;
      }
    }

    /** One iteration of the second loop of `render_sprites` below the
        limit: a sprite on the line is taken and drawn over what the
        sprites taken before it drew; any other is skipped. */
    method ConsiderSprite(bus: Bus, scanline: int, sprite: Sprite, height: int,
                          ghost fb: Frame, ghost row: seq<u32>, ghost chosen: seq<Sprite>) returns (taken: bool)
      requires Valid() && 0 <= scanline < SCREEN_HEIGHT && (height == 8 || height == 16) && |row| == SCREEN_WIDTH
      requires forall k :: 0 <= k < |chosen| ==> OnLine(chosen[k], scanline, height)
      requires Frame() == WithRow(fb, scanline, DrawAll(row, bus.bytes, chosen, scanline, height))
      modifies framebuffer
      ensures taken == OnLine(sprite, scanline, height)
      ensures taken ==> Frame() == WithRow(fb, scanline, DrawAll(row, bus.bytes, chosen + [sprite], scanline, height))
      ensures !taken ==> Frame() == WithRow(fb, scanline, DrawAll(row, bus.bytes, chosen, scanline, height))
    {
      if scanline < sprite.y || scanline >= sprite.y + height {
        return false;
      }
      ghost var drawn := DrawAll(row, bus.bytes, chosen, scanline, height);
      WithRowTwice(fb, scanline, drawn, DrawSprite(drawn, bus.bytes, sprite, scanline, height));
      DrawSpriteLine(bus, scanline, sprite, height);
      assert (chosen + [sprite])[..|chosen|] == chosen;
      return true;
    }

    /** The body of the sprite loop in `render_sprites` for one sprite on
        the line: its tile row fetched, and its eight columns drawn. */
    method DrawSpriteLine(bus: Bus, scanline: int, sprite: Sprite, height: int)
      requires Valid() && 0 <= scanline < SCREEN_HEIGHT
      requires OnLine(sprite, scanline, height) && (height == 8 || height == 16)
      modifies framebuffer
      ensures Frame() == WithRow(old(Frame()), scanline, DrawSprite(Row(old(Frame()), scanline), bus.bytes, sprite, scanline, height))
    {
      ghost var m, fb0 := bus.bytes, Frame();
      ghost var row := Row(fb0, scanline);
      ghost var ids, colors := SpriteIds(m, sprite, scanline, height), SpriteColors(m, sprite, scanline, height);
      var flipY := Test(sprite.attributes, 0x40);
      var flipX := Test(sprite.attributes, 0x20);
      var palette := if Test(sprite.attributes, 0x10) then bus.Read(OBP1_ADDR) else bus.Read(OBP0_ADDR);
      var spriteLine := Wrap8(scanline - sprite.y);
      if flipY {
        spriteLine := height - 1 - spriteLine;
      }
      var tileAddr := 0x8000 + sprite.tile * 16 + spriteLine * 2;
      assert tileAddr == SpriteRowAddress(sprite, scanline, height);
      var byte1 := bus.Read(tileAddr);
      var byte2 := bus.Read(tileAddr + 1);
      WithOwnRow(fb0, scanline);
      SpritePaintedStart(row, sprite.x, ids, colors);
      var x := 0;
      while x < 8
        invariant 0 <= x <= 8
        invariant bus.bytes == m
        invariant Frame() == WithRow(fb0, scanline, SpritePainted(row, sprite.x, ids, colors, x))
      {
        SpriteColumn(bus, scanline, sprite, height, x, byte1, byte2, flipX, palette, fb0, row, ids, colors);
        x := x + 1;
      }
    }

    /** The body of the inner loop of `render_sprites`: sprite column `x`
        written unless it is off screen or of colour id 0 (transparent). */
    method SpriteColumn(bus: Bus, scanline: int, sprite: Sprite, height: int, x: int, byte1: u8, byte2: u8,
                        flipX: bool, palette: u8, ghost fb: Frame, ghost row: seq<u32>, ghost ids: seq<bv8>,
                        ghost colors: seq<u32>)
      requires Valid() && 0 <= scanline < SCREEN_HEIGHT && 0 <= x < 8
      requires OnLine(sprite, scanline, height) && (height == 8 || height == 16)
      requires byte1 == bus.bytes[SpriteRowAddress(sprite, scanline, height)]
      requires byte2 == bus.bytes[SpriteRowAddress(sprite, scanline, height) + 1]
      requires flipX == Test(sprite.attributes, 0x20) && palette == SpritePalette(bus.bytes, sprite)
      requires |row| == SCREEN_WIDTH
      requires ids == SpriteIds(bus.bytes, sprite, scanline, height) && colors == SpriteColors(bus.bytes, sprite, scanline, height)
      requires Frame() == WithRow(fb, scanline, SpritePainted(row, sprite.x, ids, colors, x))
      modifies framebuffer
      ensures Frame() == WithRow(fb, scanline, SpritePainted(row, sprite.x, ids, colors, x + 1))
    {
      SpritePaintedNext(row, sprite.x, ids, colors, x);
      if sprite.x + x >= SCREEN_WIDTH {
        return;
      }
      var bit := if flipX then x else 7 - x;
      var colorId := ColorId(byte1, byte2, bit as bv8);
      SpriteStep(bus.bytes, sprite, scanline, height, x, byte1, byte2, colorId, palette);
      if colorId == 0 {
        return;
      }
      var color := GetColor(colorId, palette);
      SetPixel(scanline, sprite.x + x, color);
      WithRowUpdate(fb, scanline, SpritePainted(row, sprite.x, ids, colors, x), sprite.x + x, color);
    }

    /** `update_mode` */
    method UpdateMode(bus: Bus)
      modifies this, bus
      ensures Timing() == T.UpdateMode(old(Timing()), old(bus.bytes)).0
      ensures bus.bytes == T.UpdateMode(old(Timing()), old(bus.bytes)).1
    {
      var raw := bus.Read(STAT_ADDR);
      var stat := (raw as bv8) & 0xFC;
      stat := SwitchMode(stat);
      var lyc := bus.Read(LYC_ADDR);
      T.StatAfterSwitch(old(Timing()), raw, lyc, stat);
      if line == lyc {
        stat := stat | 0x04;
      }
      bus.Write(STAT_ADDR, ByteOf(stat));
    }

    /** The `switch` of `update_mode`: the mode transition, and the mode
        bits set in `stat`. */
    method SwitchMode(stat0: bv8) returns (stat: bv8)
      modifies this
      ensures Timing() == T.Transition(old(Timing()))
      ensures stat == stat0 | T.ModeBits(old(Timing()))
    {
      stat := stat0;
      match mode {
      case OAM =>
        stat := stat | 0x02;
        if counter >= CYCLES_OAM {
          mode := Drawing;
          stat := stat | 0x03;
        }
      case Drawing =>
        stat := stat | 0x03;
        if counter >= CYCLES_OAM + CYCLES_DRAWING {
          mode := HBlank;
          stat := stat | 0x00;
        }
      case HBlank =>
        stat := stat | 0x00;
      case VBlank =>
        stat := stat | 0x01;
        if line >= TOTAL_LINES {
          mode := OAM;
          stat := stat | 0x02;
          line := 0;
        }
      }
    }
  }
}
