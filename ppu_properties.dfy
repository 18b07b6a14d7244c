// Properties of the PPU model: what `tick` and `update_mode` in
// core/src/ppu.cpp do to the counter, the line, the mode and STAT, the
// mode machine's dead end, and what each rendering pass may and may not
// change in the framebuffer.

module PpuProperties {
  import opened Bits
  import opened Lcd
  import opened VideoBus
  import opened Render
  import opened LcdTiming
  import Memory

  // ---------------------------------------------------------------------
  // tick

  /** With LCDC bit 7 clear, `tick` changes nothing: no counter, line,
      mode, pixel or bus byte. */
  lemma TickWhileLcdOff(t: Timing, frame: Frame, bus: Space, cycles: u32)
    requires !IsLcdEnabled(bus[LCDC_ADDR])
    ensures Tick(t, frame, bus, cycles) == Outcome(t, frame, bus)
  {
  }

  /** The line after line 153 is line 0: lines count round 0..153. */
  lemma NextLineCounts(line: u8)
    requires line < TOTAL_LINES
    ensures NextLine(line) == (line + 1) % TOTAL_LINES
  {
  }

  /** A tick never takes the line out of 0..153. */
  lemma TickKeepsLineInRange(t: Timing, frame: Frame, bus: Space, cycles: u32)
    requires t.line < TOTAL_LINES
    ensures Tick(t, frame, bus, cycles).timing.line < TOTAL_LINES
  {
  }

  /** A tick that completes a line takes one line's worth of dots off the
      counter, keeping the excess, and moves to the next line; a tick that
      does not only adds its dots. (The sum is taken below 2^32, where
      uint32_t does not wrap.) */
  lemma TickCounterAndLine(t: Timing, frame: Frame, bus: Space, cycles: u32)
    requires IsLcdEnabled(bus[LCDC_ADDR]) && t.line < TOTAL_LINES
    requires t.counter + cycles < 0x1_0000_0000
    ensures var r := Tick(t, frame, bus, cycles).timing;
      if t.counter + cycles >= CYCLES_LINE
      then r.counter == t.counter + cycles - CYCLES_LINE && r.line == (t.line + 1) % TOTAL_LINES
      else r.counter == t.counter + cycles && r.line == t.line
  {
    NextLineCounts(t.line);
  }

  /** Entering line 144 enters VBlank, writes 144 to LY and renders nothing. */
  lemma TickEntersVBlank(t: Timing, frame: Frame, bus: Space, cycles: u32)
    requires IsLcdEnabled(bus[LCDC_ADDR]) && Wrap32(t.counter + cycles) >= CYCLES_LINE
    requires NextLine(t.line) == SCREEN_HEIGHT
    ensures Tick(t, frame, bus, cycles).timing.mode == VBlank
    ensures Tick(t, frame, bus, cycles).frame == frame
    ensures Tick(t, frame, bus, cycles).bus[LY_ADDR] == SCREEN_HEIGHT
  {
  }

  /** Entering a visible line renders that line, with LY already holding
      it, and leaves every other row of the framebuffer alone. */
  lemma TickRendersNewLine(t: Timing, frame: Frame, bus: Space, cycles: u32)
    requires IsLcdEnabled(bus[LCDC_ADDR]) && Wrap32(t.counter + cycles) >= CYCLES_LINE
    requires NextLine(t.line) < SCREEN_HEIGHT
    ensures var line := NextLine(t.line);
      Tick(t, frame, bus, cycles).frame == ScanlineFrame(frame, bus[LY_ADDR := line], line)
    ensures forall i :: 0 <= i < FRAME_SIZE && !InRow(i, NextLine(t.line)) ==> Tick(t, frame, bus, cycles).frame[i] == frame[i]
  {
    ScanlineKeepsOtherRows(frame, bus[LY_ADDR := NextLine(t.line)], NextLine(t.line));
  }

  /** A tick that does not complete a line renders nothing. */
  lemma TickWithinLine(t: Timing, frame: Frame, bus: Space, cycles: u32)
    requires Wrap32(t.counter + cycles) < CYCLES_LINE
    ensures Tick(t, frame, bus, cycles).frame == frame
  {
  }

  // ---------------------------------------------------------------------
  // update_mode

  /** The mode steps of `update_mode`: OAM gives way to Drawing once the
      counter reaches 80, Drawing to HBlank once it reaches 252, HBlank
      never changes, and VBlank does not change while the line is below
      154. */
  lemma ModeSteps(t: Timing)
    ensures t.mode == OAM ==> Transition(t).mode == if t.counter >= CYCLES_OAM then Drawing else OAM
    ensures t.mode == Drawing ==> Transition(t).mode == if t.counter >= CYCLES_OAM + CYCLES_DRAWING then HBlank else Drawing
    ensures t.mode == HBlank ==> Transition(t) == t
    ensures t.mode == VBlank && t.line < TOTAL_LINES ==> Transition(t) == t
    ensures Transition(t).counter == t.counter
  {
  }

  /** What `update_mode` writes to STAT: bits 3 to 7 as read; bit 2 as read,
      or set when the line equals LYC (it is never cleared); bits 0 and 1
      the code of the new mode, except that the step out of Drawing (and the
      VBlank step, which cannot happen) report 3. */
  lemma StatBits(t: Timing, stat: u8, lyc: u8)
    ensures Stat(t, stat, lyc) & 0xF8 == (stat as bv8) & 0xF8
    ensures Stat(t, stat, lyc) & 0x04 != 0 <==> (stat as bv8) & 0x04 != 0 || Transition(t).line == lyc
    ensures Stat(t, stat, lyc) & 0x03 ==
      if (t.mode == Drawing && t.counter >= CYCLES_OAM + CYCLES_DRAWING) || (t.mode == VBlank && t.line >= TOTAL_LINES)
      then 3 else ModeCode(Transition(t).mode)
  {
  }

  /** `update_mode` writes STAT and nothing else on the bus. */
  lemma UpdateModeWritesOnlyStat(t: Timing, bus: Space, a: u16)
    requires a != STAT_ADDR
    ensures UpdateMode(t, bus).1[a] == bus[a]
    ensures UpdateMode(t, bus).1[STAT_ADDR] == ByteOf(Stat(t, bus[STAT_ADDR], bus[LYC_ADDR]))
  {
  }

  // ---------------------------------------------------------------------
  // The mode machine's dead end

  /** The outcome of calling `tick` with each of `steps` in turn. */
  function Run(t: Timing, frame: Frame, bus: Space, steps: seq<u32>): Outcome
    decreases |steps|
  {
    if |steps| == 0 then Outcome(t, frame, bus)
    else
      var o := Tick(t, frame, bus, steps[0]);
      Run(o.timing, o.frame, o.bus, steps[1..])
  }

  /** In HBlank or VBlank, on a line that exists. */
  predicate Blanking(t: Timing)
  {
    (t.mode == HBlank || t.mode == VBlank) && t.line < TOTAL_LINES
  }

  /** A tick from HBlank or VBlank ends in HBlank or VBlank: HBlank has no
      way out, entering line 144 only trades it for VBlank, and the way out
      of VBlank needs line 154, which `tick` never reaches. */
  lemma TickKeepsBlanking(t: Timing, frame: Frame, bus: Space, cycles: u32)
    requires Blanking(t)
    ensures Blanking(Tick(t, frame, bus, cycles).timing)
  {
  }

  /** Once in HBlank or VBlank, the PPU never again reports OAM or
      Drawing, however many ticks follow. */
  lemma {:induction false} BlankingIsForever(t: Timing, frame: Frame, bus: Space, steps: seq<u32>)
    requires Blanking(t)
    ensures Blanking(Run(t, frame, bus, steps).timing)
    decreases |steps|
  {
    if |steps| > 0 {
      TickKeepsBlanking(t, frame, bus, steps[0]);
      var o := Tick(t, frame, bus, steps[0]);
      BlankingIsForever(o.timing, o.frame, o.bus, steps[1..]);
    }
  }

  /** From the initial state with the LCD on, a tick of 252 dots reaches
      Drawing and a further tick of 0 dots reaches HBlank, where the mode
      then stays. */
  lemma StartReachesHBlank(frame: Frame, bus: Space)
    requires IsLcdEnabled(bus[LCDC_ADDR])
    ensures Tick(START, frame, bus, 252).timing.mode == Drawing
    ensures Run(START, frame, bus, [252, 0]).timing.mode == HBlank
  {
    var o := Tick(START, frame, bus, 252);
    assert o.bus[LCDC_ADDR] == bus[LCDC_ADDR];
    assert [252, 0][1..] == [0];
  }

  // ---------------------------------------------------------------------
  // Tiles and colours

  /** Signed addressing maps tile number `id` to (id + 128) mod 256 from
      base 0x8800, so tiles 0x80..0xFF come first; either way a tile row
      lies in 0x8000..0x8FFF (unsigned) or 0x8800..0x97FF (signed). */
  lemma TileAddressing(m: Space, lcdc: u8, tileAddr: u16, row: int)
    requires 0 <= row < 8
    ensures TileIndex(m[tileAddr], true) == (m[tileAddr] as int + 128) % 256
    ensures Test(lcdc, 0x10) ==> 0x8000 <= TileRowAddress(m, lcdc, tileAddr, row) < 0x9000
    ensures !Test(lcdc, 0x10) ==> 0x8800 <= TileRowAddress(m, lcdc, tileAddr, row) < 0x9800
  {
  }

  /** The colour of point (`mappedX`, `y`) of the 256 x 256 background plane. */
  function PlanePixel(m: Space, y: int, mappedX: int): u32
    requires 0 <= y < 256 && 0 <= mappedX < 256
  {
    var lcdc := m[LCDC_ADDR];
    TileColor(m, lcdc, BackgroundMap(lcdc) + (y / 8) * 32 + mappedX / 8, y % 8, mappedX % 8, m[BGP_ADDR])
  }

  /** A background pixel is the plane's pixel at the scrolled coordinates,
      wrapped at 256. */
  lemma BackgroundIsPlane(m: Space, scanline: int, x: int)
    requires 0 <= scanline < SCREEN_HEIGHT && 0 <= x < SCREEN_WIDTH
    ensures BackgroundPixel(m, scanline, x) == PlanePixel(m, (scanline + m[SCY_ADDR]) % 256, (x + m[SCX_ADDR]) % 256)
  {
  }

  /** The plane does not depend on the scroll registers. */
  lemma PlaneIgnoresScroll(m: Space, scx: u8, scy: u8, y: int, mappedX: int)
    requires 0 <= y < 256 && 0 <= mappedX < 256
    ensures PlanePixel(m[SCX_ADDR := scx][SCY_ADDR := scy], y, mappedX) == PlanePixel(m, y, mappedX)
  {
    var m2 := m[SCX_ADDR := scx][SCY_ADDR := scy];
    var lcdc := m[LCDC_ADDR];
    var tileAddr: u16 := BackgroundMap(lcdc) + (y / 8) * 32 + mappedX / 8;
    assert m2[LCDC_ADDR] == lcdc && m2[BGP_ADDR] == m[BGP_ADDR] && m2[tileAddr] == m[tileAddr];
    var a := TileRowAddress(m, lcdc, tileAddr, y % 8);
    assert TileRowAddress(m2, lcdc, tileAddr, y % 8) == a;
    assert m2[a] == m[a] && m2[a + 1] == m[a + 1];
  }

  /** The background is a 256 x 256 plane that wraps: a pixel depends on
      the scroll registers only through (x + SCX) mod 256 and
      (scanline + SCY) mod 256. */
  lemma BackgroundWraps(m: Space, scx: u8, scy: u8, scanline: int, x: int, scanline2: int, x2: int)
    requires 0 <= scanline < SCREEN_HEIGHT && 0 <= x < SCREEN_WIDTH
    requires 0 <= scanline2 < SCREEN_HEIGHT && 0 <= x2 < SCREEN_WIDTH
    requires (x + m[SCX_ADDR]) % 256 == (x2 + scx) % 256
    requires (scanline + m[SCY_ADDR]) % 256 == (scanline2 + scy) % 256
    ensures BackgroundPixel(m, scanline, x) == BackgroundPixel(m[SCX_ADDR := scx][SCY_ADDR := scy], scanline2, x2)
  {
    var m2 := m[SCX_ADDR := scx][SCY_ADDR := scy];
    BackgroundIsPlane(m, scanline, x);
    BackgroundIsPlane(m2, scanline2, x2);
    assert m2[SCX_ADDR] == scx && m2[SCY_ADDR] == scy;
    PlaneIgnoresScroll(m, scx, scy, (scanline + m[SCY_ADDR]) % 256, (x + m[SCX_ADDR]) % 256);
  }

  // ---------------------------------------------------------------------
  // Rendering passes

  /** `render_background` replaces row `scanline` with the background's
      colours and touches no other row. */
  lemma BackgroundWritesItsRow(fb: Frame, m: Space, scanline: int)
    requires 0 <= scanline < SCREEN_HEIGHT
    ensures Row(BackgroundFrame(fb, m, scanline), scanline) == BackgroundLine(m, scanline)
    ensures forall i :: 0 <= i < FRAME_SIZE && !InRow(i, scanline) ==> BackgroundFrame(fb, m, scanline)[i] == fb[i]
  {
    WithRowPixels(fb, scanline, BackgroundLine(m, scanline));
    WithRowTwice(fb, scanline, BackgroundLine(m, scanline), BackgroundLine(m, scanline));
  }

  /** Above WY, `render_window` changes nothing. */
  lemma WindowAboveWy(fb: Frame, m: Space, scanline: int)
    requires 0 <= scanline < m[WY_ADDR] && scanline < SCREEN_HEIGHT
    ensures WindowFrame(fb, m, scanline) == fb
  {
  }

  /** From WY down, screen column `c` shows window column c + 7 - WX when
      that is not negative and keeps its colour otherwise; other rows are
      untouched. */
  lemma WindowColumns(fb: Frame, m: Space, scanline: int, c: int)
    requires m[WY_ADDR] <= scanline < SCREEN_HEIGHT && 0 <= c < SCREEN_WIDTH
    ensures WindowFrame(fb, m, scanline)[RowStart(scanline) + c] ==
      if c + 7 >= m[WX_ADDR] then WindowLine(m, scanline)[c + 7 - m[WX_ADDR]] else fb[RowStart(scanline) + c]
    ensures forall i :: 0 <= i < FRAME_SIZE && !InRow(i, scanline) ==> WindowFrame(fb, m, scanline)[i] == fb[i]
  {
    var row := WindowPainted(Row(fb, scanline), WindowLine(m, scanline), m[WX_ADDR], WindowEnd(m[WX_ADDR]));
    WithRowPixels(fb, scanline, row);
  }

  /** The first `n` elements of `s`, or all of it when it is shorter. */
  function Take<T>(s: seq<T>, n: nat): seq<T>
  {
    if |s| <= n then s else s[..n]
  }

  /** `render_sprites` takes the first ten sprites on the line in OAM
      order, or all of them when there are fewer. */
  lemma {:induction false} ChosenIsFirstTen(sprites: seq<Sprite>, scanline: int, height: int)
    ensures Chosen(sprites, scanline, height) == Take(OnLineSprites(sprites, scanline, height), SPRITES_PER_LINE)
    decreases |sprites|
  {
    if |sprites| > 0 {
      var prefix := sprites[..|sprites| - 1];
      var last := sprites[|sprites| - 1];
      ChosenIsFirstTen(prefix, scanline, height);
      var onLine := OnLineSprites(prefix, scanline, height);
      if |onLine| >= SPRITES_PER_LINE && OnLine(last, scanline, height) {
        assert (onLine + [last])[..SPRITES_PER_LINE] == onLine[..SPRITES_PER_LINE];
      }
    }
  }

  /** Drawn over a row, a sprite leaves alone every column it does not
      cover and every column where its colour id is 0 (transparent); any
      other column takes the colour of its pixel under its palette. */
  lemma SpriteColumns(row: seq<u32>, m: Space, s: Sprite, scanline: int, height: int, c: int)
    requires |row| == SCREEN_WIDTH && OnLine(s, scanline, height) && (height == 8 || height == 16)
    requires 0 <= c < SCREEN_WIDTH
    ensures !(s.x <= c < s.x + 8) || SpritePixel(m, s, scanline, height, c - s.x) == 0 ==>
      DrawSprite(row, m, s, scanline, height)[c] == row[c]
    ensures s.x <= c < s.x + 8 && SpritePixel(m, s, scanline, height, c - s.x) != 0 ==>
      DrawSprite(row, m, s, scanline, height)[c] == GetColor(SpritePixel(m, s, scanline, height, c - s.x), SpritePalette(m, s))
  {
  }

  /** The sprite `sprite` covers column `c` with a visible pixel. */
  predicate Covers(m: Space, sprite: Sprite, scanline: int, height: int, c: int)
    requires OnLine(sprite, scanline, height) && (height == 8 || height == 16)
  {
    sprite.x <= c < sprite.x + 8 && SpriteIds(m, sprite, scanline, height)[c - sprite.x] != 0
  }

  /** A sprite drawn over a row gives a column it covers the colour of
      its pixel there, and leaves any other column alone. */
  lemma DrawSpriteColumn(row: seq<u32>, m: Space, s: Sprite, scanline: int, height: int, c: int)
    requires |row| == SCREEN_WIDTH && OnLine(s, scanline, height) && (height == 8 || height == 16)
    requires 0 <= c < SCREEN_WIDTH
    ensures DrawSprite(row, m, s, scanline, height)[c] ==
      if Covers(m, s, scanline, height, c) then SpriteColors(m, s, scanline, height)[c - s.x] else row[c]
  {
  }

  /** A column that none of the sprites covers keeps its colour. */
  lemma {:induction false} UncoveredColumnKept(row: seq<u32>, m: Space, sprites: seq<Sprite>, scanline: int, height: int, c: int)
    requires |row| == SCREEN_WIDTH && (height == 8 || height == 16) && 0 <= c < SCREEN_WIDTH
    requires forall k :: 0 <= k < |sprites| ==> OnLine(sprites[k], scanline, height)
    requires forall k :: 0 <= k < |sprites| ==> !Covers(m, sprites[k], scanline, height, c)
    ensures DrawAll(row, m, sprites, scanline, height)[c] == row[c]
    decreases |sprites|
  {
    if |sprites| > 0 {
      var last := |sprites| - 1;
      UncoveredColumnKept(row, m, sprites[..last], scanline, height, c);
      DrawSpriteColumn(DrawAll(row, m, sprites[..last], scanline, height), m, sprites[last], scanline, height, c);
    }
  }

  /** Sprites are drawn in OAM order over each other, so the last sprite
      that covers a column decides its colour. */
  lemma {:induction false} LastSpriteWins(row: seq<u32>, m: Space, sprites: seq<Sprite>, scanline: int, height: int,
                                          c: int, k: int)
    requires |row| == SCREEN_WIDTH && (height == 8 || height == 16) && 0 <= c < SCREEN_WIDTH
    requires forall j :: 0 <= j < |sprites| ==> OnLine(sprites[j], scanline, height)
    requires 0 <= k < |sprites| && Covers(m, sprites[k], scanline, height, c)
    requires forall j :: k < j < |sprites| ==> !Covers(m, sprites[j], scanline, height, c)
    ensures DrawAll(row, m, sprites, scanline, height)[c] == SpriteColors(m, sprites[k], scanline, height)[c - sprites[k].x]
    decreases |sprites|
  {
    var last := |sprites| - 1;
    var before := sprites[..last];
    DrawSpriteColumn(DrawAll(row, m, before, scanline, height), m, sprites[last], scanline, height, c);
    if k < last {
      LastSpriteWins(row, m, before, scanline, height, c, k);
    }
  }

  /** `render_sprites` draws the first ten sprites on the line, at most. */
  lemma SpritesDrawFirstTen(fb: Frame, m: Space, scanline: int)
    requires 0 <= scanline < SCREEN_HEIGHT
    ensures var height := SpriteHeight(m[LCDC_ADDR]);
      var chosen := Chosen(Oam(m), scanline, height);
      |chosen| <= SPRITES_PER_LINE &&
      chosen == Take(OnLineSprites(Oam(m), scanline, height), SPRITES_PER_LINE) &&
      SpritesFrame(fb, m, scanline) == WithRow(fb, scanline, DrawAll(Row(fb, scanline), m, chosen, scanline, height))
  {
    ChosenIsFirstTen(Oam(m), scanline, SpriteHeight(m[LCDC_ADDR]));
  }

  /** An OAM entry whose Y byte is below 16 is never on a visible line:
      Y - 16 wraps round as uint8_t to 240 or more, below the screen. */
  lemma SpriteAboveTopNeverShown(m: Space, i: nat, scanline: int, height: int)
    requires i < OAM_ENTRIES && m[0xFE00 + i * 4] < 16
    requires 0 <= scanline < SCREEN_HEIGHT && (height == 8 || height == 16)
    ensures !OnLine(SpriteAt(m, i), scanline, height)
  {
  }

  /** An OAM entry whose X byte is below 8 draws nothing: X - 8 wraps round
      as uint8_t to 248 or more, right of the screen. */
  lemma SpriteLeftOfScreenNeverDrawn(row: seq<u32>, m: Space, i: nat, scanline: int, height: int)
    requires i < OAM_ENTRIES && m[0xFE00 + i * 4 + 1] < 8
    requires |row| == SCREEN_WIDTH && OnLine(SpriteAt(m, i), scanline, height) && (height == 8 || height == 16)
    ensures DrawSprite(row, m, SpriteAt(m, i), scanline, height) == row
  {
  }

  /** `render_scanline` changes only row `scanline`. */
  lemma ScanlineKeepsOtherRows(fb: Frame, m: Space, scanline: int)
    requires 0 <= scanline < SCREEN_HEIGHT
    ensures forall i :: 0 <= i < FRAME_SIZE && !InRow(i, scanline) ==> ScanlineFrame(fb, m, scanline)[i] == fb[i]
  {
    var lcdc := m[LCDC_ADDR];
    var f1 := if IsBgEnabled(lcdc) then BackgroundFrame(fb, m, scanline) else fb;
    var f2 := if IsWindowEnabled(lcdc) then WindowFrame(f1, m, scanline) else f1;
    BackgroundWritesItsRow(fb, m, scanline);
    if scanline >= m[WY_ADDR] {
      WindowColumns(f1, m, scanline, 0);
    }
    var height := SpriteHeight(lcdc);
    WithRowPixels(f2, scanline, DrawAll(Row(f2, scanline), m, Chosen(Oam(m), scanline, height), scanline, height));
  }

  // ---------------------------------------------------------------------
  // On the concrete memory map

  /** Over the concrete memory map LCDC reads 0xFF, so the LCD and all three
      layers count as on. */
  lemma ConcreteLcdAllOn(m: Memory.Image)
    ensures var lcdc := View(m)[LCDC_ADDR];
      IsLcdEnabled(lcdc) && IsWindowEnabled(lcdc) && IsSpritesEnabled(lcdc) && IsBgEnabled(lcdc)
  {
    ConcreteLcdRegisters(m, LCDC_ADDR);
  }
}
