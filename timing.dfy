// The state machine of `tick` and `update_mode` in core/src/ppu.cpp, as
// functions: the dot counter, the current line, the mode, and what each
// call leaves in the framebuffer and on the bus (LY and STAT).

module LcdTiming {
  import opened Bits
  import opened Lcd
  import opened VideoBus
  import opened Render

  /** `cyclecounter_`, `currentline_` and `mode_`. */
  datatype Timing = Timing(counter: u32, line: u8, mode: Mode)

  /** The PPU's state after a call, with the framebuffer and the bus. */
  datatype Outcome = Outcome(timing: Timing, frame: Frame, bus: Space)

  /** The timing the PPU starts with: counter 0, line 0, mode OAM. */
  const START: Timing := Timing(0, 0, OAM)

  /** The STAT mode code of each mode: 0, 1, 2, 3 in declaration order. */
  function ModeCode(mode: Mode): (code: bv8)
    ensures code < 4
  {
    match mode
    case HBlank => 0
    case VBlank => 1
    case OAM => 2
    case Drawing => 3
  }

  /** The mode change `update_mode` makes: OAM gives way to Drawing after 80
      dots of the line, Drawing to HBlank after 252, and VBlank to OAM (with
      line 0) once the line has reached 154. HBlank never changes. */
  function Transition(t: Timing): Timing
  {
    match t.mode
    case OAM => if t.counter >= CYCLES_OAM then t.(mode := Drawing) else t
    case Drawing => if t.counter >= CYCLES_OAM + CYCLES_DRAWING then t.(mode := HBlank) else t
    case HBlank => t
    case VBlank => if t.line >= TOTAL_LINES then t.(mode := OAM, line := 0) else t
  }

  /** The bits the `switch` of `update_mode` sets in STAT, arm by arm. */
  function ModeBits(t: Timing): bv8
  {
    match t.mode
    case OAM => if t.counter >= CYCLES_OAM then 0x02 | 0x03 else 0x02
    case Drawing => if t.counter >= CYCLES_OAM + CYCLES_DRAWING then 0x03 | 0x00 else 0x03
    case HBlank => 0x00
    case VBlank => if t.line >= TOTAL_LINES then 0x01 | 0x02 else 0x01
  }

  /** The STAT value `update_mode` writes, from the value it read and LYC:
      the two low bits cleared, the mode bits set, and bit 2 set when the
      (new) line equals LYC. */
  function Stat(t: Timing, stat: u8, lyc: u8): bv8
  {
    var bits := ((stat as bv8) & 0xFC) | ModeBits(t);
    if Transition(t).line == lyc then bits | 0x04 else bits
  }

  /** `Stat` after the `switch`: the coincidence bit set on top of the mode bits. */
  lemma StatAfterSwitch(t: Timing, stat: u8, lyc: u8, switched: bv8)
    requires switched == ((stat as bv8) & 0xFC) | ModeBits(t)
    ensures Stat(t, stat, lyc) == if Transition(t).line == lyc then switched | 0x04 else switched
  {
  }

  /** `update_mode`: the transition, and STAT written back. */
  function UpdateMode(t: Timing, bus: Space): (Timing, Space)
  {
    (Transition(t), bus[STAT_ADDR := ByteOf(Stat(t, bus[STAT_ADDR], bus[LYC_ADDR]))])
  }

  /** `update_mode` applied to an outcome; the framebuffer is not touched. */
  function Finish(t: Timing, frame: Frame, bus: Space): Outcome
  {
    var (t1, bus1) := UpdateMode(t, bus);
    Outcome(t1, frame, bus1)
  }

  /** The line after `line`: incremented as uint8_t, back to 0 after line 153. */
  function NextLine(line: u8): u8
  {
    var next := Wrap8(line + 1);
    if next >= TOTAL_LINES then 0 else next
  }

  /** The block of `tick` run once a full line of dots has passed: the
      counter drops by one line's worth, the next line is written to LY, a
      visible line is rendered, and line 144 enters VBlank. */
  function NewLine(t: Timing, frame: Frame, bus: Space): Outcome
    requires t.counter >= CYCLES_LINE
  {
    var line := NextLine(t.line);
    var bus1 := bus[LY_ADDR := line];
    var frame1 := if line < SCREEN_HEIGHT then ScanlineFrame(frame, bus1, line) else frame;
    var mode := if line < SCREEN_HEIGHT || line != SCREEN_HEIGHT then t.mode else VBlank;
    Outcome(Timing(t.counter - CYCLES_LINE, line, mode), frame1, bus1)
  }

  /** `tick`: nothing while LCDC bit 7 is clear; otherwise the counter
      advances (wrapping as uint32_t), a full line of dots starts the next
      line, and the mode is updated. */
  function Tick(t: Timing, frame: Frame, bus: Space, cycles: u32): Outcome
  {
    if !IsLcdEnabled(bus[LCDC_ADDR]) then Outcome(t, frame, bus)
    else
      var advanced := t.(counter := Wrap32(t.counter + cycles));
      var o := if advanced.counter >= CYCLES_LINE then NewLine(advanced, frame, bus) else Outcome(advanced, frame, bus);
      Finish(o.timing, o.frame, o.bus)
  }
}
