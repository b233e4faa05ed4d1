/**
 * The picture processing unit, one dot per call: a frame is 154 lines of 456 dots.
 * Lines 0-143 run OAM search from dot 4 and LCD transfer from dot 84 until 160 pixels
 * are out, then HBlank; lines 144-153 are VBlank. The PPU keeps LY and the STAT mode and
 * coincidence bits up to date, requests the VBlank interrupt and, on a rising edge of
 * the combined STAT condition, the STAT interrupt. It draws into one of two frame
 * buffers and shows the other, swapping them at the end of every frame.
 */
module Ppu {
  import opened Wrappers
  import opened LcdStat
  import Lcdc
  import Sprite
  import Mmu
  import InterruptFlag
  import OamSearch
  import LcdTransfer

  const DotsPerLine: nat := 456
  const Lines: nat := 154
  const FrameDots: nat := Lines * DotsPerLine

  /**
   * What the line timing does on one dot: the STAT value it leaves, its contribution to
   * the STAT interrupt line, the LY it writes (if any) and whether it requests VBlank.
   */
  datatype Events = Events(stat: LCDSTAT, line: bool, ly: Option<bv8>, vblank: bool)

  /** The source of a STAT interrupt that an enabled condition raises. */
  predicate StatSource(stat: LCDSTAT, lyEqLyc: bool)
  {
    stat.VBlankInterrupt() || stat.OamInterrupt() || (lyEqLyc && stat.LyEqLyc())
  }

  /**
   * The timing events of dot `dot` of line `scanline`, given STAT, LY and LYC before it.
   * LY is written at dot 0 of every line (with the line number) and back to 0 at dot 4
   * of line 153; the mode becomes OAM search at dot 4 and LCD transfer at dot 84 of a
   * visible line, and VBlank at dot 4 of line 144, where VBlank is also requested at
   * dot 0; the coincidence bit is refreshed at dot 4 of lines 1-153 and dot 12 of 153.
   */
  function LineEvents(scanline: nat, dot: nat, stat: LCDSTAT, ly: bv8, lyc: bv8): (e: Events)
    requires scanline < Lines
    ensures e.vblank <==> scanline == 144 && dot == 0
    ensures e.ly.Some? <==> dot == 0 || (scanline == 153 && dot == 4)
    ensures dot == 0 ==> e.ly == Some(scanline as bv8)
    ensures dot != 0 ==> e.ly.Some? ==> e.ly.value == 0
    ensures e.line ==> StatSource(stat, ly == lyc)
    ensures scanline < 144 && dot != 0 && dot != 4 ==> !e.line
  {
    var eq := ly == lyc;
    if scanline == 0 then
      if dot == 0 then Events(stat, stat.VBlankInterrupt(), Some(0), false)
      else if dot == 4 then Events(stat.SetMode(OAMSearch), stat.OamInterrupt(), None, false)
      else if dot == 84 then Events(stat.SetMode(LCDTransfer), false, None, false)
      else Events(stat, false, None, false)
    else if scanline <= 143 then
      if dot == 0 then Events(stat, stat.OamInterrupt(), Some(scanline as bv8), false)
      else if dot == 4 then Events(stat.SetCoincidence(eq).SetMode(OAMSearch), eq && stat.LyEqLyc(), None, false)
      else if dot == 84 then Events(stat.SetMode(LCDTransfer), false, None, false)
      else Events(stat, false, None, false)
    else if scanline == 144 then
      if dot == 0 then Events(stat, false, Some(144), true)
      else if dot == 4 then
        Events(stat.SetCoincidence(eq).SetMode(VBlank),
               (eq && stat.LyEqLyc()) || stat.VBlankInterrupt() || stat.OamInterrupt(), None, false)
      else if dot >= 5 then Events(stat, stat.VBlankInterrupt(), None, false)
      else Events(stat, false, None, false)
    else if scanline <= 152 then
      if dot == 0 then Events(stat, false, Some(scanline as bv8), false)
      else if dot == 4 then Events(stat.SetCoincidence(eq), (eq && stat.LyEqLyc()) || stat.OamInterrupt(), None, false)
      else Events(stat, false, None, false)
    else
      var vblank := stat.VBlankInterrupt();
      if dot == 0 then Events(stat, vblank, Some(153), false)
      else if dot == 4 then Events(stat.SetCoincidence(eq), vblank || stat.OamInterrupt() || (eq && stat.LyEqLyc()), Some(0), false)
      else if dot == 12 then Events(stat.SetCoincidence(eq), vblank || stat.OamInterrupt() || (eq && stat.LyEqLyc()), None, false)
      else Events(stat, vblank, None, false)
  }

  /**
   * The STAT a dot leaves: the mode as the line and dot say, the coincidence bit
   * refreshed on its dots, and the interrupt-select bits untouched.
   */
  lemma LineEventsStat(scanline: nat, dot: nat, stat: LCDSTAT, ly: bv8, lyc: bv8)
    requires scanline < Lines
    ensures var e := LineEvents(scanline, dot, stat, ly, lyc);
      && e.stat.Mode() ==
        (if scanline < 144 && dot == 4 then OAMSearch
         else if scanline < 144 && dot == 84 then LCDTransfer
         else if scanline == 144 && dot == 4 then VBlank
         else stat.Mode())
      && e.stat.Coincidence() ==
        (if (0 < scanline && dot == 4) || (scanline == 153 && dot == 12) then ly == lyc else stat.Coincidence())
      && e.stat.bits & 0xF8 == stat.bits & 0xF8
  {
    LineEventsMode(scanline, dot, stat, ly, lyc);
    LineEventsCoincidence(scanline, dot, stat, ly, lyc);
    LineEventsSelects(scanline, dot, stat, ly, lyc);
  }

  lemma LineEventsMode(scanline: nat, dot: nat, stat: LCDSTAT, ly: bv8, lyc: bv8)
    requires scanline < Lines
    ensures LineEvents(scanline, dot, stat, ly, lyc).stat.Mode() ==
        (if scanline < 144 && dot == 4 then OAMSearch
         else if scanline < 144 && dot == 84 then LCDTransfer
         else if scanline == 144 && dot == 4 then VBlank
         else stat.Mode())
  {
    SetCoincidenceKeepsMode(stat, ly == lyc);
  }

  lemma LineEventsCoincidence(scanline: nat, dot: nat, stat: LCDSTAT, ly: bv8, lyc: bv8)
    requires scanline < Lines
    ensures LineEvents(scanline, dot, stat, ly, lyc).stat.Coincidence() ==
        (if (0 < scanline && dot == 4) || (scanline == 153 && dot == 12) then ly == lyc else stat.Coincidence())
  {
    var c := stat.SetCoincidence(ly == lyc);
    SetModeKeepsFlags(stat, OAMSearch);
    SetModeKeepsFlags(stat, LCDTransfer);
    SetModeKeepsFlags(c, OAMSearch);
    SetModeKeepsFlags(c, VBlank);
  }

  lemma LineEventsSelects(scanline: nat, dot: nat, stat: LCDSTAT, ly: bv8, lyc: bv8)
    requires scanline < Lines
    ensures LineEvents(scanline, dot, stat, ly, lyc).stat.bits & 0xF8 == stat.bits & 0xF8
  {
    var c := stat.SetCoincidence(ly == lyc);
    LineEventsStatIsOneOf(scanline, dot, stat, ly, lyc);
    SetCoincidenceKeepsMode(stat, ly == lyc);
    SetModeKeepsSelects(stat, OAMSearch);
    SetModeKeepsSelects(stat, LCDTransfer);
    SetModeKeepsSelects(c, OAMSearch);
    SetModeKeepsSelects(c, VBlank);
  }

  /** The STAT a dot leaves is the old one, with the coincidence bit refreshed, the mode set, or both. */
  lemma LineEventsStatIsOneOf(scanline: nat, dot: nat, stat: LCDSTAT, ly: bv8, lyc: bv8)
    requires scanline < Lines
    ensures var s, c := LineEvents(scanline, dot, stat, ly, lyc).stat, stat.SetCoincidence(ly == lyc);
      s == stat || s == c || s == stat.SetMode(OAMSearch) || s == stat.SetMode(LCDTransfer)
      || s == c.SetMode(OAMSearch) || s == c.SetMode(VBlank)
  {
  }

  /** LY after the events of a dot. */
  function NextLy(e: Events, ly: bv8): bv8
  {
    match e.ly
    case Some(v) => v
    case None => ly
  }

  /** The LY a line shows after its first dot: its number, except that line 153 shows 0 from its fifth dot on. */
  function ExpectedLy(scanline: nat, dot: nat): bv8
    requires scanline < Lines
  {
    if scanline < 153 then scanline as bv8 else if dot <= 4 then 153 else 0
  }

  /**
   * LY follows the line counter whatever it held before: the first dot of a line sets
   * it, and every later dot of the line keeps the value the line should show.
   */
  lemma {:induction false} LyFollowsScanline(scanline: nat, dot: nat, stat: LCDSTAT, ly: bv8, lyc: bv8)
    requires scanline < Lines && dot + 1 < DotsPerLine
    requires dot > 0 ==> ly == ExpectedLy(scanline, dot)
    ensures NextLy(LineEvents(scanline, dot, stat, ly, lyc), ly) == ExpectedLy(scanline, dot + 1)
  {
    var e := LineEvents(scanline, dot, stat, ly, lyc);
    if dot == 0 {
      assert e.ly == Some(scanline as bv8);
    } else if scanline == 153 && dot == 4 {
      assert e.ly == Some(0);
    } else {
      assert e.ly == None;
    }
  }

  /** `request_interrupt` when `request` holds. */
  function Raise(flags: bv8, r: InterruptFlag.InterruptRequest, request: bool): (f: bv8)
    ensures !request ==> f == flags
    ensures request ==> InterruptFlag.Interrupts(f).IsEnable(r)
  {
    if request then InterruptFlag.Interrupts(flags).EnableRequest(r).bits else flags
  }

  /** The PPU writes only STAT, LY and IF on the bus. */
  twostate predicate OnlyStatusWritten(mmu: Mmu.MMU)
    reads mmu
  {
    mmu.lcdc == old(mmu.lcdc) && mmu.scy == old(mmu.scy) && mmu.scx == old(mmu.scx)
      && mmu.lyc == old(mmu.lyc) && mmu.bgp == old(mmu.bgp) && mmu.obp0 == old(mmu.obp0) && mmu.obp1 == old(mmu.obp1)
      && mmu.wy == old(mmu.wy) && mmu.wx == old(mmu.wx) && mmu.bootMode == old(mmu.bootMode)
      && mmu.interruptEnables == old(mmu.interruptEnables)
      && mmu.serialTransferData == old(mmu.serialTransferData)
      && mmu.serialTransferControl == old(mmu.serialTransferControl)
  }

  /**
   * What a dot that did not panic wrote to LY, STAT and IF. With the display switched on
   * before it: the LY of the line timing's events, their STAT (in HBlank once LCD
   * transfer ends the line), VBlank when they request it, and STAT on a rising edge of
   * the STAT line. Switching the display off: LY 0 and HBlank, IF kept. With the display
   * staying off: nothing.
   */
  twostate predicate StatusWritten(ppu: PPU, mmu: Mmu.MMU, lineDone: bool)
    reads ppu, mmu
    requires old(ppu.Valid())
  {
    if old(Lcdc.LCDC(mmu.lcdc).IsDisplayEnable()) then
      var e := LineEvents(old(ppu.scanline), old(ppu.scanlineCycle), old(ppu.StartStat(mmu)), old(mmu.ly), old(mmu.lyc));
      mmu.ly == NextLy(e, old(mmu.ly))
      && mmu.lcdstat == (if lineDone then e.stat.SetMode(HBlank) else e.stat).bits
      && ppu.statInterruptLine == (e.line || (lineDone && e.stat.HBlankInterrupt()))
      && mmu.interruptFlags == Raise(Raise(old(mmu.interruptFlags), InterruptFlag.VBlank, e.vblank),
                                     InterruptFlag.LCDStat, !old(ppu.statInterruptLine) && ppu.statInterruptLine)
    else if old(ppu.enable) then
      mmu.ly == 0 && mmu.lcdstat == LCDSTAT(old(mmu.lcdstat)).SetMode(HBlank).bits
      && mmu.interruptFlags == old(mmu.interruptFlags)
    else
      mmu.ly == old(mmu.ly) && mmu.lcdstat == old(mmu.lcdstat) && mmu.interruptFlags == old(mmu.interruptFlags)
  }

  /** Every pixel of a frame buffer is 0. */
  ghost predicate Blank(a: array2<bv8>)
    reads a
  {
    forall i, j | 0 <= i < a.Length0 && 0 <= j < a.Length1 :: a[i, j] == 0
  }

  /** The loops that zero a frame buffer when the display is switched off. */
  method ClearLcd(a: array2<bv8>)
    modifies a
    ensures Blank(a)
  {
    for i := 0 to a.Length0
      invariant forall i', j | 0 <= i' < i && 0 <= j < a.Length1 :: a[i', j] == 0
    {
      for j := 0 to a.Length1
        invariant forall i', j' | 0 <= i' < i && 0 <= j' < a.Length1 :: a[i', j'] == 0
        invariant forall j' | 0 <= j' < j :: a[i, j'] == 0
      {
        a[i, j] := 0;
      }
    }
  }

  class PPU {
    const oamSearch: OamSearch.OAMSearch
    const lcdTransfer: LcdTransfer.LCDTransfer
    const lcd0: array2<bv8>
    const lcd1: array2<bv8>
    var enable: bool
    var scanline: nat
    var initEnable: bool
    var spriteBuffer: seq<Sprite.Sprite>
    var scanlineCycle: nat
    var currentBuffer: nat
    var statInterruptLine: bool

    /**
     * The sub-units are consistent, both frame buffers are 160x144 and distinct, the
     * counters stay inside a frame, and the sprite buffer holds at most ten sprites.
     */
    ghost predicate Valid()
      reads this, oamSearch, lcdTransfer, lcdTransfer.fifo, lcdTransfer.fetcher, lcdTransfer.fetcher.sprites
    {
      oamSearch.Valid() && lcdTransfer.Valid()
      && lcd0.Length0 == LcdTransfer.Width && lcd0.Length1 == LcdTransfer.Height
      && lcd1.Length0 == LcdTransfer.Width && lcd1.Length1 == LcdTransfer.Height && lcd0 != lcd1
      && scanline < Lines && scanlineCycle < DotsPerLine && currentBuffer < 2
      && |spriteBuffer| <= OamSearch.BufferCapacity
    }

    constructor ()
      ensures Valid() && fresh(lcd0) && fresh(lcd1) && fresh(oamSearch) && fresh(lcdTransfer)
      ensures fresh(lcdTransfer.fifo) && fresh(lcdTransfer.fetcher) && fresh(lcdTransfer.fetcher.sprites)
      ensures !enable && !initEnable && scanline == 0 && scanlineCycle == 0 && currentBuffer == 0
      ensures spriteBuffer == [] && !statInterruptLine && Blank(lcd0) && Blank(lcd1)
    {
      oamSearch := new OamSearch.OAMSearch();
      lcdTransfer := new LcdTransfer.LCDTransfer();
      lcd0 := new bv8[LcdTransfer.Width, LcdTransfer.Height]((_, _) => 0);
      lcd1 := new bv8[LcdTransfer.Width, LcdTransfer.Height]((_, _) => 0);
      enable := false;
      scanline := 0;
      initEnable := false;
      spriteBuffer := [];
      scanlineCycle := 0;
      currentBuffer := 0;
      statInterruptLine := false;
    }

    /** The PPU's own objects: itself, its units and its frame buffers. */
    ghost function Repr(): set<object>
    {
      {this, oamSearch, lcdTransfer, lcdTransfer.fifo, lcdTransfer.fetcher, lcdTransfer.fetcher.sprites, lcd0, lcd1}
    }

    /** The dot of the frame the next call handles. */
    function Position(): nat
      reads this
    {
      scanline * DotsPerLine + scanlineCycle
    }

    /** The frame buffer being drawn. */
    function Drawing(): array2<bv8>
      reads this
    {
      if currentBuffer == 0 then lcd0 else lcd1
    }

    /** The frame buffer being shown. */
    function Shown(): array2<bv8>
      reads this
    {
      if currentBuffer == 0 then lcd1 else lcd0
    }

    /** The STAT value the line timing starts from: switching the display on enters OAM search. */
    function StartStat(mmu: Mmu.MMU): LCDSTAT
      reads this, mmu
    {
      if !enable && Lcdc.LCDC(mmu.lcdc).IsDisplayEnable() then LCDSTAT(mmu.lcdstat).SetMode(OAMSearch)
      else LCDSTAT(mmu.lcdstat)
    }

    /**
     * `lcd`: a copy of the frame buffer that is not being drawn, so it always holds the
     * last complete frame.
     */
    function Lcd(): (frame: seq<seq<bv8>>)
      reads this, lcd0, lcd1
      requires lcd0.Length0 == LcdTransfer.Width && lcd0.Length1 == LcdTransfer.Height
      requires lcd1.Length0 == LcdTransfer.Width && lcd1.Length1 == LcdTransfer.Height
      requires lcd0 != lcd1 && currentBuffer < 2
      ensures |frame| == LcdTransfer.Width
      ensures forall i | 0 <= i < LcdTransfer.Width :: |frame[i]| == LcdTransfer.Height
      ensures forall i, j | 0 <= i < LcdTransfer.Width && 0 <= j < LcdTransfer.Height :: frame[i][j] == Shown()[i, j]
      ensures Shown() != Drawing()
    {
      var a := if currentBuffer == 0 then lcd1 else lcd0;
      seq(LcdTransfer.Width, i requires 0 <= i < LcdTransfer.Width reads a =>
        seq(LcdTransfer.Height, j requires 0 <= j < LcdTransfer.Height reads a => a[i, j]))
    }

    /**
     * `cycle`: one dot. Switching the display off clears both frame buffers and puts
     * the PPU in HBlank at line 0; while it stays off nothing happens. Otherwise the
     * line timing's events are applied, the mode's unit runs, STAT is written back, the
     * STAT interrupt is requested on a rising edge of the STAT line, and the dot counter
     * moves on, swapping the frame buffers after the last dot of a frame. A unit that
     * would panic ends the call with `panicked`.
     */
    method Cycle(mmu: Mmu.MMU)
      returns (panicked: bool, ghost events: Events, ghost lineDone: bool, ghost action: Option<LcdTransfer.Action>)
      requires Valid() && mmu.vram.Length == 0x2000 && mmu.oam.Length == 0xA0
      modifies this, oamSearch, lcdTransfer, lcdTransfer.fifo, lcdTransfer.fetcher, lcdTransfer.fetcher.sprites
      modifies lcd0, lcd1, mmu
      ensures Valid() && OnlyStatusWritten(mmu)
      ensures old(enable) && !old(Lcdc.LCDC(mmu.lcdc).IsDisplayEnable()) ==>
        !panicked && !enable && scanline == 0 && scanlineCycle == 0 && spriteBuffer == []
        && mmu.ly == 0 && mmu.lcdstat == LCDSTAT(old(mmu.lcdstat)).SetMode(HBlank).bits
        && mmu.interruptFlags == old(mmu.interruptFlags) && Blank(lcd0) && Blank(lcd1)
      ensures !old(enable) && !old(Lcdc.LCDC(mmu.lcdc).IsDisplayEnable()) ==>
        !panicked && unchanged(this) && unchanged(mmu) && unchanged(lcd0) && unchanged(lcd1)
      ensures old(Lcdc.LCDC(mmu.lcdc).IsDisplayEnable()) && !panicked ==>
        enable
        && events == LineEvents(old(scanline), old(scanlineCycle), old(StartStat(mmu)), old(mmu.ly), old(mmu.lyc))
        && mmu.ly == NextLy(events, old(mmu.ly))
        && (lineDone ==> events.stat.Mode() == LCDTransfer && spriteBuffer == [])
        && mmu.lcdstat == (if lineDone then events.stat.SetMode(HBlank) else events.stat).bits
        && statInterruptLine == (events.line || (lineDone && events.stat.HBlankInterrupt()))
        && mmu.interruptFlags == Raise(Raise(old(mmu.interruptFlags), InterruptFlag.VBlank, events.vblank),
                                       InterruptFlag.LCDStat, !old(statInterruptLine) && statInterruptLine)
        && Position() == (old(Position()) + 1) % FrameDots
        && currentBuffer == (if old(Position()) == FrameDots - 1 then 1 - old(currentBuffer) else old(currentBuffer))
        && (events.stat.Mode() != OAMSearch && events.stat.Mode() != LCDTransfer ==> spriteBuffer == old(spriteBuffer))
      ensures old(Lcdc.LCDC(mmu.lcdc).IsDisplayEnable()) ==> unchanged(old(Shown()))
      ensures panicked ==>
        old(Lcdc.LCDC(mmu.lcdc).IsDisplayEnable()) && (events.stat.Mode() == OAMSearch || events.stat.Mode() == LCDTransfer)
      ensures panicked ==> Fails(events.stat.Mode(), mmu) && mmu.ly == NextLy(events, old(mmu.ly))
      ensures action.Some? <==> old(Lcdc.LCDC(mmu.lcdc).IsDisplayEnable()) && events.stat.Mode() == LCDTransfer && !panicked
      ensures action.Some? ==>
        LcdTransfer.Painted(old(Drawing()), old(LcdTransfer.Pixels(Drawing())), action.value, old(lcdTransfer.x), mmu.ly as int,
                            LcdTransfer.HeadShade(old(lcdTransfer.fifo.pixels), mmu.bgp, mmu.obp0, mmu.obp1))
        && spriteBuffer == if lineDone then [] else LcdTransfer.Remaining(old(spriteBuffer), action.value)
      ensures old(Lcdc.LCDC(mmu.lcdc).IsDisplayEnable()) && events.stat.Mode() != LCDTransfer ==> unchanged(old(Drawing()))
      ensures !panicked ==> StatusWritten(this, mmu, lineDone)
      ensures old(Lcdc.LCDC(mmu.lcdc).IsDisplayEnable()) && events.stat.Mode() == OAMSearch && !panicked ==>
        spriteBuffer == if old(oamSearch.cycleAvailable) == 0 then old(spriteBuffer)
          else OamSearch.Scan(mmu.oam[..], mmu.ly, Lcdc.LCDC(mmu.lcdc).SpriteHeight(), old(spriteBuffer),
                              old(oamSearch.currentEntry), old(oamSearch.currentEntry) + 1)
    {
      events, lineDone, action := Events(LCDSTAT(0), false, None, false), false, None;
      var lcdc := Lcdc.LCDC(mmu.lcdc);
      var stat := LCDSTAT(mmu.lcdstat);
      if enable && !lcdc.IsDisplayEnable() {
        TurnOff(mmu, stat);
        return false, events, lineDone, action;
      } else if !enable && lcdc.IsDisplayEnable() {
        enable := true;
        initEnable := true;
        stat := stat.SetMode(OAMSearch);
      }
      if !enable { return false, events, lineDone, action; }
      panicked, events, lineDone, action := Run(mmu, stat);
    }

    /** `cycle` as the driver sees it: the dot counter moves on with the display on, and a panic leaves a unit stuck. */
    method Dot(mmu: Mmu.MMU) returns (panicked: bool, ghost lineDone: bool)
      requires Valid() && mmu.Valid() && Repr() !! mmu.Repr
      modifies this, oamSearch, lcdTransfer, lcdTransfer.fifo, lcdTransfer.fetcher, lcdTransfer.fetcher.sprites
      modifies lcd0, lcd1, mmu
      ensures Valid() && mmu.Valid() && OnlyStatusWritten(mmu)
      ensures unchanged(mmu.apu.Repr)
      ensures !panicked && Lcdc.LCDC(mmu.lcdc).IsDisplayEnable() ==> Position() == (old(Position()) + 1) % FrameDots
      ensures !Lcdc.LCDC(mmu.lcdc).IsDisplayEnable() ==> !panicked
      ensures panicked ==> Stuck(mmu)
      ensures !panicked ==> StatusWritten(this, mmu, lineDone)
    {
      ghost var events, action;
      panicked, events, lineDone, action := Cycle(mmu);
      assert unchanged(mmu.Repr - {mmu});
      Mmu.MMU.OwnRegistersWritten(mmu);
    }

    /** The display-on part of `cycle`, from the line timing to the dot counter. */
    method Run(mmu: Mmu.MMU, stat: LCDSTAT)
      returns (panicked: bool, ghost events: Events, ghost lineDone: bool, ghost action: Option<LcdTransfer.Action>)
      requires Valid() && mmu.vram.Length == 0x2000 && mmu.oam.Length == 0xA0
      modifies this, oamSearch, lcdTransfer, lcdTransfer.fifo, lcdTransfer.fetcher, lcdTransfer.fetcher.sprites
      modifies Drawing(), mmu
      ensures Valid() && OnlyStatusWritten(mmu) && enable == old(enable) && unchanged(old(Shown()))
      ensures events == LineEvents(old(scanline), old(scanlineCycle), stat, old(mmu.ly), old(mmu.lyc))
      ensures !panicked ==>
        mmu.ly == NextLy(events, old(mmu.ly))
        && (lineDone ==> events.stat.Mode() == LCDTransfer && spriteBuffer == [])
        && mmu.lcdstat == (if lineDone then events.stat.SetMode(HBlank) else events.stat).bits
        && statInterruptLine == (events.line || (lineDone && events.stat.HBlankInterrupt()))
        && mmu.interruptFlags == Raise(Raise(old(mmu.interruptFlags), InterruptFlag.VBlank, events.vblank),
                                       InterruptFlag.LCDStat, !old(statInterruptLine) && statInterruptLine)
        && Position() == (old(Position()) + 1) % FrameDots
        && currentBuffer == (if old(Position()) == FrameDots - 1 then 1 - old(currentBuffer) else old(currentBuffer))
        && (events.stat.Mode() != OAMSearch && events.stat.Mode() != LCDTransfer ==> spriteBuffer == old(spriteBuffer))
      ensures panicked ==> events.stat.Mode() == OAMSearch || events.stat.Mode() == LCDTransfer
      ensures panicked ==> Fails(events.stat.Mode(), mmu) && Stuck(mmu) && mmu.ly == NextLy(events, old(mmu.ly))
      ensures action.Some? <==> events.stat.Mode() == LCDTransfer && !panicked
      ensures action.Some? ==>
        LcdTransfer.Painted(old(Drawing()), old(LcdTransfer.Pixels(Drawing())), action.value, old(lcdTransfer.x), mmu.ly as int,
                            LcdTransfer.HeadShade(old(lcdTransfer.fifo.pixels), mmu.bgp, mmu.obp0, mmu.obp1))
        && spriteBuffer == if lineDone then [] else LcdTransfer.Remaining(old(spriteBuffer), action.value)
      ensures events.stat.Mode() != LCDTransfer ==> unchanged(old(Drawing()))
      ensures events.stat.Mode() == OAMSearch && !panicked ==>
        spriteBuffer == if old(oamSearch.cycleAvailable) == 0 then old(spriteBuffer)
          else OamSearch.Scan(mmu.oam[..], mmu.ly, Lcdc.LCDC(mmu.lcdc).SpriteHeight(), old(spriteBuffer),
                              old(oamSearch.currentEntry), old(oamSearch.currentEntry) + 1)
    {
      var e := LineEvents(scanline, scanlineCycle, stat, mmu.ly, mmu.lyc);
      events := e;
      ApplyEvents(mmu, e);
      panicked, lineDone, action := Advance(mmu, e);
    }

    /** The rest of a display-on dot once the line timing's events are applied: the mode's unit, then STAT and the dot counter. */
    method Advance(mmu: Mmu.MMU, e: Events)
      returns (panicked: bool, ghost lineDone: bool, ghost action: Option<LcdTransfer.Action>)
      requires Valid() && mmu.vram.Length == 0x2000 && mmu.oam.Length == 0xA0
      modifies this, oamSearch, lcdTransfer, lcdTransfer.fifo, lcdTransfer.fetcher, lcdTransfer.fetcher.sprites
      modifies Drawing(), mmu
      ensures Valid() && OnlyStatusWritten(mmu) && enable == old(enable) && unchanged(old(Shown()))
      ensures !panicked ==>
        mmu.ly == old(mmu.ly)
        && (lineDone ==> e.stat.Mode() == LCDTransfer && spriteBuffer == [])
        && mmu.lcdstat == (if lineDone then e.stat.SetMode(HBlank) else e.stat).bits
        && statInterruptLine == (e.line || (lineDone && e.stat.HBlankInterrupt()))
        && mmu.interruptFlags == Raise(old(mmu.interruptFlags), InterruptFlag.LCDStat, !old(statInterruptLine) && statInterruptLine)
        && Position() == (old(Position()) + 1) % FrameDots
        && currentBuffer == (if old(Position()) == FrameDots - 1 then 1 - old(currentBuffer) else old(currentBuffer))
        && (e.stat.Mode() != OAMSearch && e.stat.Mode() != LCDTransfer ==> spriteBuffer == old(spriteBuffer))
      ensures panicked ==> e.stat.Mode() == OAMSearch || e.stat.Mode() == LCDTransfer
      ensures panicked ==> Fails(e.stat.Mode(), mmu) && Stuck(mmu) && mmu.ly == old(mmu.ly)
      ensures action.Some? <==> e.stat.Mode() == LCDTransfer && !panicked
      ensures action.Some? ==>
        LcdTransfer.Painted(old(Drawing()), old(LcdTransfer.Pixels(Drawing())), action.value, old(lcdTransfer.x), mmu.ly as int,
                            LcdTransfer.HeadShade(old(lcdTransfer.fifo.pixels), mmu.bgp, mmu.obp0, mmu.obp1))
        && spriteBuffer == if lineDone then [] else LcdTransfer.Remaining(old(spriteBuffer), action.value)
      ensures e.stat.Mode() != LCDTransfer ==> unchanged(old(Drawing()))
      ensures e.stat.Mode() == OAMSearch && !panicked ==>
        spriteBuffer == if old(oamSearch.cycleAvailable) == 0 then old(spriteBuffer)
          else OamSearch.Scan(mmu.oam[..], mmu.ly, Lcdc.LCDC(mmu.lcdc).SpriteHeight(), old(spriteBuffer),
                              old(oamSearch.currentEntry), old(oamSearch.currentEntry) + 1)
    {
      var newStat := e.stat;
      var newStatInterrupt := e.line;
      var done;
      panicked, done, action := RunMode(mmu, newStat);
      lineDone := done;
      if panicked { return; }
      if done {
        newStat := newStat.SetMode(HBlank);
        newStatInterrupt := newStatInterrupt || newStat.HBlankInterrupt();
      }
      Finish(mmu, newStat, newStatInterrupt);
    }

    /** Writes STAT back, requests the STAT interrupt on a rising edge of its line, and counts the dot. */
    method Finish(mmu: Mmu.MMU, stat: LCDSTAT, line: bool)
      requires Valid()
      modifies this, mmu
      ensures Valid()
      ensures enable == old(enable) && spriteBuffer == old(spriteBuffer) && statInterruptLine == line
      ensures mmu.lcdstat == stat.bits && mmu.ly == old(mmu.ly) && OnlyStatusWritten(mmu)
      ensures mmu.interruptFlags == Raise(old(mmu.interruptFlags), InterruptFlag.LCDStat, !old(statInterruptLine) && line)
      ensures Position() == (old(Position()) + 1) % FrameDots
      ensures currentBuffer == if old(Position()) == FrameDots - 1 then 1 - old(currentBuffer) else old(currentBuffer)
    {
      mmu.SetLcdstat(stat.bits);
      if !statInterruptLine && line { mmu.RequestInterrupt(InterruptFlag.LCDStat); }
      statInterruptLine := line;
      Tick();
    }

    /** The display-off branch of `cycle`. */
    method TurnOff(mmu: Mmu.MMU, stat: LCDSTAT)
      requires Valid() && stat.bits == mmu.lcdstat
      modifies this, lcd0, lcd1, mmu
      ensures Valid() && !enable && scanline == 0 && scanlineCycle == 0 && spriteBuffer == []
      ensures currentBuffer == old(currentBuffer) && statInterruptLine == old(statInterruptLine)
      ensures mmu.ly == 0 && mmu.lcdstat == stat.SetMode(HBlank).bits
      ensures OnlyStatusWritten(mmu) && mmu.interruptFlags == old(mmu.interruptFlags)
      ensures Blank(lcd0) && Blank(lcd1)
    {
      scanlineCycle := 0;
      scanline := 0;
      mmu.SetLy(0);
      enable := false;
      ClearLcd(lcd0);
      ClearLcd(lcd1);
      spriteBuffer := [];
      mmu.SetLcdstat(stat.SetMode(HBlank).bits);
    }

    /** Writes the events' LY and requests VBlank when they say so. */
    method ApplyEvents(mmu: Mmu.MMU, e: Events)
      modifies mmu
      ensures mmu.ly == NextLy(e, old(mmu.ly))
      ensures mmu.interruptFlags == Raise(old(mmu.interruptFlags), InterruptFlag.VBlank, e.vblank)
      ensures mmu.lcdstat == old(mmu.lcdstat) && OnlyStatusWritten(mmu)
    {
      if e.ly.Some? { mmu.SetLy(e.ly.value); }
      if e.vblank { mmu.RequestInterrupt(InterruptFlag.VBlank); }
    }

    /** The unit of `mode` would panic on its next dot; only OAM search and LCD transfer can. */
    ghost predicate Fails(mode: Mode, mmu: Mmu.MMU)
      reads this, oamSearch, lcdTransfer, lcdTransfer.fifo, lcdTransfer.fetcher, lcdTransfer.fetcher.sprites
      reads mmu, mmu.oam
    {
      match mode
      case OAMSearch => oamSearch.Valid() && mmu.oam.Length == 0xA0 && !oamSearch.CanCycle(mmu)
      case LCDTransfer => !lcdTransfer.CanCycle(mmu, spriteBuffer)
      case HBlank => false
      case VBlank => false
    }

    /** One of the units that can panic, OAM search or LCD transfer, would panic on its next dot. */
    ghost predicate Stuck(mmu: Mmu.MMU)
      reads this, oamSearch, lcdTransfer, lcdTransfer.fifo, lcdTransfer.fetcher, lcdTransfer.fetcher.sprites
      reads mmu, mmu.oam
    {
      Fails(OAMSearch, mmu) || Fails(LCDTransfer, mmu)
    }

    /**
     * The mode's unit: OAM search fills the sprite buffer; LCD transfer draws, and a
     * finished line empties the sprite buffer. A unit that would panic is not run.
     */
    method RunMode(mmu: Mmu.MMU, stat: LCDSTAT) returns (panicked: bool, lineDone: bool, ghost action: Option<LcdTransfer.Action>)
      requires Valid() && mmu.vram.Length == 0x2000 && mmu.oam.Length == 0xA0
      modifies this, oamSearch, lcdTransfer, lcdTransfer.fifo, lcdTransfer.fetcher, lcdTransfer.fetcher.sprites
      modifies Drawing()
      ensures Valid()
      ensures action.Some? <==> stat.Mode() == LCDTransfer && !panicked
      ensures action.Some? ==>
        action.value == old(lcdTransfer.NextAction(mmu, spriteBuffer))
        && LcdTransfer.Painted(Drawing(), old(LcdTransfer.Pixels(Drawing())), action.value, old(lcdTransfer.x), mmu.ly as int,
                               LcdTransfer.HeadShade(old(lcdTransfer.fifo.pixels), mmu.bgp, mmu.obp0, mmu.obp1))
        && spriteBuffer == if lineDone then [] else LcdTransfer.Remaining(old(spriteBuffer), action.value)
      ensures stat.Mode() != LCDTransfer ==> unchanged(Drawing())
      ensures enable == old(enable) && scanline == old(scanline) && scanlineCycle == old(scanlineCycle)
      ensures currentBuffer == old(currentBuffer) && statInterruptLine == old(statInterruptLine)
      ensures lineDone ==> stat.Mode() == LCDTransfer && spriteBuffer == []
      ensures panicked <==> old(Fails(stat.Mode(), mmu))
      ensures panicked ==> Fails(stat.Mode(), mmu)
      ensures panicked ==> stat.Mode() == OAMSearch || stat.Mode() == LCDTransfer
      ensures stat.Mode() != OAMSearch && stat.Mode() != LCDTransfer ==>
        !panicked && !lineDone && spriteBuffer == old(spriteBuffer)
      ensures stat.Mode() == OAMSearch && !panicked ==>
        spriteBuffer == if old(oamSearch.cycleAvailable) == 0 then old(spriteBuffer)
          else OamSearch.Scan(mmu.oam[..], mmu.ly, Lcdc.LCDC(mmu.lcdc).SpriteHeight(), old(spriteBuffer),
                              old(oamSearch.currentEntry), old(oamSearch.currentEntry) + 1)
    {
      panicked, lineDone, action := false, false, None;
      match stat.Mode()
      case OAMSearch =>
        if !oamSearch.CanCycle(mmu) { return true, false, None; }
        var _, buffered := oamSearch.Cycle(mmu, spriteBuffer);
        spriteBuffer := buffered;
      case LCDTransfer =>
        if !lcdTransfer.CanCycle(mmu, spriteBuffer) { return true, false, None; }
        ghost var taken;
        lineDone, taken := Transfer(mmu);
        action := Some(taken);
      case HBlank =>
      case VBlank =>
    }

    /** LCD transfer's dot: it draws, takes sprites from the buffer, and a finished line empties the buffer. */
    method Transfer(mmu: Mmu.MMU) returns (lineDone: bool, ghost action: LcdTransfer.Action)
      requires Valid() && mmu.vram.Length == 0x2000 && lcdTransfer.CanCycle(mmu, spriteBuffer)
      modifies this, lcdTransfer, lcdTransfer.fifo, lcdTransfer.fetcher, lcdTransfer.fetcher.sprites, Drawing()
      ensures Valid()
      ensures enable == old(enable) && scanline == old(scanline) && scanlineCycle == old(scanlineCycle)
      ensures currentBuffer == old(currentBuffer) && statInterruptLine == old(statInterruptLine)
      ensures unchanged(oamSearch)
      ensures action == old(lcdTransfer.NextAction(mmu, spriteBuffer))
      ensures LcdTransfer.Painted(Drawing(), old(LcdTransfer.Pixels(Drawing())), action, old(lcdTransfer.x), mmu.ly as int,
                                  LcdTransfer.HeadShade(old(lcdTransfer.fifo.pixels), mmu.bgp, mmu.obp0, mmu.obp1))
      ensures spriteBuffer == if lineDone then [] else LcdTransfer.Remaining(old(spriteBuffer), action)
    {
      action := lcdTransfer.NextAction(mmu, spriteBuffer);
      var done, buffered := lcdTransfer.Cycle(mmu, spriteBuffer, Drawing());
      spriteBuffer := buffered;
      lineDone := false;
      if done {
        spriteBuffer := [];
        lineDone := true;
      }
    }

    /** The dot counter: 456 dots a line, 154 lines a frame, the frame buffers swapping after the last dot. */
    method Tick()
      requires scanline < Lines && scanlineCycle < DotsPerLine && currentBuffer < 2
      modifies this
      ensures scanline < Lines && scanlineCycle < DotsPerLine && currentBuffer < 2
      ensures Position() == (old(Position()) + 1) % FrameDots
      ensures currentBuffer == if old(Position()) == FrameDots - 1 then 1 - old(currentBuffer) else old(currentBuffer)
      ensures enable == old(enable) && spriteBuffer == old(spriteBuffer) && statInterruptLine == old(statInterruptLine)
    {
      scanlineCycle := scanlineCycle + 1;
      if scanlineCycle >= DotsPerLine {
        scanlineCycle := 0;
        scanline := scanline + 1;
        if scanline >= Lines {
          currentBuffer := (currentBuffer + 1) % 2;
          scanline := 0;
        }
      }
    }
  }
}
