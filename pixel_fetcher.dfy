/**
 * The background/window fetcher: in stages of two dots it reads a tile index from the
 * tile map, then the tile row's low and high plane bytes, then pushes the decoded row
 * into the pixel FIFO (waiting while the FIFO holds more than a row). While a sprite
 * fetch is in progress every step goes to the sprite fetcher instead.
 */
module PixelFetcher {
  import opened PixelType
  import opened PixelFifo
  import opened VideoMemory
  import opened Lcdc
  import SpritePixelFetcher
  import Sprite
  import Mmu

  datatype Step =
    | WaitFifo(row: seq<Pixel>)
    | FetchTileDataIndex
    | FetchTileDataLow(index: bv8)
    | FetchTileDataHi(addressLow: int, low: bv8)
    | PushToFifo(low: bv8, hi: bv8)

  /** The first byte of a tile map. */
  function MapBase(area: TileMapArea): (b: int)
    ensures b == 0x9800 || b == 0x9C00
  {
    if area == U9800 then 0x9800 else 0x9C00
  }

  /** The map address jimbot computes with `TileMapArea::address`. */
  lemma MapAddressAgrees(area: TileMapArea, offset: bv16)
    requires offset < 0x400
    ensures area.Address(offset) as int == MapBase(area) + offset as int
  {
    if area == U9800 {
      assert area.Address(offset) == 0x9800 + offset;
    } else {
      assert area.Address(offset) == 0x9C00 + offset;
    }
  }

  /**
   * The first byte of tile `index` under the LCDC addressing mode: upward from 0x8000,
   * or (signed mode) indices 0-127 from 0x9000 and 128-255 from 0x8800.
   */
  function TileDataAddress(area: TileDataArea, index: bv8): (a: int)
    ensures 0x8000 <= a <= 0x97F0 && a % 16 == 0
    ensures area == U8000 ==> a == 0x8000 + 16 * index as int
    ensures area == I8800 ==> a == if index < 0x80 then 0x9000 + 16 * index as int else 0x8000 + 16 * index as int
  {
    if area == U8000 || index >= 0x80 then 0x8000 + 16 * index as int else 0x9000 + 16 * index as int
  }

  /** The tile address jimbot computes with `TileDataArea::address`. */
  lemma TileDataAddressAgrees(area: TileDataArea, index: bv8)
    ensures area.Address(index as bv16) as int == TileDataAddress(area, index)
  {
    var a := area.Address(index as bv16);
    if area == I8800 {
      assert a == 0x9000 + Bits.SignExtend(index) * 16;
    }
  }

  /**
   * The tile map offset of the fetcher's next tile: the column is the counter (plus the
   * coarse X scroll, wrapping at 32, for the background), the row is the window line
   * counter or the scrolled line, each over 8; the sum wraps at 1024 entries.
   */
  function MapOffset(window: bool, x: nat, windowLine: nat, ly: bv8, scx: bv8, scy: bv8): (offset: int)
    ensures 0 <= offset < 0x400
  {
    var xOffset := if window then x else (x + scx as int / 8) % 32;
    var yOffset := if window then 32 * (windowLine / 8) else 32 * (((ly as int + scy as int) % 0x100) / 8);
    (xOffset + yOffset) % 0x400
  }

  /** For the background the wrap at 1024 never applies: the offset is row * 32 + column. */
  lemma {:induction false} BackgroundOffset(x: nat, windowLine: nat, ly: bv8, scx: bv8, scy: bv8)
    ensures MapOffset(false, x, windowLine, ly, scx, scy)
      == 32 * (((ly as int + scy as int) % 0x100) / 8) + (x + scx as int / 8) % 32
  {
    var row := ((ly as int + scy as int) % 0x100) / 8;
    assert row <= 31;
  }

  /** For the window, a counter below 32 gives row * 32 + column, the row wrapping at 32. */
  lemma {:induction false} WindowOffset(x: nat, windowLine: nat, ly: bv8, scx: bv8, scy: bv8)
    requires x < 32
    ensures MapOffset(true, x, windowLine, ly, scx, scy) == 32 * ((windowLine / 8) % 32) + x
  {
    var row := windowLine / 8;
    var q, r := row / 32, row % 32;
    assert x + 32 * row == 0x400 * q + (32 * r + x);
    WrapDropsWholeMaps(q, 32 * r + x);
  }

  /** Whole multiples of 1024 entries vanish under the wrap. */
  lemma WrapDropsWholeMaps(q: int, b: int)
    requires 0 <= b < 0x400
    ensures (0x400 * q + b) % 0x400 == b
  {
  }

  /** The row pushed for a tile: decoded, or eight colour-0 pixels of the same kind while LCDC bit 0 is clear. */
  function TileRow(low: bv8, hi: bv8, window: bool, bgWindowOn: bool): (row: seq<Pixel>)
    ensures |row| == 8
    ensures forall i | 0 <= i < 8 :: (row[i].Window? <==> window) && (row[i].Background? <==> !window)
    ensures !bgWindowOn ==> forall i | 0 <= i < 8 :: row[i].value == 0
    ensures bgWindowOn ==> forall i | 0 <= i < 8 :: row[i].value == ColorIndex(low, hi, i)
  {
    if bgWindowOn then
      if window then FromWindowTileData(low, hi) else FromBgTileData(low, hi)
    else
      if window then seq(8, _ => Window(0)) else seq(8, _ => Background(0))
  }

  /** What a dot can change in the fetcher: its stage, banked dots and tile counter, and the sprite fetcher's stage and banked dot. */
  datatype FetcherState = FetcherState(
    step: Step, cycleAvailable: nat, xPositionCounter: nat,
    spriteStep: SpritePixelFetcher.Step, spriteCycles: nat)

  class PixelFetcher {
    const sprites: SpritePixelFetcher.SpritePixelFetcher
    var cycleAvailable: nat
    var step: Step
    var isWindowMode: bool
    var xPositionCounter: nat
    var windowLineCounter: nat

    /**
     * At most one dot is banked and none while waiting on the FIFO; a held row has
     * eight pixels of two-bit colour indices; a fetched row address lies in tile data; the counters are `u8`.
     */
    ghost predicate Valid()
      reads this, sprites
    {
      sprites.Valid() && cycleAvailable <= 1
      && (step.WaitFifo? ==> cycleAvailable == 0 && |step.row| == 8 && forall i | 0 <= i < 8 :: step.row[i].value <= 3)
      && (step.FetchTileDataHi? ==> 0x8000 <= step.addressLow <= 0x97FE)
      && xPositionCounter <= 0xFF && windowLineCounter <= 0xFF
    }

    constructor ()
      ensures Valid() && fresh(sprites)
      ensures step == FetchTileDataIndex && cycleAvailable == 0 && !isWindowMode
      ensures xPositionCounter == 0 && windowLineCounter == 0
      ensures sprites.step.Idle?
    {
      sprites := new SpritePixelFetcher.SpritePixelFetcher();
      cycleAvailable := 0;
      step := FetchTileDataIndex;
      isWindowMode := false;
      xPositionCounter := 0;
      windowLineCounter := 0;
    }

    /** `fetching_sprite`: the sprite fetcher has a fetch in progress. */
    predicate FetchingSprite()
      reads this, sprites
    {
      sprites.NeedStep()
    }

    /** The tile map address of the next tile index, from LCDC, LY and the scroll registers. */
    function MapAddress(mmu: Mmu.MMU): (a: int)
      reads this, mmu
      ensures 0x9800 <= a <= 0x9FFF
    {
      var lcdc := LCDC(mmu.lcdc);
      var area := if isWindowMode then lcdc.WindowTilemapArea() else lcdc.BgTilemapArea();
      MapBase(area) + MapOffset(isWindowMode, xPositionCounter, windowLineCounter, mmu.ly, mmu.scx, mmu.scy)
    }

    /** The address of the low plane byte of tile `index`'s row on the current (window) line. */
    function RowAddress(index: bv8, mmu: Mmu.MMU): (a: int)
      reads this, mmu
      ensures 0x8000 <= a <= 0x97FE
    {
      var rowOffset := if isWindowMode then 2 * (windowLineCounter % 8) else 2 * ((mmu.ly as int + mmu.scy as int) % 8);
      TileDataAddress(LCDC(mmu.lcdc).BgWindowTiledataArea(), index) + rowOffset
    }

    /** The next `step` does not panic: the sprite fetcher's step, or an `x_position_counter` that can grow. */
    predicate CanStep(mmu: Mmu.MMU, fifo: PixelFifo)
      reads this, sprites, mmu, fifo
    {
      CanStepAt(mmu, |fifo.pixels|)
    }

    /** `CanStep` with `queued` pixels in the FIFO. */
    predicate CanStepAt(mmu: Mmu.MMU, queued: nat)
      reads this, sprites, mmu
    {
      if sprites.NeedStep() then sprites.CanStepAt(mmu, queued)
      else
        ((step.PushToFifo? && cycleAvailable == 1) || step.WaitFifo?) && queued <= 8 ==> xPositionCounter < 0xFF
    }

    /** The fetcher's state as `FetcherState` sees it. */
    function State(): (st: FetcherState)
      reads this, sprites
      ensures st.step == step && st.cycleAvailable == cycleAvailable && st.xPositionCounter == xPositionCounter
      ensures st.spriteStep == sprites.step && st.spriteCycles == sprites.cycleAvailable
    {
      FetcherState(step, cycleAvailable, xPositionCounter, sprites.step, sprites.cycleAvailable)
    }

    /**
     * The state and FIFO contents one `step` leaves from FIFO contents `pixels`: the
     * sprite fetcher's step while it fetches; otherwise a dot is banked, a stage with two
     * dots runs, and a held row goes to the front once at most eight pixels are queued.
     */
    ghost function AfterStep(mmu: Mmu.MMU, pixels: seq<Pixel>): (FetcherState, seq<Pixel>)
      reads this, sprites, mmu, mmu.vram
      requires Valid() && mmu.vram.Length == 0x2000 && CanStepAt(mmu, |pixels|)
    {
      if sprites.NeedStep() then
        var (spriteStep, spriteCycles, mixed) := sprites.AfterStep(mmu, pixels);
        (FetcherState(step, cycleAvailable, xPositionCounter, spriteStep, spriteCycles), mixed)
      else
        var kept := State();
        if step.WaitFifo? then
          if |pixels| <= 8 then (kept.(step := FetchTileDataIndex, xPositionCounter := xPositionCounter + 1), step.row + pixels)
          else (kept, pixels)
        else if cycleAvailable == 0 then (kept.(cycleAvailable := 1), pixels)
        else match step
          case FetchTileDataIndex =>
            (kept.(step := FetchTileDataLow(VideoByte(mmu, MapAddress(mmu))), cycleAvailable := 0), pixels)
          case FetchTileDataLow(index) =>
            var a := RowAddress(index, mmu);
            (kept.(step := FetchTileDataHi(a, VideoByte(mmu, a)), cycleAvailable := 0), pixels)
          case FetchTileDataHi(a, low) =>
            (kept.(step := PushToFifo(low, VideoByte(mmu, a + 1)), cycleAvailable := 0), pixels)
          case PushToFifo(low, hi) =>
            var row := TileRow(low, hi, isWindowMode, LCDC(mmu.lcdc).IsBgWindowEnable());
            if |pixels| <= 8 then
              (kept.(step := FetchTileDataIndex, cycleAvailable := 0, xPositionCounter := xPositionCounter + 1), pixels + row)
            else (kept.(step := WaitFifo(row), cycleAvailable := 0), pixels)
    }

    /** `fetch_sprite`: hands the sprite to the sprite fetcher. */
    method FetchSprite(s: Sprite.Sprite, mmu: Mmu.MMU, fifo: PixelFifo)
      requires Valid() && fifo.Valid() && mmu.vram.Length == 0x2000
      requires sprites.cycleAvailable == 1 ==> SpritePixelFetcher.SpritePixelFetcher.LowCanRun(s, mmu)
      modifies sprites
      ensures Valid() && FetchingSprite()
      ensures sprites.StepsLeft() == 5 - old(sprites.cycleAvailable)
      ensures old(sprites.cycleAvailable) == 0 ==> sprites.step == SpritePixelFetcher.FetchTileDataLow(s)
    {
      sprites.Fetch(s, mmu, fifo);
    }

    /**
     * `fetch_window`: restarts the fetcher on the window, with the counter at 0, and
     * takes a step. Starting the window during a sprite fetch is a panic.
     */
    method FetchWindow(mmu: Mmu.MMU, fifo: PixelFifo)
      requires Valid() && fifo.Valid() && mmu.vram.Length == 0x2000 && !FetchingSprite()
      modifies this, fifo
      ensures Valid() && fifo.Valid() && fifo.pixels == old(fifo.pixels)
      ensures isWindowMode && xPositionCounter == 0 && windowLineCounter == old(windowLineCounter)
      ensures sprites.step == old(sprites.step)
      ensures old(cycleAvailable) == 0 ==> step == FetchTileDataIndex && cycleAvailable == 1
      ensures old(cycleAvailable) == 1 ==>
        cycleAvailable == 0 && step == FetchTileDataLow(VideoByte(mmu, MapAddress(mmu)))
    {
      xPositionCounter := 0;
      isWindowMode := true;
      step := FetchTileDataIndex;
      cycleAvailable := cycleAvailable + 1;
      FetchTileDataIndexStage(mmu);
    }

    /**
     * `step`: a sprite fetch in progress takes the step; otherwise a dot is banked and
     * the current stage runs.
     */
    method Step(mmu: Mmu.MMU, fifo: PixelFifo)
      requires Valid() && fifo.Valid() && mmu.vram.Length == 0x2000 && CanStep(mmu, fifo)
      modifies this, sprites, fifo
      ensures Valid() && fifo.Valid() && (old(fifo.Shaded()) ==> fifo.Shaded())
      ensures isWindowMode == old(isWindowMode) && windowLineCounter == old(windowLineCounter)
      ensures old(FetchingSprite()) ==>
        step == old(step) && cycleAvailable == old(cycleAvailable) && xPositionCounter == old(xPositionCounter)
        && sprites.StepsLeft() == old(sprites.StepsLeft()) - 1 && |fifo.pixels| == |old(fifo.pixels)|
        && (!old(sprites.step).PushToFifo? ==> fifo.pixels == old(fifo.pixels))
      ensures !old(FetchingSprite()) ==> sprites.step == old(sprites.step) && sprites.cycleAvailable == old(sprites.cycleAvailable)
      ensures !old(FetchingSprite()) && !old(step).WaitFifo? && !(old(step).PushToFifo? && old(cycleAvailable) == 1) ==>
        xPositionCounter == old(xPositionCounter)
      ensures !old(FetchingSprite()) && old(cycleAvailable) == 1 ==> cycleAvailable == 0
      ensures !old(FetchingSprite()) && !old(step).WaitFifo? && old(cycleAvailable) == 0 ==>
        step == old(step) && cycleAvailable == 1 && fifo.pixels == old(fifo.pixels)
      ensures !old(FetchingSprite()) && old(step).FetchTileDataIndex? && old(cycleAvailable) == 1 ==>
        step == FetchTileDataLow(VideoByte(mmu, old(MapAddress(mmu)))) && fifo.pixels == old(fifo.pixels)
      ensures !old(FetchingSprite()) && old(step).FetchTileDataLow? && old(cycleAvailable) == 1 ==>
        step == FetchTileDataHi(old(RowAddress(step.index, mmu)), VideoByte(mmu, old(RowAddress(step.index, mmu))))
        && fifo.pixels == old(fifo.pixels)
      ensures !old(FetchingSprite()) && old(step).FetchTileDataHi? && old(cycleAvailable) == 1 ==>
        step == PushToFifo(old(step).low, VideoByte(mmu, old(step).addressLow + 1)) && fifo.pixels == old(fifo.pixels)
      ensures !old(FetchingSprite()) && old(step).PushToFifo? && old(cycleAvailable) == 1 ==>
        var row := TileRow(old(step).low, old(step).hi, isWindowMode, LCDC(mmu.lcdc).IsBgWindowEnable());
        if old(fifo.CanPush()) then
          fifo.pixels == old(fifo.pixels) + row && xPositionCounter == old(xPositionCounter) + 1 && step == FetchTileDataIndex
        else
          fifo.pixels == old(fifo.pixels) && xPositionCounter == old(xPositionCounter) && step == WaitFifo(row)
      ensures !old(FetchingSprite()) && old(step).WaitFifo? ==>
        cycleAvailable == 0 &&
        if old(fifo.CanPush()) then
          fifo.pixels == old(step).row + old(fifo.pixels) && xPositionCounter == old(xPositionCounter) + 1
          && step == FetchTileDataIndex
        else
          fifo.pixels == old(fifo.pixels) && xPositionCounter == old(xPositionCounter) && step == old(step)
      ensures (State(), fifo.pixels) == old(AfterStep(mmu, fifo.pixels))
    {
      if sprites.NeedStep() {
        sprites.Step(mmu, fifo);
        return;
      }
      BackgroundStep(mmu, fifo);
    }

    /** The background half of `step`: a dot is banked and the current stage runs. */
    method BackgroundStep(mmu: Mmu.MMU, fifo: PixelFifo)
      requires Valid() && fifo.Valid() && mmu.vram.Length == 0x2000 && CanStep(mmu, fifo) && !FetchingSprite()
      modifies this, fifo
      ensures Valid() && fifo.Valid() && (old(fifo.Shaded()) ==> fifo.Shaded())
      ensures isWindowMode == old(isWindowMode) && windowLineCounter == old(windowLineCounter)
      ensures !old(step).WaitFifo? && !(old(step).PushToFifo? && old(cycleAvailable) == 1) ==> xPositionCounter == old(xPositionCounter)
      ensures old(cycleAvailable) == 1 ==> cycleAvailable == 0
      ensures !old(step).WaitFifo? && old(cycleAvailable) == 0 ==>
        step == old(step) && cycleAvailable == 1 && fifo.pixels == old(fifo.pixels)
      ensures old(step).FetchTileDataIndex? && old(cycleAvailable) == 1 ==>
        step == FetchTileDataLow(VideoByte(mmu, old(MapAddress(mmu)))) && fifo.pixels == old(fifo.pixels)
      ensures old(step).FetchTileDataLow? && old(cycleAvailable) == 1 ==>
        step == FetchTileDataHi(old(RowAddress(step.index, mmu)), VideoByte(mmu, old(RowAddress(step.index, mmu))))
        && fifo.pixels == old(fifo.pixels)
      ensures old(step).FetchTileDataHi? && old(cycleAvailable) == 1 ==>
        step == PushToFifo(old(step).low, VideoByte(mmu, old(step).addressLow + 1)) && fifo.pixels == old(fifo.pixels)
      ensures old(step).PushToFifo? && old(cycleAvailable) == 1 ==>
        var row := TileRow(old(step).low, old(step).hi, isWindowMode, LCDC(mmu.lcdc).IsBgWindowEnable());
        if old(fifo.CanPush()) then
          fifo.pixels == old(fifo.pixels) + row && xPositionCounter == old(xPositionCounter) + 1 && step == FetchTileDataIndex
        else
          fifo.pixels == old(fifo.pixels) && xPositionCounter == old(xPositionCounter) && step == WaitFifo(row)
      ensures old(step).WaitFifo? ==>
        cycleAvailable == 0 &&
        if old(fifo.CanPush()) then
          fifo.pixels == old(step).row + old(fifo.pixels) && xPositionCounter == old(xPositionCounter) + 1
          && step == FetchTileDataIndex
        else
          fifo.pixels == old(fifo.pixels) && xPositionCounter == old(xPositionCounter) && step == old(step)
    {
      cycleAvailable := cycleAvailable + 1;
      match step
      case FetchTileDataIndex => FetchTileDataIndexStage(mmu);
      case FetchTileDataLow(index) => FetchTileDataLowStage(index, mmu);
      case FetchTileDataHi(addressLow, low) => FetchTileDataHiStage(addressLow, low, mmu);
      case PushToFifo(low, hi) => PushToFifoStage(low, hi, mmu, fifo);
      case WaitFifo(row) => WaitFifoStage(row, fifo);
    }

    /** `fetch_tile_data_index`: with two dots banked, reads the tile index from the map. */
    method FetchTileDataIndexStage(mmu: Mmu.MMU)
      requires 1 <= cycleAvailable <= 2 && step == FetchTileDataIndex && mmu.vram.Length == 0x2000
      modifies this
      ensures cycleAvailable == old(cycleAvailable) % 2
      ensures old(cycleAvailable) == 1 ==> step == old(step)
      ensures old(cycleAvailable) == 2 ==> step == FetchTileDataLow(VideoByte(mmu, MapAddress(mmu)))
      ensures isWindowMode == old(isWindowMode) && xPositionCounter == old(xPositionCounter)
      ensures windowLineCounter == old(windowLineCounter)
    {
      if cycleAvailable < 2 { return; }
      cycleAvailable := cycleAvailable - 2;
      var index := VideoByte(mmu, MapAddress(mmu));
      step := FetchTileDataLow(index);
    }

    /** `fetch_tile_data_low`: with two dots banked, reads the low plane byte of the tile's row. */
    method FetchTileDataLowStage(index: bv8, mmu: Mmu.MMU)
      requires 1 <= cycleAvailable <= 2 && step == FetchTileDataLow(index) && mmu.vram.Length == 0x2000
      modifies this
      ensures cycleAvailable == old(cycleAvailable) % 2
      ensures old(cycleAvailable) == 1 ==> step == old(step)
      ensures old(cycleAvailable) == 2 ==>
        step == FetchTileDataHi(RowAddress(index, mmu), VideoByte(mmu, RowAddress(index, mmu)))
      ensures isWindowMode == old(isWindowMode) && xPositionCounter == old(xPositionCounter)
      ensures windowLineCounter == old(windowLineCounter)
    {
      if cycleAvailable < 2 { return; }
      cycleAvailable := cycleAvailable - 2;
      var addressLow := RowAddress(index, mmu);
      var low := VideoByte(mmu, addressLow);
      step := FetchTileDataHi(addressLow, low);
    }

    /** `fetch_tile_data_hi`: with two dots banked, reads the high plane byte that follows. */
    method FetchTileDataHiStage(addressLow: int, low: bv8, mmu: Mmu.MMU)
      requires 1 <= cycleAvailable <= 2 && step == FetchTileDataHi(addressLow, low) && mmu.vram.Length == 0x2000
      requires 0x8000 <= addressLow <= 0x97FE
      modifies this
      ensures cycleAvailable == old(cycleAvailable) % 2
      ensures old(cycleAvailable) == 1 ==> step == old(step)
      ensures old(cycleAvailable) == 2 ==> step == PushToFifo(low, VideoByte(mmu, addressLow + 1))
      ensures isWindowMode == old(isWindowMode) && xPositionCounter == old(xPositionCounter)
      ensures windowLineCounter == old(windowLineCounter)
    {
      if cycleAvailable < 2 { return; }
      cycleAvailable := cycleAvailable - 2;
      var hi := VideoByte(mmu, addressLow + 1);
      step := PushToFifo(low, hi);
    }

    /**
     * `push_to_fifo`: with two dots banked, pushes the row if the FIFO has room (and
     * moves to the next tile), or holds it until the FIFO does.
     */
    method PushToFifoStage(low: bv8, hi: bv8, mmu: Mmu.MMU, fifo: PixelFifo)
      requires 1 <= cycleAvailable <= 2 && step == PushToFifo(low, hi) && fifo.Valid()
      requires cycleAvailable == 2 && fifo.CanPush() ==> xPositionCounter < 0xFF
      modifies this, fifo
      ensures fifo.Valid()
      ensures cycleAvailable == old(cycleAvailable) % 2
      ensures isWindowMode == old(isWindowMode) && windowLineCounter == old(windowLineCounter)
      ensures old(cycleAvailable) == 1 ==>
        step == old(step) && fifo.pixels == old(fifo.pixels) && xPositionCounter == old(xPositionCounter)
      ensures old(cycleAvailable) == 2 ==>
        var row := TileRow(low, hi, isWindowMode, LCDC(mmu.lcdc).IsBgWindowEnable());
        if old(fifo.CanPush()) then
          fifo.pixels == old(fifo.pixels) + row && xPositionCounter == old(xPositionCounter) + 1 && step == FetchTileDataIndex
        else
          fifo.pixels == old(fifo.pixels) && xPositionCounter == old(xPositionCounter) && step == WaitFifo(row)
    {
      if cycleAvailable < 2 { return; }
      cycleAvailable := cycleAvailable - 2;
      var row := TileRow(low, hi, isWindowMode, LCDC(mmu.lcdc).IsBgWindowEnable());
      if fifo.CanPush() {
        fifo.PushRow(row);
        xPositionCounter := xPositionCounter + 1;
        step := FetchTileDataIndex;
      } else {
        step := WaitFifo(row);
      }
    }

    /** `wait_fifo`: gives back the banked dot and pushes the held row at the front once the FIFO has room. */
    method WaitFifoStage(row: seq<Pixel>, fifo: PixelFifo)
      requires cycleAvailable == 1 && step == WaitFifo(row) && |row| == 8 && fifo.Valid()
      requires fifo.CanPush() ==> xPositionCounter < 0xFF
      modifies this, fifo
      ensures fifo.Valid() && cycleAvailable == 0
      ensures isWindowMode == old(isWindowMode) && windowLineCounter == old(windowLineCounter)
      ensures old(fifo.CanPush()) ==>
        fifo.pixels == row + old(fifo.pixels) && xPositionCounter == old(xPositionCounter) + 1
        && step == FetchTileDataIndex
      ensures !old(fifo.CanPush()) ==>
        fifo.pixels == old(fifo.pixels) && xPositionCounter == old(xPositionCounter) && step == old(step)
    {
      cycleAvailable := cycleAvailable - 1;
      if fifo.CanPush() {
        fifo.PushRowFront(row);
        xPositionCounter := xPositionCounter + 1;
        step := FetchTileDataIndex;
      }
    }

    /**
     * `reset`: back to fetching a tile index at column 0, outside the window; a line
     * drawn in window mode advances the window line counter, and the last visible line
     * sets it back to 0. The counter's increment must not overflow.
     */
    method Reset(isVblank: bool)
      requires Valid() && (isWindowMode ==> windowLineCounter < 0xFF)
      modifies this
      ensures Valid()
      ensures step == FetchTileDataIndex && cycleAvailable == 0 && !isWindowMode && xPositionCounter == 0
      ensures windowLineCounter == if isVblank then 0 else if old(isWindowMode) then old(windowLineCounter) + 1 else old(windowLineCounter)
    {
      step := FetchTileDataIndex;
      cycleAvailable := 0;
      if isWindowMode { windowLineCounter := windowLineCounter + 1; }
      isWindowMode := false;
      xPositionCounter := 0;
      if isVblank { windowLineCounter := 0; }
    }

    /** `is_window_mode`. */
    function IsWindowMode(): bool
      reads this
    {
      isWindowMode
    }
  }
}
