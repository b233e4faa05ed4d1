/**
 * The sprite fetcher: once the LCD reaches a buffered sprite it reads the sprite's
 * tile row (low plane, then high plane, two dots each), and after two more dots mixes
 * the decoded row over the first eight pixels of the pixel FIFO.
 */
module SpritePixelFetcher {
  import opened Sprite
  import opened PixelType
  import opened PixelFifo
  import opened VideoMemory
  import Lcdc
  import Mmu
  import OamSearch

  datatype Step =
    | Idle
    | FetchTileDataLow(sprite: Sprite)
    | FetchTileDataHi(sprite: Sprite, addressLow: int, low: bv8)
    | PushToFifo(sprite: Sprite, low: bv8, hi: bv8)

  /** The stages left before the fetcher is idle again. */
  function StagesLeft(s: Step): (n: nat)
    ensures n <= 3 && (n == 0 <==> s.Idle?)
  {
    match s
    case Idle => 0
    case FetchTileDataLow(_) => 3
    case FetchTileDataHi(_, _, _) => 2
    case PushToFifo(_, _, _) => 1
  }

  /**
   * The byte offset of the sprite row drawn on line `ly` inside its tile data, as
   * `fetch_tile_data_low` computes it: two bytes per row, row `ly - y` counted modulo the
   * sprite height, or counted from the bottom when the sprite is flipped vertically. The
   * flipped case subtracts without wrapping, so it needs `ly >= y`.
   */
  function RowOffsetAsWritten(ly: bv8, s: Sprite, height: nat): (offset: nat)
    requires height == 8 || height == 16
    requires s.flags.IsYFlipped() ==> ly >= s.y
    ensures offset % 2 == 0 && offset <= 2 * (height - 1)
  {
    if s.flags.IsYFlipped() then 2 * ((height - 1) - ((ly - s.y) as int % height))
    else 2 * (((ly as int - s.y as int) % 0x100) % height)
  }

  /**
   * Every sprite on line `ly` has `y > ly` (OAM Y is the screen line plus 16), so the
   * flipped case above underflows for every sprite it is asked to draw.
   */
  lemma FlippedRowUnderflows(ly: bv8, s: Sprite, height: nat)
    requires height == 8 || height == 16
    requires OamSearch.OnLine(ly, s, height)
    ensures !(ly >= s.y)
  {
  }

  /**
   * The row offset with the subtraction wrapping in both cases, as the unflipped case
   * already does; it is the one the fetcher uses.
   */
  function RowOffset(ly: bv8, s: Sprite, height: nat): (offset: nat)
    requires height == 8 || height == 16
    ensures offset % 2 == 0 && offset <= 2 * (height - 1)
    ensures !s.flags.IsYFlipped() ==> offset == RowOffsetAsWritten(ly, s, height)
  {
    var row := ((ly as int - s.y as int) % 0x100) % height;
    2 * (if s.flags.IsYFlipped() then (height - 1) - row else row)
  }

  /**
   * For a sprite on line `ly`, the offset picks the sprite's row `ly + 16 - y`, or the
   * same row counted from the bottom when the sprite is flipped vertically.
   */
  lemma {:induction false} RowOffsetSelectsLine(ly: bv8, s: Sprite, height: nat)
    requires height == 8 || height == 16
    requires OamSearch.OnLine(ly, s, height)
    ensures var line := ly as int + 16 - s.y as int;
      RowOffset(ly, s, height) == 2 * (if s.flags.IsYFlipped() then height - 1 - line else line)
  {
    WrappedRow(ly as int - s.y as int, height);
  }

  /** A difference of -16 to -1, wrapped to a byte and taken modulo the height, is the row it stands for. */
  lemma WrappedRow(d: int, height: nat)
    requires height == 8 || height == 16
    requires -16 <= d < height - 16
    ensures (d % 0x100) % height == d + 16
  {
    assert d % 0x100 == d + 0x100;
  }

  /** The first byte of the sprite's tile; 8x16 sprites ignore bit 0 of the index. */
  function TileAddress(s: Sprite, height: nat): (a: int)
    ensures 0x8000 <= a <= 0x8FF0 && a % 16 == 0
    ensures height != 8 ==> (a - 0x8000) % 32 == 0
  {
    if height == 8 then 0x8000 + s.tiledataIndex as int * 16
    else 0x8000 + (s.tiledataIndex & 0xFE) as int * 16
  }

  /**
   * A plane byte of a sprite cut by the left edge (x < 8): shifted so that only its
   * visible columns remain, toward the side that is drawn first. A shift by eight
   * (x = 0) would be a panic.
   */
  function Clipped(b: bv8, s: Sprite): (c: bv8)
    requires s.x < 8 ==> s.x != 0
    ensures s.x >= 8 ==> c == b
  {
    if s.x < 8 then
      if s.flags.IsXFlipped() then b >> (8 - s.x as int) else b << (8 - s.x as int)
    else b
  }

  /** The row of sprite pixels to mix: decoded (or all 0 while sprites are off), reversed when X-flipped. */
  function SpriteRow(low: bv8, hi: bv8, s: Sprite, spritesOn: bool): (row: seq<Pixel>)
    ensures |row| == 8
    ensures forall i | 0 <= i < 8 :: row[i].Sprite? && row[i].palette1 == s.flags.Palette1() && row[i].value <= 3
    ensures !spritesOn ==> forall i | 0 <= i < 8 :: row[i].value == 0
    ensures spritesOn && !s.flags.IsXFlipped() ==> row == FromSpriteTileData(low, hi, s.flags.Palette1())
    ensures spritesOn && s.flags.IsXFlipped() ==>
      forall i | 0 <= i < 8 :: row[i] == FromSpriteTileData(low, hi, s.flags.Palette1())[7 - i]
  {
    var pixels := if spritesOn then FromSpriteTileData(low, hi, s.flags.Palette1())
      else seq(8, _ => Pixel.Sprite(0, s.flags.Palette1()));
    if s.flags.IsXFlipped() then seq(8, i requires 0 <= i < 8 => pixels[7 - i]) else pixels
  }

  /**
   * The reference rule for one FIFO pixel: a sprite pixel replaces it only when it is a
   * background or window pixel, the sprite pixel is not transparent, and the sprite
   * either has priority or the pixel underneath is colour 0.
   */
  predicate Replaces(under: Pixel, over: Pixel, bgPrior: bool)
  {
    !under.Sprite? && over.Sprite? && over.value > 0 && (!bgPrior || under.value == 0)
  }

  /** One pixel of the mix, as jimbot's match on the pair is written. */
  function MixPixel(under: Pixel, over: Pixel, bgPrior: bool): (r: Pixel)
    ensures r == if Replaces(under, over, bgPrior) then over else under
  {
    match (under, over)
    case (Background(b), Sprite(v, _)) =>
      if bgPrior then (if b == 0 && v > 0 then over else under) else (if v > 0 then over else under)
    case (Window(w), Sprite(v, _)) =>
      if bgPrior then (if w == 0 && v > 0 then over else under) else (if v > 0 then over else under)
    case _ => under
  }

  /** A FIFO after the sprite row is mixed over it: each of the first eight pixels mixed with the row's pixel in its column, the rest kept. */
  function MixedRow(pixels: seq<Pixel>, row: seq<Pixel>, bgPrior: bool): (m: seq<Pixel>)
    requires |pixels| >= 8 && |row| == 8
    ensures |m| == |pixels| && m[8..] == pixels[8..]
    ensures forall i | 0 <= i < 8 :: m[i] == MixPixel(pixels[i], row[i], bgPrior)
  {
    seq(8, i requires 0 <= i < 8 => MixPixel(pixels[i], row[i], bgPrior)) + pixels[8..]
  }

  /** Mixing never changes a pixel that is already a sprite's, so the sprite mixed first stays on top. */
  lemma {:induction false} EarlierSpriteWins(under: Pixel, over: Pixel, bgPrior: bool)
    requires under.Sprite?
    ensures MixPixel(under, over, bgPrior) == under
  {
    assert !Replaces(under, over, bgPrior);
  }

  /** The mix is the identity where the sprite is transparent, and with priority over colour 1-3 only. */
  lemma {:induction false} TransparentOrHidden(under: Pixel, over: Pixel, bgPrior: bool)
    requires over.Sprite?
    requires over.value == 0 || (bgPrior && under.value != 0)
    ensures MixPixel(under, over, bgPrior) == under
  {
    assert !Replaces(under, over, bgPrior);
  }

  class SpritePixelFetcher {
    var cycleAvailable: nat
    var step: Step

    /** At most one dot is banked, none while idle, and a fetched row address lies in tile data. */
    ghost predicate Valid()
      reads this
    {
      cycleAvailable <= 1 && (step.Idle? ==> cycleAvailable == 0)
      && (step.FetchTileDataHi? ==> 0x8000 <= step.addressLow <= 0x900E)
    }

    /** The `step` calls left until idle: two per stage left, less the banked dot. */
    function StepsLeft(): int
      reads this
    {
      2 * StagesLeft(step) - cycleAvailable
    }

    constructor ()
      ensures Valid() && step == Idle && cycleAvailable == 0
    {
      cycleAvailable := 0;
      step := Idle;
    }

    /** `need_step`: a fetch is in progress. */
    predicate NeedStep()
      reads this
    {
      !step.Idle?
    }

    /** The low-plane stage can run: no shift by eight. */
    static predicate LowCanRun(s: Sprite, mmu: Mmu.MMU)
      reads mmu
    {
      s.x < 8 ==> s.x != 0
    }

    /**
     * The next `step` does not panic: a fetch is in progress, and if the stage runs on
     * this dot, it does not underflow or over-shift and the FIFO holds a row to mix over.
     */
    predicate CanStep(mmu: Mmu.MMU, fifo: PixelFifo)
      reads this, mmu, fifo
    {
      CanStepAt(mmu, |fifo.pixels|)
    }

    /** `CanStep` with `queued` pixels in the FIFO. */
    predicate CanStepAt(mmu: Mmu.MMU, queued: nat)
      reads this, mmu
    {
      !step.Idle?
      && (cycleAvailable == 1 ==>
            (step.FetchTileDataLow? ==> LowCanRun(step.sprite, mmu))
            && (step.FetchTileDataHi? ==> (step.sprite.x < 8 ==> step.sprite.x != 0))
            && (step.PushToFifo? ==> queued >= 8))
    }

    /**
     * The stage, the banked dots and the FIFO after a `step` over a FIFO holding
     * `pixels`: a first dot is only banked; with one banked the stage runs, reading the
     * row's low byte, then its high byte, then mixing the row over the FIFO's first
     * eight pixels and going idle.
     */
    ghost function AfterStep(mmu: Mmu.MMU, pixels: seq<Pixel>): (Step, nat, seq<Pixel>)
      reads this, mmu, mmu.vram
      requires Valid() && mmu.vram.Length == 0x2000 && CanStepAt(mmu, |pixels|)
    {
      if cycleAvailable == 0 then (step, 1, pixels)
      else match step
        case FetchTileDataLow(s) =>
          var a := RowAddress(s, mmu);
          (FetchTileDataHi(s, a, Clipped(VideoByte(mmu, a), s)), 0, pixels)
        case FetchTileDataHi(s, a, low) => (PushToFifo(s, low, Clipped(VideoByte(mmu, a + 1), s)), 0, pixels)
        case PushToFifo(s, low, hi) =>
          (Idle, 0, MixedRow(pixels, SpriteRow(low, hi, s, Lcdc.LCDC(mmu.lcdc).IsSpriteEnable()), s.flags.BgPrior()))
    }

    /** The address of the low plane byte of `s`'s row on the current line. */
    static function RowAddress(s: Sprite, mmu: Mmu.MMU): (a: int)
      reads mmu
      requires LowCanRun(s, mmu)
      ensures 0x8000 <= a <= 0x900E
    {
      var height := Lcdc.LCDC(mmu.lcdc).SpriteHeight();
      TileAddress(s, height) + RowOffset(mmu.ly, s, height)
    }

    /** `fetch`: starts on `s` and takes its first step (a fetch overwrites any stage in progress). */
    method Fetch(s: Sprite, mmu: Mmu.MMU, fifo: PixelFifo)
      requires Valid() && fifo.Valid() && mmu.vram.Length == 0x2000
      requires cycleAvailable == 1 ==> LowCanRun(s, mmu)
      modifies this
      ensures Valid() && NeedStep()
      ensures StepsLeft() == 5 - old(cycleAvailable)
      ensures old(cycleAvailable) == 0 ==> step == FetchTileDataLow(s)
    {
      step := FetchTileDataLow(s);
      FetchTileDataLowStage(s, mmu);
    }

    /**
     * `step`: banks a dot and runs the current stage, which does its work only once two
     * dots are banked. Stepping while idle is a panic.
     */
    method Step(mmu: Mmu.MMU, fifo: PixelFifo)
      requires Valid() && fifo.Valid() && mmu.vram.Length == 0x2000 && CanStep(mmu, fifo)
      modifies this, fifo
      ensures Valid() && fifo.Valid()
      ensures StepsLeft() == old(StepsLeft()) - 1
      ensures old(fifo.Shaded()) ==> fifo.Shaded()
      ensures |fifo.pixels| == |old(fifo.pixels)|
      ensures !old(step).PushToFifo? ==> fifo.pixels == old(fifo.pixels)
      ensures old(step).FetchTileDataLow? && old(cycleAvailable) == 1 ==>
        step == FetchTileDataHi(old(step).sprite, RowAddress(old(step).sprite, mmu),
                                Clipped(VideoByte(mmu, RowAddress(old(step).sprite, mmu)), old(step).sprite))
      ensures old(step).FetchTileDataHi? && old(cycleAvailable) == 1 ==>
        step == PushToFifo(old(step).sprite, old(step).low,
                           Clipped(VideoByte(mmu, old(step).addressLow + 1), old(step).sprite))
      ensures old(step).PushToFifo? && old(cycleAvailable) == 1 ==>
        step == Idle
        && |fifo.pixels| == |old(fifo.pixels)| && fifo.pixels[8..] == old(fifo.pixels)[8..]
        && forall i | 0 <= i < 8 :: fifo.pixels[i]
             == MixPixel(old(fifo.pixels)[i], SpriteRow(old(step).low, old(step).hi, old(step).sprite,
                           Lcdc.LCDC(mmu.lcdc).IsSpriteEnable())[i], old(step).sprite.flags.BgPrior())
      ensures old(cycleAvailable) == 0 ==> step == old(step)
      ensures (step, cycleAvailable, fifo.pixels) == old(AfterStep(mmu, fifo.pixels))
    {
      if step.FetchTileDataLow? {
        FetchTileDataLowStage(step.sprite, mmu);
      } else if step.FetchTileDataHi? {
        FetchTileDataHiStage(step.sprite, step.addressLow, step.low, mmu);
      } else {
        PushToFifoStage(step.sprite, step.low, step.hi, mmu, fifo);
      }
    }

    /** `fetch_tile_data_low`: with two dots banked, reads the row's low plane byte. */
    method FetchTileDataLowStage(s: Sprite, mmu: Mmu.MMU)
      requires cycleAvailable <= 1 && step == FetchTileDataLow(s) && mmu.vram.Length == 0x2000
      requires cycleAvailable == 1 ==> LowCanRun(s, mmu)
      modifies this
      ensures Valid()
      ensures old(cycleAvailable) == 0 ==> cycleAvailable == 1 && step == old(step)
      ensures old(cycleAvailable) == 1 ==>
        cycleAvailable == 0 && step == FetchTileDataHi(s, RowAddress(s, mmu), Clipped(VideoByte(mmu, RowAddress(s, mmu)), s))
    {
      cycleAvailable := cycleAvailable + 1;
      if cycleAvailable < 2 { return; }
      cycleAvailable := cycleAvailable - 2;
      var addressLow := RowAddress(s, mmu);
      var low := Clipped(VideoByte(mmu, addressLow), s);
      step := FetchTileDataHi(s, addressLow, low);
    }

    /** `fetch_tile_data_hi`: with two dots banked, reads the high plane byte that follows. */
    method FetchTileDataHiStage(s: Sprite, addressLow: int, low: bv8, mmu: Mmu.MMU)
      requires cycleAvailable <= 1 && step == FetchTileDataHi(s, addressLow, low) && mmu.vram.Length == 0x2000
      requires cycleAvailable == 1 ==> (s.x < 8 ==> s.x != 0)
      requires 0x8000 <= addressLow <= 0x900E
      modifies this
      ensures Valid()
      ensures old(cycleAvailable) == 0 ==> cycleAvailable == 1 && step == old(step)
      ensures old(cycleAvailable) == 1 ==>
        cycleAvailable == 0 && step == PushToFifo(s, low, Clipped(VideoByte(mmu, addressLow + 1), s))
    {
      cycleAvailable := cycleAvailable + 1;
      if cycleAvailable < 2 { return; }
      cycleAvailable := cycleAvailable - 2;
      var hi := Clipped(VideoByte(mmu, addressLow + 1), s);
      step := PushToFifo(s, low, hi);
    }

    /**
     * `push_to_fifo`: with two dots banked, takes the FIFO's first eight pixels, mixes
     * the sprite row over them and puts them back in front; the fetcher goes idle.
     */
    method PushToFifoStage(s: Sprite, low: bv8, hi: bv8, mmu: Mmu.MMU, fifo: PixelFifo)
      requires cycleAvailable <= 1 && step == PushToFifo(s, low, hi) && fifo.Valid()
      requires cycleAvailable == 1 ==> fifo.CanPop()
      modifies this, fifo
      ensures Valid() && fifo.Valid()
      ensures old(cycleAvailable) == 0 ==> cycleAvailable == 1 && step == old(step) && fifo.pixels == old(fifo.pixels)
      ensures old(cycleAvailable) == 1 ==>
        cycleAvailable == 0 && step == Idle
        && |fifo.pixels| == |old(fifo.pixels)| && fifo.pixels[8..] == old(fifo.pixels)[8..]
        && forall i | 0 <= i < 8 :: fifo.pixels[i]
             == MixPixel(old(fifo.pixels)[i], SpriteRow(low, hi, s, Lcdc.LCDC(mmu.lcdc).IsSpriteEnable())[i], s.flags.BgPrior())
      ensures old(cycleAvailable) == 1 ==>
        fifo.pixels == MixedRow(old(fifo.pixels), SpriteRow(low, hi, s, Lcdc.LCDC(mmu.lcdc).IsSpriteEnable()), s.flags.BgPrior())
    {
      cycleAvailable := cycleAvailable + 1;
      if cycleAvailable < 2 { return; }
      cycleAvailable := cycleAvailable - 2;
      var spritePixels := SpriteRow(low, hi, s, Lcdc.LCDC(mmu.lcdc).IsSpriteEnable());
      var front := fifo.PopFront8();
      var mixed := Mix(front, spritePixels, s.flags.BgPrior());
      fifo.PushRowFront(mixed);
      step := Idle;
    }

    /** `reset`: changes nothing; a banked dot at a line's end is a panic. */
    method Reset(isVblank: bool)
      requires cycleAvailable == 0
      ensures step == old(step) && cycleAvailable == 0
    {
    }
  }

  /** The mixing loop: every pixel of the FIFO's front row against the sprite pixel in the same column. */
  method Mix(front: seq<Pixel>, spritePixels: seq<Pixel>, bgPrior: bool) returns (mixed: seq<Pixel>)
    requires |front| == 8 && |spritePixels| == 8
    ensures |mixed| == 8
    ensures forall i | 0 <= i < 8 :: mixed[i] == if Replaces(front[i], spritePixels[i], bgPrior) then spritePixels[i] else front[i]
  {
    mixed := front;
    for i := 0 to 8
      invariant |mixed| == 8
      invariant forall j | 0 <= j < i :: mixed[j] == MixPixel(front[j], spritePixels[j], bgPrior)
      invariant forall j | i <= j < 8 :: mixed[j] == front[j]
    {
      mixed := mixed[i := MixPixel(mixed[i], spritePixels[i], bgPrior)];
    }
  }
}
