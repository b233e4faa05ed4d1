/**
 * LCD transfer (mode 3): every dot the fetcher takes a step and, once the FIFO holds a
 * row, one pixel leaves it for the LCD. The first SCX % 8 pixels of a line are dropped,
 * the window restarts the fetcher once the line and column reach it, and a sprite whose
 * column is reached pauses the output while its row is mixed into the FIFO. The line
 * ends after 160 pixels.
 */
module LcdTransfer {
  import opened Wrappers
  import opened PixelType
  import opened PixelFifo
  import opened PixelFetcher
  import opened Sprite
  import Lcdc
  import Bgp
  import Mmu
  import SpritePixelFetcher

  /** The LCD is 160 pixels wide and 144 lines high. */
  const Width: nat := 160
  const Height: nat := 144

  /** What a `cycle` does after latching the line's start. */
  datatype Action =
    | Advance          // only the fetcher steps
    | OpenWindow       // the FIFO is cleared and the fetcher restarts on the window
    | Drop             // a scrolled-off pixel is popped and dropped, and the fetcher steps
    | TakeSprite(index: nat)  // the sprite buffer's entry `index` goes to the sprite fetcher
    | Draw             // a pixel goes to the LCD, and the fetcher steps

  /** A sprite is reached once its X (the screen column plus 8) is at most the column plus 8. */
  predicate Reached(s: Sprite, x: nat)
  {
    s.x as int <= x + 8
  }

  /** The first sprite in the buffer that the column has reached. */
  function FirstReached(buffer: seq<Sprite>, x: nat): (r: Option<nat>)
    ensures r.Some? ==>
      r.value < |buffer| && Reached(buffer[r.value], x) && forall j | 0 <= j < r.value :: !Reached(buffer[j], x)
    ensures r.None? ==> forall j | 0 <= j < |buffer| :: !Reached(buffer[j], x)
  {
    if |buffer| == 0 then None
    else if Reached(buffer[0], x) then Some(0)
    else
      match FirstReached(buffer[1..], x)
      case None => None
      case Some(i) => Some(i + 1)
  }

  /** The shade a pixel gets on the LCD: BGP for background and window, OBP0 or OBP1 for sprites. */
  function Shade(p: Pixel, mmu: Mmu.MMU): (c: bv8)
    reads mmu
    requires p.value <= 3
    ensures c <= 3
    ensures p.Sprite? && p.value == 0 ==> c == 0
  {
    ShadeWith(p, mmu.bgp, mmu.obp0, mmu.obp1)
  }

  /** `Shade` under the palettes BGP, OBP0 and OBP1. */
  function ShadeWith(p: Pixel, bgp: bv8, obp0: bv8, obp1: bv8): bv8
    requires p.value <= 3
  {
    match p
    case Background(v) => Bgp.BgpColor(bgp, v)
    case Window(v) => Bgp.BgpColor(bgp, v)
    case Sprite(v, palette1) => if palette1 then Bgp.ObpColor(obp1, v) else Bgp.ObpColor(obp0, v)
  }

  /** The shade the pixel heading a FIFO gets on the LCD under the given palettes (0 for an empty FIFO). */
  function HeadShade(pixels: seq<Pixel>, bgp: bv8, obp0: bv8, obp1: bv8): bv8
  {
    if |pixels| > 0 && pixels[0].value <= 3 then ShadeWith(pixels[0], bgp, obp0, obp1) else 0
  }

  /** The pixels of an LCD, column by column. */
  ghost function Pixels(lcd: array2<bv8>): (p: seq<seq<bv8>>)
    reads lcd
    ensures |p| == lcd.Length0 && forall i | 0 <= i < lcd.Length0 :: |p[i]| == lcd.Length1
    ensures forall i, j | 0 <= i < lcd.Length0 && 0 <= j < lcd.Length1 :: p[i][j] == lcd[i, j]
  {
    seq(lcd.Length0, i requires 0 <= i < lcd.Length0 reads lcd =>
      seq(lcd.Length1, j requires 0 <= j < lcd.Length1 reads lcd => lcd[i, j]))
  }

  /**
   * A call's effect on an LCD that held `before`, given the action it took: a drawn
   * pixel lands at (`column`, `row`) in `shade`, and no other pixel changes.
   */
  ghost predicate Painted(lcd: array2<bv8>, before: seq<seq<bv8>>, action: Action, column: int, row: int, shade: bv8)
    reads lcd
  {
    |before| == lcd.Length0 && (forall i | 0 <= i < lcd.Length0 :: |before[i]| == lcd.Length1)
    && (action.Draw? ==> 0 <= column < lcd.Length0 && 0 <= row < lcd.Length1 && lcd[column, row] == shade)
    && forall i, j | 0 <= i < lcd.Length0 && 0 <= j < lcd.Length1 && !(action.Draw? && i == column && j == row) ::
         lcd[i, j] == before[i][j]
  }

  /** The sprite buffer after an action: a taken sprite leaves it, and any other action keeps it. */
  function Remaining(buffer: seq<Sprite>, a: Action): seq<Sprite>
  {
    if a.TakeSprite? && a.index < |buffer| then buffer[..a.index] + buffer[a.index + 1..] else buffer
  }

  class LCDTransfer {
    const fifo: PixelFifo
    const fetcher: PixelFetcher
    var isInitialScanline: bool
    var x: nat
    var pixelToDiscard: nat
    var windowLine: bool

    /**
     * The FIFO and fetcher are consistent, every queued pixel is a colour index, the
     * column is on screen, and while a sprite is fetched the FIFO holds the row it mixes over.
     */
    ghost predicate Valid()
      reads this, fifo, fetcher, fetcher.sprites
    {
      Consistent() && x < Width
    }

    /** `Valid` without the bound on the column, which holds again once a finished line is reset. */
    ghost predicate Consistent()
      reads this, fifo, fetcher, fetcher.sprites
    {
      fifo.Valid() && fifo.Shaded() && fetcher.Valid() && pixelToDiscard < 8
      && (fetcher.FetchingSprite() ==> fifo.CanPop())
    }

    constructor ()
      ensures Valid() && fresh(fifo) && fresh(fetcher) && fresh(fetcher.sprites)
      ensures isInitialScanline && x == 0 && pixelToDiscard == 0 && !windowLine
      ensures fifo.pixels == [] && !fetcher.FetchingSprite()
    {
      fifo := new PixelFifo();
      fetcher := new PixelFetcher();
      isInitialScanline := true;
      x := 0;
      pixelToDiscard := 0;
      windowLine := false;
    }

    /** The pixels still to drop once the line's start is latched (SCX % 8 at the start). */
    function Discard(mmu: Mmu.MMU): (n: nat)
      reads this, mmu
    {
      if isInitialScanline then mmu.scx as int % 8 else pixelToDiscard
    }

    /** LY has met WY on this line, once the line's start is latched. */
    predicate WindowLineSeen(mmu: Mmu.MMU)
      reads this, mmu
    {
      windowLine || (isInitialScanline && mmu.ly == mmu.wy)
    }

    /** The window test reaches its `wx - 7`: no pixel left to drop, not yet in the window, window on and reached by LY. */
    predicate WindowCandidate(mmu: Mmu.MMU)
      reads this, fetcher, fetcher.sprites, mmu
    {
      !fetcher.FetchingSprite() && Discard(mmu) == 0 && !fetcher.isWindowMode
      && Lcdc.LCDC(mmu.lcdc).IsWindowEnable() && WindowLineSeen(mmu)
    }

    /** What this `cycle` does, decided on the state before it. */
    function NextAction(mmu: Mmu.MMU, buffer: seq<Sprite>): (a: Action)
      reads this, fifo, fetcher, fetcher.sprites, mmu
      ensures (a.Drop? || a.Draw? || a.TakeSprite?) ==> fifo.CanPop() && !fetcher.FetchingSprite()
      ensures a.Drop? ==> Discard(mmu) > 0
      ensures a.TakeSprite? ==> FirstReached(buffer, x) == Some(a.index)
      ensures a.Draw? ==> Discard(mmu) == 0 && FirstReached(buffer, x).None?
    {
      if fetcher.FetchingSprite() then Advance
      else if WindowCandidate(mmu) && x >= mmu.wx as int - 7 then OpenWindow
      else if !fifo.CanPop() then Advance
      else if Discard(mmu) > 0 then Drop
      else
        match FirstReached(buffer, x)
        case Some(i) => TakeSprite(i)
        case None => Draw
    }

    /**
     * The `cycle` does not panic: `wx - 7` does not underflow when it is evaluated, the
     * fetcher's step does not panic, a drawn line is on the LCD, and a line ending in the
     * window can count one more window line.
     */
    predicate CanCycle(mmu: Mmu.MMU, buffer: seq<Sprite>)
      reads this, fifo, fetcher, fetcher.sprites, mmu
    {
      (WindowCandidate(mmu) ==> mmu.wx >= 7)
      && match NextAction(mmu, buffer)
         case Advance => fetcher.CanStepAt(mmu, |fifo.pixels|)
         case OpenWindow => true
         case Drop => fetcher.CanStepAt(mmu, |fifo.pixels| - 1)
         case TakeSprite(_) => true
         case Draw =>
           (mmu.ly as int) < Height && fetcher.CanStepAt(mmu, |fifo.pixels| - 1)
           && (x + 1 == Width && fetcher.isWindowMode ==> fetcher.windowLineCounter < 0xFF)
    }

    /**
     * `cycle`: latches the line's start, does the chosen action, and ends the line after
     * the 160th pixel. A pixel is drawn at the current column and LY in its palette's
     * shade and nothing else on the LCD changes; only a taken sprite leaves the buffer.
     */
    method Cycle(mmu: Mmu.MMU, buffer: seq<Sprite>, lcd: array2<bv8>) returns (done: bool, buffered: seq<Sprite>)
      requires Valid() && mmu.vram.Length == 0x2000 && CanCycle(mmu, buffer)
      requires lcd.Length0 == Width && lcd.Length1 == Height
      modifies this, fifo, fetcher, fetcher.sprites, lcd
      ensures Valid()
      ensures done <==> old(NextAction(mmu, buffer)).Draw? && old(x) == Width - 1
      ensures buffered == if old(NextAction(mmu, buffer)).TakeSprite? then
          buffer[..old(NextAction(mmu, buffer)).index] + buffer[old(NextAction(mmu, buffer)).index + 1..]
        else buffer
      ensures Painted(lcd, old(Pixels(lcd)), old(NextAction(mmu, buffer)), old(x), mmu.ly as int,
                      HeadShade(old(fifo.pixels), mmu.bgp, mmu.obp0, mmu.obp1))
      ensures old(NextAction(mmu, buffer)).Draw? ==>
        lcd[old(x), mmu.ly] == Shade(old(fifo.pixels)[0], mmu)
      ensures forall i, j | 0 <= i < Width && 0 <= j < Height ::
        !(old(NextAction(mmu, buffer)).Draw? && i == old(x) && j == mmu.ly as int) ==> lcd[i, j] == old(lcd[i, j])
      ensures !done ==>
        !isInitialScanline && windowLine == old(WindowLineSeen(mmu))
        && x == (if old(NextAction(mmu, buffer)).Draw? then old(x) + 1 else old(x))
        && pixelToDiscard == (if old(NextAction(mmu, buffer)).Drop? then old(Discard(mmu)) - 1 else old(Discard(mmu)))
      ensures done ==>
        isInitialScanline && x == 0 && fifo.pixels == [] && windowLine == (old(WindowLineSeen(mmu)) && mmu.ly != 143)
        && fetcher.step == FetchTileDataIndex && !fetcher.isWindowMode && fetcher.xPositionCounter == 0
      ensures old(NextAction(mmu, buffer)).OpenWindow? ==>
        fetcher.isWindowMode && fetcher.xPositionCounter == 0 && fifo.pixels == []
      ensures old(NextAction(mmu, buffer)).TakeSprite? ==>
        fifo.pixels == old(fifo.pixels) && fetcher.FetchingSprite()
        && fetcher.sprites.step == SpritePixelFetcher.FetchTileDataLow(buffer[old(NextAction(mmu, buffer)).index])
      ensures !done && (old(NextAction(mmu, buffer)).Drop? || old(NextAction(mmu, buffer)).Draw?) ==>
        (fetcher.State(), fifo.pixels) == old(fetcher.AfterStep(mmu, fifo.pixels[1..]))
      ensures old(NextAction(mmu, buffer)).Advance? ==>
        (fetcher.State(), fifo.pixels) == old(fetcher.AfterStep(mmu, fifo.pixels))
    {
      ghost var action := NextAction(mmu, buffer);
      Latch(mmu);
      assert NextAction(mmu, buffer) == action;
      buffered := Act(mmu, buffer, lcd);
      done := false;
      if x == Width {
        Reset(mmu.ly == 143);
        done := true;
      }
    }

    /** The first call of a line latches whether LY has met WY and the pixels to drop (SCX % 8). */
    method Latch(mmu: Mmu.MMU)
      modifies this
      ensures !isInitialScanline && x == old(x)
      ensures windowLine == old(WindowLineSeen(mmu)) && pixelToDiscard == old(Discard(mmu))
    {
      if isInitialScanline {
        if mmu.ly == mmu.wy { windowLine := true; }
        pixelToDiscard := mmu.scx as nat % 8;
        isInitialScanline := false;
      }
    }

    /** The body of `cycle` on a latched line, up to the end-of-line check. */
    method Act(mmu: Mmu.MMU, buffer: seq<Sprite>, lcd: array2<bv8>) returns (buffered: seq<Sprite>)
      requires Valid() && !isInitialScanline && mmu.vram.Length == 0x2000 && CanCycle(mmu, buffer)
      requires lcd.Length0 == Width && lcd.Length1 == Height
      modifies this, fifo, fetcher, fetcher.sprites, lcd
      ensures Consistent() && !isInitialScanline && windowLine == old(windowLine)
      ensures x == if old(NextAction(mmu, buffer)).Draw? then old(x) + 1 else old(x)
      ensures x == Width ==>
        !fetcher.FetchingSprite() && (fetcher.isWindowMode ==> fetcher.windowLineCounter < 0xFF)
      ensures pixelToDiscard == if old(NextAction(mmu, buffer)).Drop? then old(pixelToDiscard) - 1 else old(pixelToDiscard)
      ensures buffered == if old(NextAction(mmu, buffer)).TakeSprite? then
          buffer[..old(NextAction(mmu, buffer)).index] + buffer[old(NextAction(mmu, buffer)).index + 1..]
        else buffer
      ensures Painted(lcd, old(Pixels(lcd)), old(NextAction(mmu, buffer)), old(x), mmu.ly as int,
                      HeadShade(old(fifo.pixels), mmu.bgp, mmu.obp0, mmu.obp1))
      ensures old(NextAction(mmu, buffer)).Draw? ==>
        lcd[old(x), mmu.ly] == Shade(old(fifo.pixels)[0], mmu)
      ensures forall i, j | 0 <= i < Width && 0 <= j < Height ::
        !(old(NextAction(mmu, buffer)).Draw? && i == old(x) && j == mmu.ly as int) ==> lcd[i, j] == old(lcd[i, j])
      ensures old(NextAction(mmu, buffer)).OpenWindow? ==>
        fetcher.isWindowMode && fetcher.xPositionCounter == 0 && fifo.pixels == []
      ensures old(NextAction(mmu, buffer)).TakeSprite? ==>
        fifo.pixels == old(fifo.pixels) && fetcher.FetchingSprite()
        && fetcher.sprites.step == SpritePixelFetcher.FetchTileDataLow(buffer[old(NextAction(mmu, buffer)).index])
      ensures old(NextAction(mmu, buffer)).Drop? || old(NextAction(mmu, buffer)).Draw? ==>
        (fetcher.State(), fifo.pixels) == old(fetcher.AfterStep(mmu, fifo.pixels[1..]))
      ensures old(NextAction(mmu, buffer)).Advance? ==>
        (fetcher.State(), fifo.pixels) == old(fetcher.AfterStep(mmu, fifo.pixels))
    {
      buffered := buffer;
      if !fetcher.FetchingSprite() {
        if pixelToDiscard == 0 && !fetcher.isWindowMode && Lcdc.LCDC(mmu.lcdc).IsWindowEnable() && windowLine
          && x >= mmu.wx as int - 7
        {
          fifo.Reset();
          fetcher.FetchWindow(mmu, fifo);
        } else if fifo.CanPop() {
          buffered := Pop(mmu, buffer, lcd);
        } else {
          fetcher.Step(mmu, fifo);
        }
      } else {
        fetcher.Step(mmu, fifo);
      }
    }

    /** The branch of `cycle` that takes the front pixel: drop it, fetch a sprite at this column, or draw it. */
    method Pop(mmu: Mmu.MMU, buffer: seq<Sprite>, lcd: array2<bv8>) returns (buffered: seq<Sprite>)
      requires Valid() && !isInitialScanline && mmu.vram.Length == 0x2000 && CanCycle(mmu, buffer)
      requires lcd.Length0 == Width && lcd.Length1 == Height
      requires !fetcher.FetchingSprite() && fifo.CanPop()
      requires NextAction(mmu, buffer).Drop? || NextAction(mmu, buffer).TakeSprite? || NextAction(mmu, buffer).Draw?
      modifies this, fifo, fetcher, fetcher.sprites, lcd
      ensures Consistent() && !isInitialScanline && windowLine == old(windowLine)
      ensures x == if old(NextAction(mmu, buffer)).Draw? then old(x) + 1 else old(x)
      ensures x == Width ==>
        !fetcher.FetchingSprite() && (fetcher.isWindowMode ==> fetcher.windowLineCounter < 0xFF)
      ensures pixelToDiscard == if old(NextAction(mmu, buffer)).Drop? then old(pixelToDiscard) - 1 else old(pixelToDiscard)
      ensures buffered == if old(NextAction(mmu, buffer)).TakeSprite? then
          buffer[..old(NextAction(mmu, buffer)).index] + buffer[old(NextAction(mmu, buffer)).index + 1..]
        else buffer
      ensures old(NextAction(mmu, buffer)).Draw? ==>
        lcd[old(x), mmu.ly] == Shade(old(fifo.pixels)[0], mmu)
      ensures forall i, j | 0 <= i < Width && 0 <= j < Height ::
        !(old(NextAction(mmu, buffer)).Draw? && i == old(x) && j == mmu.ly as int) ==> lcd[i, j] == old(lcd[i, j])
      ensures old(NextAction(mmu, buffer)).OpenWindow? ==>
        fetcher.isWindowMode && fetcher.xPositionCounter == 0 && fifo.pixels == []
      ensures old(NextAction(mmu, buffer)).TakeSprite? ==>
        fifo.pixels == old(fifo.pixels) && fetcher.FetchingSprite()
        && fetcher.sprites.step == SpritePixelFetcher.FetchTileDataLow(buffer[old(NextAction(mmu, buffer)).index])
      ensures old(NextAction(mmu, buffer)).Drop? || old(NextAction(mmu, buffer)).Draw? ==>
        (fetcher.State(), fifo.pixels) == old(fetcher.AfterStep(mmu, fifo.pixels[1..]))
    {
      if pixelToDiscard > 0 {
        var _ := fifo.Pop();
        pixelToDiscard := pixelToDiscard - 1;
        fetcher.Step(mmu, fifo);
        buffered := buffer;
      } else {
        var sprite;
        sprite, buffered := GetSprite(buffer);
        if sprite.Some? {
          fetcher.FetchSprite(sprite.value, mmu, fifo);
        } else {
          DrawPixel(mmu, lcd);
          fetcher.Step(mmu, fifo);
        }
      }
    }

    /** Pops the front pixel and draws it in its shade at the current column and LY, moving one column on. */
    method DrawPixel(mmu: Mmu.MMU, lcd: array2<bv8>)
      requires fifo.Valid() && fifo.Shaded() && fifo.CanPop() && x < Width && (mmu.ly as int) < Height
      requires lcd.Length0 == Width && lcd.Length1 == Height
      modifies this, fifo, lcd
      ensures fifo.Valid() && fifo.Shaded() && [old(fifo.pixels)[0]] + fifo.pixels == old(fifo.pixels)
      ensures x == old(x) + 1
      ensures lcd[old(x), mmu.ly] == Shade(old(fifo.pixels)[0], mmu)
      ensures forall i, j | 0 <= i < Width && 0 <= j < Height && !(i == old(x) && j == mmu.ly as int) ::
        lcd[i, j] == old(lcd[i, j])
      ensures isInitialScanline == old(isInitialScanline) && pixelToDiscard == old(pixelToDiscard)
      ensures windowLine == old(windowLine)
    {
      var p := fifo.Pop();
      assert p == old(fifo.pixels)[0];
      lcd[x, mmu.ly] := Shade(p, mmu);
      x := x + 1;
    }

    /** `get_sprite`: takes the first sprite in the buffer whose column is reached, if any. */
    method GetSprite(buffer: seq<Sprite>) returns (found: Option<Sprite>, rest: seq<Sprite>)
      ensures found.None? <==> FirstReached(buffer, x).None?
      ensures found.None? ==> rest == buffer
      ensures found.Some? ==>
        var i := FirstReached(buffer, x).value;
        found.value == buffer[i] && rest == buffer[..i] + buffer[i + 1..]
    {
      rest := buffer;
      if |buffer| == 0 { return None, rest; }
      for i := 0 to |buffer|
        invariant forall j | 0 <= j < i :: !Reached(buffer[j], x)
      {
        var s := buffer[i];
        if s.x as int <= x + 8 {
          FirstReachedIsFirst(buffer, x, i);
          return Some(s), buffer[..i] + buffer[i + 1..];
        }
      }
      found := None;
    }

    /** `reset`: a new line starts at column 0 with an empty FIFO; the last line forgets the window. */
    method Reset(all: bool)
      requires Consistent() && !fetcher.FetchingSprite() && (fetcher.isWindowMode ==> fetcher.windowLineCounter < 0xFF)
      modifies this, fifo, fetcher
      ensures Valid()
      ensures isInitialScanline && x == 0 && fifo.pixels == [] && windowLine == (old(windowLine) && !all)
      ensures pixelToDiscard == old(pixelToDiscard)
      ensures fetcher.step == FetchTileDataIndex && !fetcher.isWindowMode && fetcher.xPositionCounter == 0
      ensures fetcher.windowLineCounter == if all then 0
        else if old(fetcher.isWindowMode) then old(fetcher.windowLineCounter) + 1 else old(fetcher.windowLineCounter)
    {
      isInitialScanline := true;
      x := 0;
      fifo.Reset();
      if all { windowLine := false; }
      fetcher.Reset(all);
    }
  }

  /** A sprite that is reached, with none reached before it, is the first reached. */
  lemma {:induction false} FirstReachedIsFirst(buffer: seq<Sprite>, x: nat, i: nat)
    requires i < |buffer| && Reached(buffer[i], x) && forall j | 0 <= j < i :: !Reached(buffer[j], x)
    ensures FirstReached(buffer, x) == Some(i)
    decreases i
  {
    if i > 0 {
      FirstReachedIsFirst(buffer[1..], x, i - 1);
    }
  }
}
