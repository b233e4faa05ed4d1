/**
 * A separate queue of sprite pixels (colour index and attribute flags) where a newly
 * fetched sprite row only fills the transparent slots of the rows already queued, so
 * the sprite queued first stays on top. The PPU does not use this queue.
 */
module SpritePixelFifo {
  import opened Wrappers
  import opened Sprite

  /** A sprite pixel: its colour index and the flags of the sprite it came from. */
  type SpritePixel = (bv8, Flag)

  /** Slot `i` after mixing `row` over the queue `q`: a transparent slot takes the new pixel. */
  function Overlaid(q: seq<SpritePixel>, row: seq<SpritePixel>, i: nat): SpritePixel
    requires |row| == 8 && i < 8 && i < |q|
  {
    if q[i].0 == 0 then row[i] else q[i]
  }

  /**
   * The queue after pushing `row`: each of the first eight slots that exists is kept
   * unless transparent, the slots beyond the queue's end are appended from `row`, and
   * the slots after the eighth are untouched.
   */
  ghost predicate PushedOver(q: seq<SpritePixel>, row: seq<SpritePixel>, r: seq<SpritePixel>)
    requires |row| == 8
  {
    |r| == (if |q| >= 8 then |q| else 8)
    && (forall i | 0 <= i < 8 && i < |q| :: r[i] == Overlaid(q, row, i))
    && (forall i | |q| <= i < 8 :: r[i] == row[i])
    && (forall i | 8 <= i < |q| :: r[i] == q[i])
  }

  class SpritePixelFifo {
    var pixels: seq<SpritePixel>

    constructor ()
      ensures pixels == []
    {
      pixels := [];
    }

    /** `can_pop`: a row is queued. */
    predicate CanPop()
      reads this
    {
      |pixels| >= 8
    }

    /** `can_push`: at most one row is queued. */
    predicate CanPush()
      reads this
    {
      |pixels| <= 8
    }

    /** `pop`: the front pixel, or none when the queue is empty. */
    method Pop() returns (p: Option<SpritePixel>)
      modifies this
      ensures old(pixels) == [] ==> p == None && pixels == []
      ensures old(pixels) != [] ==> p == Some(old(pixels)[0]) && pixels == old(pixels)[1..]
    {
      if pixels == [] {
        p := None;
      } else {
        p := Some(pixels[0]);
        pixels := pixels[1..];
      }
    }

    /** `push_tile_pixel_row`: mixes the row into the queue slot by slot. */
    method PushRow(row: seq<SpritePixel>)
      requires |row| == 8
      modifies this
      ensures PushedOver(old(pixels), row, pixels)
    {
      for i := 0 to 8
        invariant |pixels| == (if |old(pixels)| >= i then |old(pixels)| else i)
        invariant forall j | 0 <= j < i && j < |old(pixels)| :: pixels[j] == Overlaid(old(pixels), row, j)
        invariant forall j | |old(pixels)| <= j < i :: pixels[j] == row[j]
        invariant forall j | i <= j < |old(pixels)| :: pixels[j] == old(pixels)[j]
      {
        if i < |pixels| {
          if pixels[i].0 == 0 {
            pixels := pixels[i := row[i]];
          }
          continue;
        }
        pixels := pixels + [row[i]];
      }
    }

    /** `reset`: empties the queue. */
    method Reset()
      modifies this
      ensures pixels == []
    {
      pixels := [];
    }
  }

  /**
   * Pushing a row never changes an opaque pixel already queued, so the sprite queued
   * first wins; its transparent slots take the new row's pixels, and the queue ends up
   * at least a row long.
   */
  lemma {:induction false} EarlierSpriteWins(q: seq<SpritePixel>, row: seq<SpritePixel>, r: seq<SpritePixel>)
    requires |row| == 8 && PushedOver(q, row, r)
    ensures |r| >= 8 && |r| >= |q|
    ensures forall i | 0 <= i < |q| && q[i].0 != 0 :: r[i] == q[i]
    ensures forall i | 0 <= i < 8 && (i >= |q| || q[i].0 == 0) :: r[i] == row[i]
  {
    forall i | 0 <= i < |q| && q[i].0 != 0
      ensures r[i] == q[i]
    {
      if i < 8 {
        assert r[i] == Overlaid(q, row, i);
      }
    }
  }
}
