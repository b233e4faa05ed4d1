/**
 * The pixel FIFO between the fetchers and the LCD: a double-ended queue of at most
 * sixteen pixels, filled eight at a time (a tile row) at the back, or at the front
 * when a held or mixed row must go first, and drained one pixel at a time.
 */
module PixelFifo {
  import opened PixelType

  /** The queue can hold two tile rows. */
  const Capacity: nat := 16

  class PixelFifo {
    var pixels: seq<Pixel>

    /** The queue never holds more than two rows (jimbot asserts this after every push). */
    ghost predicate Valid()
      reads this
    {
      |pixels| <= Capacity
    }

    /** Every queued pixel holds a two-bit colour index, as the palettes require. */
    ghost predicate Shaded()
      reads this
    {
      forall i | 0 <= i < |pixels| :: pixels[i].value <= 3
    }

    /** `default`: empty. */
    constructor ()
      ensures Valid() && pixels == []
    {
      pixels := [];
    }

    /** `can_pop`: at least one row is queued. */
    predicate CanPop()
      reads this
    {
      |pixels| >= 8
    }

    /** `can_push`: a row fits without exceeding two rows. */
    predicate CanPush()
      reads this
    {
      |pixels| <= 8
    }

    /** `pop`: takes the front pixel; popping with fewer than eight queued is a panic. */
    method Pop() returns (p: Pixel)
      requires Valid() && CanPop()
      modifies this
      ensures Valid() && (old(Shaded()) ==> Shaded() && p.value <= 3)
      ensures [p] + pixels == old(pixels)
    {
      p := pixels[0];
      pixels := pixels[1..];
    }

    /** `push_tile_pixel_row`: appends the row in order; more than sixteen afterwards is a panic. */
    method PushRow(row: seq<Pixel>)
      requires Valid() && |row| == 8 && |pixels| + 8 <= Capacity
      modifies this
      ensures Valid()
      ensures pixels == old(pixels) + row
    {
      for k := 0 to 8
        invariant pixels == old(pixels) + row[..k]
      {
        pixels := pixels + [row[k]];
      }
    }

    /**
     * `push_tile_pixel_row_front`: pushes the row's pixels to the front from the last
     * to the first, so the row comes out first and in its own order. Pushing when the
     * queue holds more than one row is a panic.
     */
    method PushRowFront(row: seq<Pixel>)
      requires Valid() && |row| == 8 && CanPush()
      modifies this
      ensures Valid()
      ensures pixels == row + old(pixels)
    {
      var i := 8;
      while i > 0
        invariant 0 <= i <= 8
        invariant pixels == row[i..] + old(pixels)
      {
        i := i - 1;
        pixels := [row[i]] + pixels;
      }
    }

    /** `reset`: empties the queue. */
    method Reset()
      modifies this
      ensures Valid() && Shaded() && pixels == []
    {
      pixels := [];
    }

    /** `pop_front_8`: takes the first eight pixels in order; fewer than eight is a panic. */
    method PopFront8() returns (row: seq<Pixel>)
      requires Valid() && CanPop()
      modifies this
      ensures Valid()
      ensures |row| == 8 && row + pixels == old(pixels)
    {
      row := [];
      for k := 0 to 8
        invariant |row| == k && row + pixels == old(pixels)
        invariant |pixels| >= 8 - k
      {
        row := row + [pixels[0]];
        pixels := pixels[1..];
      }
    }
  }

  /**
   * Taking the front row and pushing a row of the same length back at the front keeps
   * the queue's length and everything behind the row; pushing back the row taken
   * restores the queue.
   */
  lemma {:induction false} PopPushFront(q: seq<Pixel>, taken: seq<Pixel>, rest: seq<Pixel>, back: seq<Pixel>)
    requires |taken| == 8 && taken + rest == q && |back| == 8
    ensures |back + rest| == |q|
    ensures (back + rest)[8..] == q[8..]
    ensures back == taken ==> back + rest == q
  {
    assert q[8..] == rest by {
      assert q[..8] == taken;
    }
  }
}
