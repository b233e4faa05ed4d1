/**
 * The pixels that travel through the pixel FIFO: a two-bit colour index tagged with
 * where it came from (background, window or a sprite with its palette choice), and
 * the decoding of one tile row from its two bit planes.
 */
module PixelType {

  datatype Pixel = Background(value: bv8) | Window(value: bv8) | Sprite(value: bv8, palette1: bool)

  /**
   * The colour index of pixel `i` of a tile row (0 is the leftmost): bit 7 - i of
   * the low plane `lo` is its bit 0 and bit 7 - i of the high plane `hi` its bit 1.
   */
  function ColorIndex(lo: bv8, hi: bv8, i: nat): (v: bv8)
    requires i < 8
    ensures v <= 3
    ensures v & 1 == 1 <==> lo & (0x80 >> i) != 0
    ensures v & 2 == 2 <==> hi & (0x80 >> i) != 0
  {
    ((lo >> (7 - i)) & 1) | (((hi >> (7 - i)) & 1) << 1)
  }

  /** `from_bg_tile_data`: eight background pixels, leftmost first. */
  function FromBgTileData(lo: bv8, hi: bv8): (row: seq<Pixel>)
    ensures |row| == 8
    ensures forall i | 0 <= i < 8 :: row[i].Background? && row[i].value == ColorIndex(lo, hi, i)
  {
    seq(8, i requires 0 <= i < 8 => Background(ColorIndex(lo, hi, i)))
  }

  /** `from_window_tile_data`: eight window pixels, leftmost first. */
  function FromWindowTileData(lo: bv8, hi: bv8): (row: seq<Pixel>)
    ensures |row| == 8
    ensures forall i | 0 <= i < 8 :: row[i].Window? && row[i].value == ColorIndex(lo, hi, i)
  {
    seq(8, i requires 0 <= i < 8 => Window(ColorIndex(lo, hi, i)))
  }

  /** `from_sprite_tile_data`: eight sprite pixels, leftmost first, all with the same palette. */
  function FromSpriteTileData(lo: bv8, hi: bv8, palette1: bool): (row: seq<Pixel>)
    ensures |row| == 8
    ensures forall i | 0 <= i < 8 :: row[i] == Sprite(ColorIndex(lo, hi, i), palette1)
  {
    seq(8, i requires 0 <= i < 8 => Sprite(ColorIndex(lo, hi, i), palette1))
  }

  /** Bit `plane` of every pixel of a row, gathered back into a byte (leftmost pixel in bit 7). */
  function Plane(row: seq<Pixel>, plane: nat): (b: bv8)
    requires |row| == 8 && plane < 2
  {
    (PlaneBit(row[0], plane) << 7) | (PlaneBit(row[1], plane) << 6)
    | (PlaneBit(row[2], plane) << 5) | (PlaneBit(row[3], plane) << 4)
    | (PlaneBit(row[4], plane) << 3) | (PlaneBit(row[5], plane) << 2)
    | (PlaneBit(row[6], plane) << 1) | PlaneBit(row[7], plane)
  }

  /** Bit `plane` of one pixel's colour index, as 0 or 1. */
  function PlaneBit(p: Pixel, plane: nat): (b: bv8)
    requires plane < 2
    ensures b <= 1
  {
    (p.value >> plane) & 1
  }

  /** Every pixel a row decoder produces has a colour index of at most 3. */
  lemma DecodedValuesBounded(lo: bv8, hi: bv8, palette1: bool)
    ensures forall i | 0 <= i < 8 :: FromBgTileData(lo, hi)[i].value <= 3
    ensures forall i | 0 <= i < 8 :: FromWindowTileData(lo, hi)[i].value <= 3
    ensures forall i | 0 <= i < 8 :: FromSpriteTileData(lo, hi, palette1)[i].value <= 3
  {
  }

  /** The three decoders agree pixel by pixel on the colour index; only the tag differs. */
  lemma DecodersAgree(lo: bv8, hi: bv8, palette1: bool)
    ensures forall i | 0 <= i < 8 ::
      FromWindowTileData(lo, hi)[i].value == FromBgTileData(lo, hi)[i].value
      && FromSpriteTileData(lo, hi, palette1)[i].value == FromBgTileData(lo, hi)[i].value
      && FromSpriteTileData(lo, hi, palette1)[i].palette1 == palette1
  {
  }

  /**
   * Decoding loses nothing: the two bit planes can be read back from the decoded row,
   * so two different byte pairs never decode to the same row.
   */
  lemma DecodeRoundTrip(lo: bv8, hi: bv8)
    ensures Plane(FromBgTileData(lo, hi), 0) == lo
    ensures Plane(FromBgTileData(lo, hi), 1) == hi
  {
    PlaneOfRow(FromBgTileData(lo, hi), lo, hi, 0);
    PlaneOfRow(FromBgTileData(lo, hi), lo, hi, 1);
  }

  /** A row whose pixels carry the bits of `lo` and `hi` gives those bytes back as its planes. */
  lemma PlaneOfRow(row: seq<Pixel>, lo: bv8, hi: bv8, plane: nat)
    requires |row| == 8 && plane < 2
    requires forall i | 0 <= i < 8 :: row[i].value == ColorIndex(lo, hi, i)
    ensures Plane(row, plane) == if plane == 0 then lo else hi
  {
    var b := if plane == 0 then lo else hi;
    forall i | 0 <= i < 8
      ensures PlaneBit(row[i], plane) == (b >> (7 - i)) & 1
    {
      PlaneBitsOfIndex(lo, hi, i);
    }
    assert PlaneBit(row[0], plane) == (b >> 7) & 1 && PlaneBit(row[1], plane) == (b >> 6) & 1;
    assert PlaneBit(row[2], plane) == (b >> 5) & 1 && PlaneBit(row[3], plane) == (b >> 4) & 1;
    assert PlaneBit(row[4], plane) == (b >> 3) & 1 && PlaneBit(row[5], plane) == (b >> 2) & 1;
    assert PlaneBit(row[6], plane) == (b >> 1) & 1 && PlaneBit(row[7], plane) == (b >> 0) & 1;
    GatherBits(b);
  }

  /** A byte is the union of its eight bits, each in its place. */
  lemma GatherBits(b: bv8)
    ensures b == (((b >> 7) & 1) << 7) | (((b >> 6) & 1) << 6) | (((b >> 5) & 1) << 5) | (((b >> 4) & 1) << 4)
      | (((b >> 3) & 1) << 3) | (((b >> 2) & 1) << 2) | (((b >> 1) & 1) << 1) | ((b >> 0) & 1)
  {
  }

  /** The two bits of a decoded colour index are the two planes' bits at that column. */
  lemma PlaneBitsOfIndex(lo: bv8, hi: bv8, i: nat)
    requires i < 8
    ensures (ColorIndex(lo, hi, i) >> 0) & 1 == (lo >> (7 - i)) & 1
    ensures (ColorIndex(lo, hi, i) >> 1) & 1 == (hi >> (7 - i)) & 1
  {
    var a, b := (lo >> (7 - i)) & 1, (hi >> (7 - i)) & 1;
    assert a <= 1 && b <= 1;
  }

  /** A row is all colour 0 exactly when both bit planes are zero. */
  lemma ZeroRowIffZeroPlanes(lo: bv8, hi: bv8)
    ensures (forall i | 0 <= i < 8 :: FromBgTileData(lo, hi)[i].value == 0) <==> lo == 0 && hi == 0
  {
    var row := FromBgTileData(lo, hi);
    if forall i | 0 <= i < 8 :: row[i].value == 0 {
      DecodeRoundTrip(lo, hi);
      assert row[0].value == 0 && row[1].value == 0 && row[2].value == 0 && row[3].value == 0;
      assert row[4].value == 0 && row[5].value == 0 && row[6].value == 0 && row[7].value == 0;
    }
  }
}
