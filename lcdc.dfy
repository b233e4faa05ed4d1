/**
 * The LCD control register LCDC (0xFF40) and the two address spaces it selects: the
 * 32x32 tile maps at 0x9800/0x9C00 and the tile data blocks addressed from 0x8000
 * (unsigned index) or around 0x9000 (signed index).
 */
module Lcdc {
  import opened Bits

  datatype TileMapArea = U9800 | U9C00
  {
    /** `address`: the map base plus an offset; jimbot's unchecked `+` must not overflow. */
    function Address(offset: bv16): (r: bv16)
      requires offset <= 0xFFFF - Base()
      ensures r >= Base() && r - Base() == offset
    {
      match this
      case U9800 => 0x9800 + offset
      case U9C00 => 0x9C00 + offset
    }

    /** The first byte of the map. */
    function Base(): (b: bv16)
      ensures b == 0x9800 || b == 0x9C00
    {
      match this
      case U9800 => 0x9800
      case U9C00 => 0x9C00
    }
  }

  datatype TileDataArea = I8800 | U8000
  {
    /**
     * `address`: the first byte of tile `offset` (16 bytes per tile). U8000 indexes
     * upwards from 0x8000 with an unchecked product and sum, so the index is at most
     * 0x7FF. I8800 reads the low byte of the index as an `i8` around 0x9000, so a
     * non-negative index lands in 0x9000-0x97F0 and a negative one in 0x8800-0x8FF0.
     */
    function Address(offset: bv16): (r: bv16)
      requires this == U8000 ==> offset <= 0x7FF
      ensures r & 0xF == 0
      ensures this == U8000 ==> r == 0x8000 + offset * 16 && r >= 0x8000
      ensures this == I8800 && AsI8(Lo(offset)) >= 0 ==> 0x9000 <= r <= 0x97F0
      ensures this == I8800 && AsI8(Lo(offset)) < 0 ==> 0x8800 <= r <= 0x8FF0
      ensures this == I8800 ==> r == 0x9000 + SignExtend(Lo(offset)) * 16
    {
      match this
      case I8800 => 0x9000 + SignExtend(Lo(offset)) * 16
      case U8000 => 0x8000 + offset * 16
    }
  }

  /** The LCDC byte; jimbot wraps and unwraps it around every use. */
  datatype LCDC = LCDC(bits: bv8)
  {
    /** Bit 2: 8x8 or 8x16 sprites. */
    function SpriteHeight(): (h: nat)
      ensures h == if (bits >> 2) & 1 == 0 then 8 else 16
    {
      if (bits >> 2) & 1 == 0 then 8 else 16
    }

    /** Bit 3 chooses the background map. */
    function BgTilemapArea(): (m: TileMapArea)
      ensures m == U9C00 <==> bits & 0x08 != 0
    {
      if (bits >> 3) & 1 == 0 then U9800 else U9C00
    }

    /** Bit 6 chooses the window map. */
    function WindowTilemapArea(): (m: TileMapArea)
      ensures m == U9C00 <==> bits & 0x40 != 0
    {
      if (bits >> 6) & 1 == 0 then U9800 else U9C00
    }

    /** Bit 4 chooses unsigned (0x8000) or signed (0x9000) tile addressing. */
    function BgWindowTiledataArea(): (a: TileDataArea)
      ensures a == U8000 <==> bits & 0x10 != 0
    {
      if (bits >> 4) & 1 == 0 then I8800 else U8000
    }

    function IsSpriteEnable(): (e: bool)
      ensures e <==> bits & 0x02 != 0
    {
      (bits >> 1) & 1 == 1
    }

    function IsDisplayEnable(): (e: bool)
      ensures e <==> bits & 0x80 != 0
    {
      (bits >> 7) & 1 == 1
    }

    /** The window shows only when bit 5 and the background bit 0 are both set. */
    function IsWindowEnable(): (e: bool)
      ensures e <==> bits & 0x21 == 0x21
      ensures e ==> IsBgWindowEnable()
    {
      IsBgWindowEnable() && (bits >> 5) & 1 == 1
    }

    function IsBgWindowEnable(): (e: bool)
      ensures e <==> bits & 0x01 != 0
    {
      (bits >> 0) & 1 == 1
    }
  }
}
