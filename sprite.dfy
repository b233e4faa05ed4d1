/**
 * One OAM entry: Y and X position, tile index and attribute flags (bit 4 palette,
 * bit 5 X flip, bit 6 Y flip, bit 7 background priority).
 */
module Sprite {

  datatype Flag = Flag(bits: bv8)
  {
    function IsXFlipped(): (e: bool)
      ensures e <==> bits & 0x20 != 0
    {
      (bits >> 5) & 1 == 1
    }

    function IsYFlipped(): (e: bool)
      ensures e <==> bits & 0x40 != 0
    {
      (bits >> 6) & 1 == 1
    }

    function BgPrior(): (e: bool)
      ensures e <==> bits & 0x80 != 0
    {
      (bits >> 7) & 1 == 1
    }

    function Palette1(): (e: bool)
      ensures e <==> bits & 0x10 != 0
    {
      (bits >> 4) & 1 == 1
    }
  }

  datatype Sprite = Sprite(y: bv8, x: bv8, tiledataIndex: bv8, flags: Flag)

  /** `From<[u8; 4]>`: the four OAM bytes in order y, x, tile index, flags. */
  function FromBytes(b: seq<bv8>): (s: Sprite)
    requires |b| == 4
    ensures [s.y, s.x, s.tiledataIndex, s.flags.bits] == b
  {
    Sprite(b[0], b[1], b[2], Flag(b[3]))
  }

  /** `Sprite::default`: the all-zero entry. */
  function DefaultSprite(): (s: Sprite)
    ensures FromBytes([0, 0, 0, 0]) == s
  {
    Sprite(0, 0, 0, Flag(0))
  }

  /** Reading an entry back from its own four bytes gives the same entry. */
  lemma FromBytesOfFields(s: Sprite)
    ensures FromBytes([s.y, s.x, s.tiledataIndex, s.flags.bits]) == s
  {
  }
}
