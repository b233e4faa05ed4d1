/**
 * The palette registers: BGP (0xFF47) maps each of the four colour indices of the
 * background and window to a shade; OBP0/OBP1 (0xFF48/0xFF49) do the same for
 * sprites, whose index 0 is always transparent.
 */
module Bgp {

  /** `BGP::get_color`: the two-bit shade stored for index `i`; an index above 3 panics. */
  function BgpColor(palette: bv8, i: bv8): (c: bv8)
    requires i <= 3
    ensures c <= 3
    ensures c == (palette >> (2 * i)) & 3
  {
    match i
    case 0 => (palette >> 0) & 3
    case 1 => (palette >> 2) & 3
    case 2 => (palette >> 4) & 3
    case 3 => (palette >> 6) & 3
  }

  /** `OBP::get_color`: shade 0 for the transparent index 0, otherwise as BGP. */
  function ObpColor(palette: bv8, i: bv8): (c: bv8)
    requires i <= 3
    ensures c <= 3
    ensures i == 0 ==> c == 0
    ensures i != 0 ==> c == BgpColor(palette, i)
  {
    match i
    case 0 => 0
    case 1 => (palette >> 2) & 3
    case 2 => (palette >> 4) & 3
    case 3 => (palette >> 6) & 3
  }
}
