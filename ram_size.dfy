/** The RAM-size byte of the cartridge header (0x149): external RAM size and number of 8 KiB banks. */
module RamSizeType {

  datatype RamSize = RamSize(size: nat, bankSize: nat)

  predicate IsRamSizeCode(code: bv8)
  {
    code <= 0x05
  }

  /** The sizes `RamSizeOf` can produce. */
  predicate IsRamSize(r: RamSize)
  {
    r == RamSize(0, 0) || r == RamSize(2 * 1024, 1) || r == RamSize(8 * 1024, 1)
    || r == RamSize(32 * 1024, 4) || r == RamSize(128 * 1024, 16) || r == RamSize(64 * 1024, 8)
  }

  /**
   * `RamSize::from`: 0x00 is no RAM, 0x01 a single 2 KiB bank, 0x02-0x05 whole 8 KiB
   * banks (1, 4, 16, 8 of them). Codes above 0x05 abort the emulator.
   */
  function RamSizeOf(code: bv8): (r: RamSize)
    requires IsRamSizeCode(code)
    ensures code == 0x00 <==> r.size == 0
    ensures code == 0x00 ==> r.bankSize == 0
    ensures code == 0x01 ==> r.size == 2 * 1024 && r.bankSize == 1
    ensures 0x02 <= code ==> r.size == r.bankSize * 8 * 1024
    ensures code == 0x04 ==> r.bankSize == 16
    ensures code == 0x05 ==> r.bankSize == 8
    ensures IsRamSize(r)
  {
    match code
    case 0x00 => RamSize(0, 0)
    case 0x01 => RamSize(2 * 1024, 1)
    case 0x02 => RamSize(8 * 1024, 1)
    case 0x03 => RamSize(32 * 1024, 4)
    case 0x04 => RamSize(128 * 1024, 16)
    case 0x05 => RamSize(64 * 1024, 8)
  }
}
