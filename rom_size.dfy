/** The ROM-size byte of the cartridge header (0x148): total ROM size and number of 16 KiB banks. */
module RomSizeType {
  import opened Bits

  datatype RomSize = RomSize(size: nat, bankSize: nat)

  /** The codes this model decodes: 0x00-0x08 and 0x54 (0x52/0x53 are left out). */
  predicate IsRomSizeCode(code: bv8)
  {
    code <= 0x08 || code == 0x54
  }

  /** The sizes `RomSizeOf` can produce. */
  predicate IsRomSize(r: RomSize)
  {
    r.bankSize in {2, 4, 8, 16, 32, 64, 128, 256, 512, 96} && r.size == r.bankSize * 0x4000
  }

  /**
   * `RomSize::from`: codes 0x00-0x08 give 2^(code+1) banks of 16 KiB; 0x54 gives
   * 96 banks, 1.5 MiB. Any other code aborts the emulator.
   */
  function RomSizeOf(code: bv8): (r: RomSize)
    requires IsRomSizeCode(code)
    ensures r.bankSize >= 2
    ensures code <= 0x08 ==> r.bankSize == Pow2(code as nat + 1) && r.size == r.bankSize * 0x4000
    ensures code == 0x54 ==> r.bankSize == 96 && r.size == 3 * 1024 * 1024 / 2
    ensures IsRomSize(r)
  {
    match code
    case 0x00 => RomSize(32 * 1024, 2)
    case 0x01 => RomSize(64 * 1024, 4)
    case 0x02 => RomSize(128 * 1024, 8)
    case 0x03 => RomSize(256 * 1024, 16)
    case 0x04 => RomSize(512 * 1024, 32)
    case 0x05 => RomSize(1 * 1024 * 1024, 64)
    case 0x06 => RomSize(2 * 1024 * 1024, 128)
    case 0x07 => RomSize(4 * 1024 * 1024, 256)
    case 0x08 => RomSize(8 * 1024 * 1024, 512)
    case 0x54 => RomSize(3 * 1024 * 1024 / 2, 96)
  }
}
