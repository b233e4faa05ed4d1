/**
 * The MBC1 bank controller without RAM: 0x0000-0x3FFF is bank 0, 0x4000-0x7FFF the
 * selected bank, and a write to 0x2000-0x3FFF selects the bank through a mask sized to
 * the ROM. The bank arithmetic here is shared with the other controllers.
 */
module CartridgeMbc1 {
  import opened CartridgeMetadata

  /** The ROM bank counts that `rom_number_bit_mask` knows; any other aborts the emulator. */
  predicate HasBankMask(bankSize: nat)
  {
    bankSize == 2 || bankSize == 4 || bankSize == 8 || bankSize == 16 || bankSize == 32
    || bankSize == 64 || bankSize == 128
  }

  /** `rom_number_bit_mask`: bank count minus one, capped at five bits. */
  function RomNumberBitMask(bankSize: nat): (m: bv8)
    requires HasBankMask(bankSize)
    ensures bankSize <= 32 ==> m as int == bankSize - 1
    ensures bankSize > 32 ==> m == 0x1F
  {
    match bankSize
    case 2 => 0x01
    case 4 => 0x03
    case 8 => 0x07
    case 16 => 0x0F
    case 32 => 0x1F
    case 64 => 0x1F
    case 128 => 0x1F
  }

  /**
   * The bank a write of `val` to 0x2000-0x3FFF selects: the masked value, with 0 read
   * as 1. For at most 32 banks the selected bank exists.
   */
  function SelectRomBank(val: bv8, bankSize: nat): (bank: nat)
    requires HasBankMask(bankSize)
    ensures 1 <= bank < 32
    ensures bankSize <= 32 ==> bank < bankSize
    ensures val & RomNumberBitMask(bankSize) != 0 ==> bank == (val & RomNumberBitMask(bankSize)) as int
    ensures val & RomNumberBitMask(bankSize) == 0 ==> bank == 1
  {
    var m := RomNumberBitMask(bankSize);
    assert val & m <= m && m <= 0x1F;
    var n := val & m;
    if n == 0 then 1 else n as int
  }

  /** The image offset of a switchable-bank address: bank `bank`, offset `address - 0x4000`. */
  function RomIndex(bank: nat, address: nat): (i: nat)
    requires 0x4000 <= address <= 0x7FFF
    ensures i / 0x4000 == bank && i % 0x4000 == address - 0x4000
  {
    0x4000 * bank + (address - 0x4000)
  }

  /** A write to the RAM-enable range enables RAM exactly when its low nibble is 0xA. */
  predicate IsRamEnableValue(val: bv8)
  {
    val & 0x0F == 0x0A
  }

  class Mbc1 {
    const metadata: Metadata
    const data: seq<bv8>
    var romHiBankNumber: nat
    var ramBankNumber: bv8
    var switchableMode: bool

    /** The selected bank is never 0 and, for at most 32 banks, exists. */
    ghost predicate Valid()
      reads this
    {
      1 <= romHiBankNumber < 32
      && (HasBankMask(metadata.romSize.bankSize) && metadata.romSize.bankSize <= 32
          ==> romHiBankNumber < metadata.romSize.bankSize)
    }

    /** `new`: bank 1 selected, simple banking mode. */
    constructor (metadata: Metadata, bytes: seq<bv8>)
      ensures Valid()
      ensures this.metadata == metadata && data == bytes
      ensures romHiBankNumber == 1 && ramBankNumber == 0 && !switchableMode
    {
      this.metadata := metadata;
      data := bytes;
      romHiBankNumber := 1;
      ramBankNumber := 0;
      switchableMode := false;
    }

    /** Reads outside ROM and external RAM, or past the end of the image, abort. */
    predicate CanGet(address: nat)
      reads this
    {
      (address <= 0x3FFF && address < |data|)
      || (0x4000 <= address <= 0x7FFF && RomIndex(romHiBankNumber, address) < |data|)
      || (0xA000 <= address <= 0xBFFF)
    }

    /** `get`: fixed bank 0, the selected bank, and 0xFF for the absent external RAM. */
    function Get(address: nat): (v: bv8)
      reads this
      requires CanGet(address)
      ensures address <= 0x3FFF ==> v == data[address]
      ensures 0x4000 <= address <= 0x7FFF ==> v == data[0x4000 * romHiBankNumber + (address - 0x4000)]
      ensures 0xA000 <= address <= 0xBFFF ==> v == 0xFF
    {
      if address <= 0x3FFF then data[address]
      else if address <= 0x7FFF then data[RomIndex(romHiBankNumber, address)]
      else 0xFF
    }

    /** Writes outside ROM and external RAM abort; so does a bank write with an unknown bank count. */
    predicate CanSet(address: nat)
    {
      address <= 0x1FFF
      || (0x2000 <= address <= 0x3FFF && HasBankMask(metadata.romSize.bankSize))
      || (0x4000 <= address <= 0x7FFF)
      || (0xA000 <= address <= 0xBFFF)
    }

    /** The bank registers after `set`: each changes only under its own address range. */
    twostate predicate Stored(address: nat, val: bv8)
      requires old(Valid()) && CanSet(address)
      reads this
    {
      (0x2000 <= address <= 0x3FFF ==> romHiBankNumber == SelectRomBank(val, metadata.romSize.bankSize))
      && (!(0x2000 <= address <= 0x3FFF) ==> romHiBankNumber == old(romHiBankNumber))
      && (0x6000 <= address <= 0x7FFF ==> switchableMode == (val & 1 == 1))
      && (!(0x6000 <= address <= 0x7FFF) ==> switchableMode == old(switchableMode))
      && ramBankNumber == old(ramBankNumber)
    }

    /**
     * `set`: only the bank-select and mode ranges change state; the mode bit is
     * recorded but no read depends on it.
     */
    method Set(address: nat, val: bv8)
      requires Valid() && CanSet(address)
      modifies this
      ensures Valid() && Stored(address, val)
      ensures !(0x2000 <= address <= 0x3FFF) ==> forall a: nat :: CanGet(a) <==> old(CanGet(a))
      ensures !(0x2000 <= address <= 0x3FFF) ==> forall a: nat :: CanGet(a) ==> Get(a) == old(Get(a))
    {
      if 0x2000 <= address <= 0x3FFF {
        romHiBankNumber := SelectRomBank(val, metadata.romSize.bankSize);
      } else if 0x6000 <= address <= 0x7FFF {
        switchableMode := val & 1 == 1;
      }
    }
  }
}
