/**
 * MBC1 with battery-backed external RAM. It behaves as MBC1 with RAM, except that an
 * enabled write to RAM of an unmapped size aborts instead of being dropped. Mirroring
 * each RAM write into the save file is not part of this model.
 */
module CartridgeMbc1RamBattery {
  import opened RamSizeType
  import opened CartridgeMetadata
  import opened CartridgeMbc1
  import opened CartridgeMbc1Ram

  class Mbc1RamBattery {
    const metadata: Metadata
    const data: seq<bv8>
    var romHiBankNumber: nat
    var ramBankNumber: bv8
    var ramEnabled: bool
    var switchableMode: bool
    var ram: seq<bv8>

    /** As MBC1, and the RAM is as large as the header says. */
    ghost predicate Valid()
      reads this
    {
      WellFormed(metadata)
      && 1 <= romHiBankNumber < 32
      && (HasBankMask(metadata.romSize.bankSize) && metadata.romSize.bankSize <= 32
          ==> romHiBankNumber < metadata.romSize.bankSize)
      && |ram| == metadata.ramSize.size
    }

    /** `new`: bank 1, RAM disabled and zero-filled. */
    constructor (metadata: Metadata, bytes: seq<bv8>)
      requires WellFormed(metadata)
      ensures Valid()
      ensures this.metadata == metadata && data == bytes
      ensures romHiBankNumber == 1 && ramBankNumber == 0 && !ramEnabled && !switchableMode
      ensures forall k :: 0 <= k < |ram| ==> ram[k] == 0
    {
      this.metadata := metadata;
      data := bytes;
      romHiBankNumber := 1;
      ramBankNumber := 0;
      ramEnabled := false;
      switchableMode := false;
      ram := seq(metadata.ramSize.size, _ => 0);
    }

    /** Reads outside ROM and RAM, past the image, or of enabled RAM of an unmapped size abort. */
    predicate CanGet(address: nat)
      reads this
    {
      (address <= 0x3FFF && address < |data|)
      || (0x4000 <= address <= 0x7FFF && RomIndex(romHiBankNumber, address) < |data|)
      || (0xA000 <= address <= 0xBFFF && (ramEnabled ==> IsMappedRam(metadata.ramSize)))
    }

    /** `get`: ROM as MBC1; RAM reads 0xFF while disabled. */
    function Get(address: nat): (v: bv8)
      reads this
      requires Valid() && CanGet(address)
      ensures address <= 0x3FFF ==> v == data[address]
      ensures 0x4000 <= address <= 0x7FFF ==> v == data[0x4000 * romHiBankNumber + (address - 0x4000)]
      ensures 0xA000 <= address <= 0xBFFF && !ramEnabled ==> v == 0xFF
      ensures 0xA000 <= address <= 0xBFFF && ramEnabled ==> v == ram[RamIndex(address, metadata.ramSize)]
    {
      if address <= 0x3FFF then data[address]
      else if address <= 0x7FFF then data[RomIndex(romHiBankNumber, address)]
      else if !ramEnabled then 0xFF
      else ram[RamIndex(address, metadata.ramSize)]
    }

    /** As MBC1 with RAM, and an enabled RAM write to an unmapped size aborts. */
    predicate CanSet(address: nat)
      reads this
    {
      address <= 0x1FFF
      || (0x2000 <= address <= 0x3FFF && HasBankMask(metadata.romSize.bankSize))
      || (0x4000 <= address <= 0x7FFF)
      || (0xA000 <= address <= 0xBFFF && (ramEnabled ==> IsMappedRam(metadata.ramSize)))
    }

    /** The registers and RAM after `set`: each changes only under its own address range. */
    twostate predicate Stored(address: nat, val: bv8)
      requires old(Valid()) && old(CanSet(address))
      reads this
    {
      (address <= 0x1FFF ==> ramEnabled == IsRamEnableValue(val))
      && (!(address <= 0x1FFF) ==> ramEnabled == old(ramEnabled))
      && (0x2000 <= address <= 0x3FFF ==> romHiBankNumber == SelectRomBank(val, metadata.romSize.bankSize))
      && (!(0x2000 <= address <= 0x3FFF) ==> romHiBankNumber == old(romHiBankNumber))
      && (0x4000 <= address <= 0x5FFF ==> ramBankNumber == old(ramBankNumber) | (val & 0x03))
      && (!(0x4000 <= address <= 0x5FFF) ==> ramBankNumber == old(ramBankNumber))
      && (0x6000 <= address <= 0x7FFF ==> switchableMode == (val & 1 == 1))
      && (!(0x6000 <= address <= 0x7FFF) ==> switchableMode == old(switchableMode))
      && (0xA000 <= address <= 0xBFFF && ramEnabled ==> ram == old(ram)[RamIndex(address, metadata.ramSize) := val])
      && (!(0xA000 <= address <= 0xBFFF && ramEnabled) ==> ram == old(ram))
    }

    /**
     * `set`: RAM enable, ROM bank, RAM bank bits (OR-ed in, never cleared), mode, and a
     * RAM write that is dropped while RAM is disabled.
     */
    method Set(address: nat, val: bv8)
      requires Valid() && CanSet(address)
      modifies this
      ensures Valid() && Stored(address, val)
      ensures ramBankNumber & old(ramBankNumber) == old(ramBankNumber)
      ensures 0xA000 <= address <= 0xBFFF && ramEnabled ==> Get(address) == val
    {
      if address <= 0x1FFF {
        ramEnabled := IsRamEnableValue(val);
      } else if address <= 0x3FFF {
        romHiBankNumber := SelectRomBank(val, metadata.romSize.bankSize);
      } else if address <= 0x5FFF {
        OrKeepsBits(ramBankNumber, val & 0x03);
        ramBankNumber := ramBankNumber | (val & 0x03);
      } else if address <= 0x7FFF {
        switchableMode := val & 1 == 1;
      } else if ramEnabled {
        ram := ram[RamIndex(address, metadata.ramSize) := val];
      }
    }
  }
}
