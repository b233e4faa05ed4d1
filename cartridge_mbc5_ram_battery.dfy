/**
 * MBC5 with battery-backed RAM: the MBC5 bank bytes, a RAM-enable register, and 8 KiB
 * RAM banks selected by the whole byte written to 0x4000-0x5FFF. Jimbot's unused
 * clock-mode and latch fields are omitted; mirroring each RAM write into the save file
 * is not part of this model.
 */
module CartridgeMbc5RamBattery {
  import opened Bits
  import opened CartridgeMetadata
  import opened CartridgeMbc1
  import opened CartridgeMbc3RamBattery
  import opened CartridgeMbc5

  class Mbc5RamBattery {
    const metadata: Metadata
    const data: seq<bv8>
    var romHiBankNumber: bv16
    var ramBankNumber: bv8
    var ramEnabled: bool
    var switchableMode: bool
    var ram: seq<bv8>

    /** The RAM is as large as the header says. */
    ghost predicate Valid()
      reads this
    {
      |ram| == metadata.ramSize.size
    }

    /** `new`: bank 1, RAM disabled and zero-filled. */
    constructor (metadata: Metadata, bytes: seq<bv8>)
      ensures Valid()
      ensures this.metadata == metadata && data == bytes
      ensures romHiBankNumber == 1 && ramBankNumber == 0 && !ramEnabled && !switchableMode
      ensures forall k :: 0 <= k < |ram| ==> ram[k] == 0
    {
      this.metadata := metadata;
      data := bytes;
      romHiBankNumber := 1;
      ramBankNumber := 0;
      ramEnabled := false;
      switchableMode := false;
      ram := seq(metadata.ramSize.size, _ => 0);
    }

    /** Reads abort outside ROM and RAM, past the image, and past the end of enabled RAM. */
    predicate CanGet(address: nat)
      reads this
    {
      (address <= 0x3FFF && address < |data|)
      || (0x4000 <= address <= 0x7FFF && RomIndex(romHiBankNumber as int, address) < |data|)
      || (0xA000 <= address <= 0xBFFF && (ramEnabled ==> RamIndex(ramBankNumber, address) < |ram|))
    }

    /** `get`: ROM as MBC5; RAM reads the selected bank, or 0xFF while disabled. */
    function Get(address: nat): (v: bv8)
      reads this
      requires CanGet(address)
      ensures address <= 0x3FFF ==> v == data[address]
      ensures 0x4000 <= address <= 0x7FFF
        ==> v == data[0x4000 * romHiBankNumber as int + (address - 0x4000)]
      ensures 0xA000 <= address <= 0xBFFF && !ramEnabled ==> v == 0xFF
      ensures 0xA000 <= address <= 0xBFFF && ramEnabled
        ==> v == ram[0x2000 * ramBankNumber as int + (address - 0xA000)]
    {
      if address <= 0x3FFF then data[address]
      else if address <= 0x7FFF then data[RomIndex(romHiBankNumber as int, address)]
      else if !ramEnabled then 0xFF
      else ram[RamIndex(ramBankNumber, address)]
    }

    /** Only an enabled RAM write past the end of RAM aborts. */
    predicate CanSet(address: nat)
      reads this
    {
      0xA000 <= address <= 0xBFFF && ramEnabled ==> RamIndex(ramBankNumber, address) < |ram|
    }

    /** The registers and RAM after `set`: each changes only under its own address range. */
    twostate predicate Stored(address: nat, val: bv8)
      requires old(Valid()) && old(CanSet(address))
      reads this
    {
      (address <= 0x1FFF ==> ramEnabled == IsRamEnableValue(val))
      && (!(address <= 0x1FFF) ==> ramEnabled == old(ramEnabled))
      && (0x2000 <= address <= 0x2FFF ==> Lo(romHiBankNumber) == val && Hi(romHiBankNumber) == Hi(old(romHiBankNumber)))
      && (0x3000 <= address <= 0x3FFF ==> Hi(romHiBankNumber) == val && Lo(romHiBankNumber) == Lo(old(romHiBankNumber)))
      && (!(0x2000 <= address <= 0x3FFF) ==> romHiBankNumber == old(romHiBankNumber))
      && (0x4000 <= address <= 0x5FFF ==> ramBankNumber == val)
      && (!(0x4000 <= address <= 0x5FFF) ==> ramBankNumber == old(ramBankNumber))
      && switchableMode == old(switchableMode)
      && (0xA000 <= address <= 0xBFFF && ramEnabled ==> ram == old(ram)[RamIndex(old(ramBankNumber), address) := val])
      && (!(0xA000 <= address <= 0xBFFF && ramEnabled) ==> ram == old(ram))
    }

    /** `set`: RAM enable, the two bank bytes, the RAM bank, and a RAM write dropped while disabled. */
    method Set(address: nat, val: bv8)
      requires Valid() && CanSet(address)
      modifies this
      ensures Valid() && Stored(address, val)
      ensures 0xA000 <= address <= 0xBFFF && ramEnabled ==> Get(address) == val
    {
      if address <= 0x1FFF {
        ramEnabled := IsRamEnableValue(val);
      } else if 0x2000 <= address <= 0x2FFF {
        romHiBankNumber := WithLowByte(romHiBankNumber, val);
      } else if 0x3000 <= address <= 0x3FFF {
        romHiBankNumber := WithHighByte(romHiBankNumber, val);
      } else if 0x4000 <= address <= 0x5FFF {
        ramBankNumber := val;
      } else if 0xA000 <= address <= 0xBFFF && ramEnabled {
        ram := ram[RamIndex(ramBankNumber, address) := val];
      }
    }
  }
}
