/**
 * MBC3 with battery-backed RAM. 0x4000-0x5FFF selects either a RAM bank (0x00-0x03)
 * or a clock register (0x08-0x0C); until the first selection 0xA000-0xBFFF is in no
 * mode and any access there aborts, as does any clock-register access. Mirroring each
 * RAM write into the save file is not part of this model.
 */
module CartridgeMbc3RamBattery {
  import opened CartridgeMetadata
  import opened CartridgeMbc1

  datatype RamRtcMode = Ram | Rtc | None

  /** The bank a write to 0x2000-0x3FFF selects: the whole byte, with 0 read as 1. */
  function SelectFullBank(val: bv8): (bank: nat)
    ensures 1 <= bank <= 255
    ensures val != 0 ==> bank == val as int
  {
    if val == 0 then 1 else val as int
  }

  /** The RAM offset of an external-RAM address: 8 KiB per bank. */
  function RamIndex(bank: bv8, address: nat): (i: nat)
    requires 0xA000 <= address <= 0xBFFF
    ensures i / 0x2000 == bank as int && i % 0x2000 == address - 0xA000
  {
    0x2000 * bank as int + (address - 0xA000)
  }

  class Mbc3RamBattery {
    const metadata: Metadata
    const data: seq<bv8>
    var romHiBankNumber: nat
    var ramBankNumber: bv8
    var ramRtcEnabled: bool
    var switchableMode: bool
    var ramRtcMode: RamRtcMode
    var rtcDataLatchWrites: bv8
    var ram: seq<bv8>

    /** The ROM bank is never 0, the RAM bank is at most 3, and the RAM is as large as the header says. */
    ghost predicate Valid()
      reads this
    {
      1 <= romHiBankNumber <= 255 && ramBankNumber <= 0x03 && |ram| == metadata.ramSize.size
    }

    /** `new`: bank 1, no mode selected, RAM disabled and zero-filled, latch byte 0xFF. */
    constructor (metadata: Metadata, bytes: seq<bv8>)
      ensures Valid()
      ensures this.metadata == metadata && data == bytes
      ensures romHiBankNumber == 1 && ramBankNumber == 0 && !ramRtcEnabled && !switchableMode
      ensures ramRtcMode == None && rtcDataLatchWrites == 0xFF
      ensures forall k :: 0 <= k < |ram| ==> ram[k] == 0
    {
      this.metadata := metadata;
      data := bytes;
      romHiBankNumber := 1;
      ramBankNumber := 0;
      ramRtcEnabled := false;
      switchableMode := false;
      ramRtcMode := None;
      rtcDataLatchWrites := 0xFF;
      ram := seq(metadata.ramSize.size, _ => 0);
    }

    /**
     * Reads abort outside ROM and RAM, past the image, in clock or no mode, and past
     * the end of RAM.
     */
    predicate CanGet(address: nat)
      reads this
    {
      (address <= 0x3FFF && address < |data|)
      || (0x4000 <= address <= 0x7FFF && RomIndex(romHiBankNumber, address) < |data|)
      || (0xA000 <= address <= 0xBFFF && ramRtcMode == Ram
          && (ramRtcEnabled ==> RamIndex(ramBankNumber, address) < |ram|))
    }

    /** `get`: ROM as MBC1; in RAM mode, the selected RAM bank, or 0xFF while disabled. */
    function Get(address: nat): (v: bv8)
      reads this
      requires CanGet(address)
      ensures address <= 0x3FFF ==> v == data[address]
      ensures 0x4000 <= address <= 0x7FFF ==> v == data[0x4000 * romHiBankNumber + (address - 0x4000)]
      ensures 0xA000 <= address <= 0xBFFF && !ramRtcEnabled ==> v == 0xFF
      ensures 0xA000 <= address <= 0xBFFF && ramRtcEnabled
        ==> v == ram[0x2000 * ramBankNumber as int + (address - 0xA000)]
    {
      if address <= 0x3FFF then data[address]
      else if address <= 0x7FFF then data[RomIndex(romHiBankNumber, address)]
      else if !ramRtcEnabled then 0xFF
      else ram[RamIndex(ramBankNumber, address)]
    }

    /** Writes abort outside ROM and RAM, in clock or no mode, and past the end of RAM. */
    predicate CanSet(address: nat)
      reads this
    {
      address <= 0x7FFF
      || (0xA000 <= address <= 0xBFFF && ramRtcMode == Ram
          && (ramRtcEnabled ==> RamIndex(ramBankNumber, address) < |ram|))
    }

    /** The registers and RAM after `set`: each changes only under its own address range. */
    twostate predicate Stored(address: nat, val: bv8)
      requires old(Valid()) && old(CanSet(address))
      reads this
    {
      (address <= 0x1FFF ==> ramRtcEnabled == IsRamEnableValue(val))
      && (!(address <= 0x1FFF) ==> ramRtcEnabled == old(ramRtcEnabled))
      && (0x2000 <= address <= 0x3FFF ==> romHiBankNumber == SelectFullBank(val))
      && (!(0x2000 <= address <= 0x3FFF) ==> romHiBankNumber == old(romHiBankNumber))
      && (0x4000 <= address <= 0x5FFF && val <= 0x03 ==> ramRtcMode == Ram && ramBankNumber == val)
      && (0x4000 <= address <= 0x5FFF && 0x08 <= val <= 0x0C ==> ramRtcMode == Rtc && ramBankNumber == old(ramBankNumber))
      && (!(0x4000 <= address <= 0x5FFF && (val <= 0x03 || 0x08 <= val <= 0x0C)) ==> ramRtcMode == old(ramRtcMode) && ramBankNumber == old(ramBankNumber))
      && (0x6000 <= address <= 0x7FFF ==> rtcDataLatchWrites == val)
      && (!(0x6000 <= address <= 0x7FFF) ==> rtcDataLatchWrites == old(rtcDataLatchWrites))
      && switchableMode == old(switchableMode)
      && (0xA000 <= address <= 0xBFFF && ramRtcEnabled ==> ram == old(ram)[RamIndex(old(ramBankNumber), address) := val])
      && (!(0xA000 <= address <= 0xBFFF && ramRtcEnabled) ==> ram == old(ram))
    }

    /**
     * `set`: RAM/clock enable, ROM bank, bank or clock selection, latch byte, and a RAM
     * write that is dropped while disabled.
     */
    method Set(address: nat, val: bv8)
      requires Valid() && CanSet(address)
      modifies this
      ensures Valid() && Stored(address, val)
      ensures 0xA000 <= address <= 0xBFFF && ramRtcEnabled ==> Get(address) == val
    {
      if address <= 0x1FFF {
        ramRtcEnabled := IsRamEnableValue(val);
      } else if address <= 0x3FFF {
        romHiBankNumber := SelectFullBank(val);
      } else if address <= 0x5FFF {
        if val <= 0x03 {
          ramRtcMode := Ram;
          ramBankNumber := val;
        } else if 0x08 <= val <= 0x0C {
          ramRtcMode := Rtc;
        }
      } else if address <= 0x7FFF {
        rtcDataLatchWrites := val;
      } else if ramRtcEnabled {
        ram := ram[RamIndex(ramBankNumber, address) := val];
      }
    }
  }
}
