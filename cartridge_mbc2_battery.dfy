/**
 * MBC2 with its built-in 512 x 4-bit RAM. In 0x0000-0x3FFF, address bit 8 chooses the
 * register: clear is RAM enable, set is the ROM bank (the low nibble, 0 read as 1).
 * RAM is addressed by the low nine address bits and stores only low nibbles. Mirroring
 * each RAM write into the save file is not part of this model.
 */
module CartridgeMbc2Battery {
  import opened CartridgeMetadata
  import opened CartridgeMbc1

  const RamSize: nat := 512

  /** `address & 0x1FF`: the RAM cell an address in 0xA000-0xBFFF reaches. */
  function RamIndex(address: nat): (i: nat)
    ensures i < RamSize
    ensures i == address % 512
  {
    address % 512
  }

  /** `address & 0x100 == 0`: the write goes to the RAM-enable register. */
  predicate IsRamEnableAddress(address: nat)
  {
    (address / 256) % 2 == 0
  }

  /** The bank a write selects: the low nibble, with 0 read as 1. */
  function SelectNibbleBank(val: bv8): (bank: nat)
    ensures 1 <= bank <= 15
    ensures val & 0x0F != 0 ==> bank == (val & 0x0F) as int
  {
    if val & 0x0F == 0 then 1 else (val & 0x0F) as int
  }

  class Mbc2Battery {
    const metadata: Metadata
    const data: seq<bv8>
    var romHiBankNumber: nat
    var ramEnabled: bool
    var ram: seq<bv8>

    /** The bank lies in 1..15 and RAM has 512 cells. */
    ghost predicate Valid()
      reads this
    {
      1 <= romHiBankNumber <= 15 && |ram| == RamSize
    }

    /** `new`: bank 1, RAM disabled and zero-filled (a save file's contents are not modelled). */
    constructor (metadata: Metadata, bytes: seq<bv8>)
      ensures Valid()
      ensures this.metadata == metadata && data == bytes
      ensures romHiBankNumber == 1 && !ramEnabled
      ensures forall k :: 0 <= k < |ram| ==> ram[k] == 0
    {
      this.metadata := metadata;
      data := bytes;
      romHiBankNumber := 1;
      ramEnabled := false;
      ram := seq(RamSize, _ => 0);
    }

    predicate CanGet(address: nat)
      reads this
    {
      (address <= 0x3FFF && address < |data|)
      || (0x4000 <= address <= 0x7FFF && RomIndex(romHiBankNumber, address) < |data|)
      || (0xA000 <= address <= 0xBFFF)
    }

    /** `get`: ROM as MBC1; RAM reads 0xFF while disabled. */
    function Get(address: nat): (v: bv8)
      reads this
      requires Valid() && CanGet(address)
      ensures address <= 0x3FFF ==> v == data[address]
      ensures 0x4000 <= address <= 0x7FFF ==> v == data[0x4000 * romHiBankNumber + (address - 0x4000)]
      ensures 0xA000 <= address <= 0xBFFF && !ramEnabled ==> v == 0xFF
      ensures 0xA000 <= address <= 0xBFFF && ramEnabled ==> v == ram[address % 512]
    {
      if address <= 0x3FFF then data[address]
      else if address <= 0x7FFF then data[RomIndex(romHiBankNumber, address)]
      else if !ramEnabled then 0xFF
      else ram[RamIndex(address)]
    }

    /** The registers and RAM after `set`: each changes only under its own address range. */
    twostate predicate Stored(address: nat, val: bv8)
      requires old(Valid())
      reads this
    {
      (address <= 0x3FFF && IsRamEnableAddress(address) ==> ramEnabled == IsRamEnableValue(val))
      && (!(address <= 0x3FFF && IsRamEnableAddress(address)) ==> ramEnabled == old(ramEnabled))
      && (address <= 0x3FFF && !IsRamEnableAddress(address) ==> romHiBankNumber == SelectNibbleBank(val))
      && (!(address <= 0x3FFF && !IsRamEnableAddress(address)) ==> romHiBankNumber == old(romHiBankNumber))
      && (0xA000 <= address <= 0xBFFF && ramEnabled ==> ram == old(ram)[address % 512 := val & 0x0F])
      && (!(0xA000 <= address <= 0xBFFF && ramEnabled) ==> ram == old(ram))
    }

    /**
     * `set`: never aborts. Writes outside 0x0000-0x3FFF and 0xA000-0xBFFF, and RAM
     * writes while RAM is disabled, change nothing.
     */
    method Set(address: nat, val: bv8)
      requires Valid()
      modifies this
      ensures Valid() && Stored(address, val)
      ensures 0xA000 <= address <= 0xBFFF && ramEnabled ==> Get(address) == val & 0x0F
    {
      if address <= 0x3FFF {
        if IsRamEnableAddress(address) {
          ramEnabled := IsRamEnableValue(val);
        } else {
          romHiBankNumber := SelectNibbleBank(val);
        }
      } else if 0xA000 <= address <= 0xBFFF {
        if ramEnabled {
          ram := ram[RamIndex(address) := val & 0x0F];
        }
      }
    }
  }
}
