/**
 * MBC5 without RAM: a 16-bit ROM bank written a byte at a time (low byte at
 * 0x2000-0x2FFF, high byte at 0x3000-0x3FFF). Unlike MBC1, bank 0 can be selected
 * in 0x4000-0x7FFF.
 */
module CartridgeMbc5 {
  import opened Bits
  import opened CartridgeMbc1

  /** `(bank & 0xFF00) | val`: replaces the bank's low byte. */
  function WithLowByte(bank: bv16, val: bv8): (b: bv16)
    ensures b == Word(Hi(bank), val)
  {
    (bank & 0xFF00) | (val as bv16)
  }

  /** `(bank & 0x00FF) | (val << 8)`: replaces the bank's high byte with the whole value. */
  function WithHighByte(bank: bv16, val: bv8): (b: bv16)
    ensures b == Word(val, Lo(bank))
  {
    (bank & 0x00FF) | ((val as bv16) << 8)
  }

  /** Writing the low then the high byte selects the bank `Word(hi, lo)` whatever was selected before. */
  lemma SelectBothBytes(bank: bv16, lo: bv8, hi: bv8)
    ensures WithHighByte(WithLowByte(bank, lo), hi) == Word(hi, lo)
    ensures WithLowByte(WithHighByte(bank, hi), lo) == Word(hi, lo)
  {
    assert Lo(Word(Hi(bank), lo)) == lo;
    assert Hi(Word(hi, Lo(bank))) == hi;
  }

  class Mbc5 {
    const data: seq<bv8>
    var romHiBankNumber: bv16
    var ramBankNumber: bv8
    var switchableMode: bool

    /** `new`: bank 1. */
    constructor (bytes: seq<bv8>)
      ensures data == bytes
      ensures romHiBankNumber == 1 && ramBankNumber == 0 && !switchableMode
    {
      data := bytes;
      romHiBankNumber := 1;
      ramBankNumber := 0;
      switchableMode := false;
    }

    /** Reads outside 0x0000-0x7FFF, or past the image, abort. */
    predicate CanGet(address: nat)
      reads this
    {
      (address <= 0x3FFF && address < |data|)
      || (0x4000 <= address <= 0x7FFF && RomIndex(romHiBankNumber as int, address) < |data|)
    }

    /** `get`: fixed bank 0, then the selected bank (which may be 0). */
    function Get(address: nat): (v: bv8)
      reads this
      requires CanGet(address)
      ensures address <= 0x3FFF ==> v == data[address]
      ensures 0x4000 <= address <= 0x7FFF
        ==> v == data[0x4000 * romHiBankNumber as int + (address - 0x4000)]
    {
      if address <= 0x3FFF then data[address] else data[RomIndex(romHiBankNumber as int, address)]
    }

    /** The bank registers after `set`: each changes only under its own address range. */
    twostate predicate Stored(address: nat, val: bv8)
      reads this
    {
      (0x2000 <= address <= 0x2FFF ==> Lo(romHiBankNumber) == val && Hi(romHiBankNumber) == Hi(old(romHiBankNumber)))
      && (0x3000 <= address <= 0x3FFF ==> Hi(romHiBankNumber) == val && Lo(romHiBankNumber) == Lo(old(romHiBankNumber)))
      && (!(0x2000 <= address <= 0x3FFF) ==> romHiBankNumber == old(romHiBankNumber))
      && (0x4000 <= address <= 0x5FFF ==> ramBankNumber == val)
      && (!(0x4000 <= address <= 0x5FFF) ==> ramBankNumber == old(ramBankNumber))
      && switchableMode == old(switchableMode)
    }

    /** `set`: never aborts; only the two bank bytes and the RAM bank number change. */
    method Set(address: nat, val: bv8)
      modifies this
      ensures Stored(address, val)
    {
      if 0x2000 <= address <= 0x2FFF {
        romHiBankNumber := WithLowByte(romHiBankNumber, val);
      } else if 0x3000 <= address <= 0x3FFF {
        romHiBankNumber := WithHighByte(romHiBankNumber, val);
      } else if 0x4000 <= address <= 0x5FFF {
        ramBankNumber := val;
      }
    }
  }
}
