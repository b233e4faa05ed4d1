/** A cartridge without a bank controller: the image is mapped as it is and writes are ignored. */
module CartridgeRomOnly {

  datatype RomOnly = RomOnly(data: seq<bv8>)
  {
    /** A read past the end of the image aborts the emulator. */
    predicate CanGet(address: nat)
    {
      address < |data|
    }

    /** `get`: the image byte at that address. */
    function Get(address: nat): (v: bv8)
      requires CanGet(address)
      ensures v == data[address]
    {
      data[address]
    }

    /** `set` changes nothing. */
    function Set(address: nat, val: bv8): (c: RomOnly)
      ensures c.data == data
    {
      this
    }
  }

  /** Applies a sequence of writes in order. */
  function SetAll(c: RomOnly, writes: seq<(nat, bv8)>): RomOnly
    decreases |writes|
  {
    if writes == [] then c else SetAll(c.Set(writes[0].0, writes[0].1), writes[1..])
  }

  /** Whatever is written, every read returns the original image byte. */
  lemma {:induction false} ReadsIgnoreWrites(c: RomOnly, writes: seq<(nat, bv8)>, address: nat)
    requires c.CanGet(address)
    ensures SetAll(c, writes).data == c.data
    ensures SetAll(c, writes).Get(address) == c.Get(address)
    decreases |writes|
  {
    if writes != [] {
      ReadsIgnoreWrites(c.Set(writes[0].0, writes[0].1), writes[1..], address);
    }
  }
}
