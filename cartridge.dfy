/**
 * The cartridge slot: one of the bank controllers, dispatched by kind. Reads and
 * writes go to the controller's own `get`/`set`; every controller except ROM-only
 * owns exactly one mutable object.
 */
module Cartridge {
  import opened CartridgeRomOnly
  import opened CartridgeMbc1
  import opened CartridgeMbc1Ram
  import opened CartridgeMbc1RamBattery
  import opened CartridgeMbc2Battery
  import opened CartridgeMbc3RamBattery
  import opened CartridgeMbc5
  import opened CartridgeMbc5RamBattery

  datatype Cartridge =
    | RomOnlyCart(romOnly: RomOnly)
    | Mbc1Cart(mbc1: Mbc1)
    | Mbc1RamCart(mbc1Ram: Mbc1Ram)
    | Mbc1RamBatteryCart(mbc1RamBattery: Mbc1RamBattery)
    | Mbc2BatteryCart(mbc2Battery: Mbc2Battery)
    | Mbc3RamBatteryCart(mbc3RamBattery: Mbc3RamBattery)
    | Mbc5Cart(mbc5: Mbc5)
    | Mbc5RamBatteryCart(mbc5RamBattery: Mbc5RamBattery)
  {
    /** The controller object whose state the slot owns. */
    ghost function Repr(): set<object>
    {
      match this
      case RomOnlyCart(_) => {}
      case Mbc1Cart(c) => {c}
      case Mbc1RamCart(c) => {c}
      case Mbc1RamBatteryCart(c) => {c}
      case Mbc2BatteryCart(c) => {c}
      case Mbc3RamBatteryCart(c) => {c}
      case Mbc5Cart(c) => {c}
      case Mbc5RamBatteryCart(c) => {c}
    }

    ghost predicate Valid()
      reads Repr()
    {
      match this
      case RomOnlyCart(_) => true
      case Mbc1Cart(c) => c.Valid()
      case Mbc1RamCart(c) => c.Valid()
      case Mbc1RamBatteryCart(c) => c.Valid()
      case Mbc2BatteryCart(c) => c.Valid()
      case Mbc3RamBatteryCart(c) => c.Valid()
      case Mbc5Cart(c) => true
      case Mbc5RamBatteryCart(c) => c.Valid()
    }

    /** The controller's read does not abort. */
    predicate CanGet(address: nat)
      reads Repr()
    {
      match this
      case RomOnlyCart(c) => c.CanGet(address)
      case Mbc1Cart(c) => c.CanGet(address)
      case Mbc1RamCart(c) => c.CanGet(address)
      case Mbc1RamBatteryCart(c) => c.CanGet(address)
      case Mbc2BatteryCart(c) => c.CanGet(address)
      case Mbc3RamBatteryCart(c) => c.CanGet(address)
      case Mbc5Cart(c) => c.CanGet(address)
      case Mbc5RamBatteryCart(c) => c.CanGet(address)
    }

    /** `Cartridge::get`, dispatched. */
    function Get(address: nat): bv8
      reads Repr()
      requires Valid() && CanGet(address)
    {
      match this
      case RomOnlyCart(c) => c.Get(address)
      case Mbc1Cart(c) => c.Get(address)
      case Mbc1RamCart(c) => c.Get(address)
      case Mbc1RamBatteryCart(c) => c.Get(address)
      case Mbc2BatteryCart(c) => c.Get(address)
      case Mbc3RamBatteryCart(c) => c.Get(address)
      case Mbc5Cart(c) => c.Get(address)
      case Mbc5RamBatteryCart(c) => c.Get(address)
    }

    /** The controller's write does not abort. */
    predicate CanSet(address: nat)
      reads Repr()
    {
      match this
      case RomOnlyCart(_) => true
      case Mbc1Cart(c) => c.CanSet(address)
      case Mbc1RamCart(c) => c.CanSet(address)
      case Mbc1RamBatteryCart(c) => c.CanSet(address)
      case Mbc2BatteryCart(_) => true
      case Mbc3RamBatteryCart(c) => c.CanSet(address)
      case Mbc5Cart(_) => true
      case Mbc5RamBatteryCart(c) => c.CanSet(address)
    }

    /**
     * A write to `address` lands in cartridge RAM: the address is in 0xA000-0xBFFF and
     * the controller has RAM that is enabled (and, on MBC1 with RAM, of a mapped size).
     */
    predicate StoresRam(address: nat)
      reads Repr()
    {
      0xA000 <= address <= 0xBFFF
      && match this
         case RomOnlyCart(_) => false
         case Mbc1Cart(_) => false
         case Mbc1RamCart(c) => c.ramEnabled && IsMappedRam(c.metadata.ramSize)
         case Mbc1RamBatteryCart(c) => c.ramEnabled
         case Mbc2BatteryCart(c) => c.ramEnabled
         case Mbc3RamBatteryCart(c) => c.ramRtcEnabled
         case Mbc5Cart(_) => false
         case Mbc5RamBatteryCart(c) => c.ramEnabled
    }

    /**
     * `Cartridge::set`, dispatched: the controller's own effect (`Stored`); a ROM-only
     * cartridge ignores it, and a RAM write reads back (MBC2 keeps the low nibble).
     */
    method Set(address: nat, val: bv8)
      requires Valid() && CanSet(address)
      modifies Repr()
      ensures Valid() && Stored(this, address, val)
      ensures RomOnlyCart? ==> unchanged(Repr())
      ensures old(StoresRam(address)) ==>
        CanGet(address) && Get(address) == if Mbc2BatteryCart? then val & 0x0F else val
    {
      match this {
        case RomOnlyCart(_) =>
        case Mbc1Cart(c) => c.Set(address, val);
        case Mbc1RamCart(c) => c.Set(address, val);
        case Mbc1RamBatteryCart(c) => c.Set(address, val);
        case Mbc2BatteryCart(c) => c.Set(address, val);
        case Mbc3RamBatteryCart(c) => c.Set(address, val);
        case Mbc5Cart(c) => c.Set(address, val);
        case Mbc5RamBatteryCart(c) => c.Set(address, val);
      }
    }
  }

  /** What a write leaves in the slot: the addressed controller's own `set` effect. */
  twostate predicate Stored(c: Cartridge, address: nat, val: bv8)
    requires old(c.Valid()) && old(c.CanSet(address))
    reads c.Repr()
  {
    match c
    case RomOnlyCart(_) => true
    case Mbc1Cart(m) => m.Stored(address, val)
    case Mbc1RamCart(m) => m.Stored(address, val)
    case Mbc1RamBatteryCart(m) => m.Stored(address, val)
    case Mbc2BatteryCart(m) => m.Stored(address, val)
    case Mbc3RamBatteryCart(m) => m.Stored(address, val)
    case Mbc5Cart(m) => m.Stored(address, val)
    case Mbc5RamBatteryCart(m) => m.Stored(address, val)
  }
}
