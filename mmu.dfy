/**
 * The memory bus: decodes a 16-bit address into the boot ROM, the cartridge, video
 * RAM, work RAM and its echo, OAM, the I/O registers, high RAM and the interrupt
 * registers, and performs OAM DMA.
 */
module Mmu {
  import opened Wrappers
  import opened Bits
  import opened Cartridge
  import Apu
  import Timer
  import Joypad
  import InterruptFlag

  /** I/O addresses that no device answers on a read; they read as 0xFF. */
  predicate IsUnmappedRead(address: u16)
  {
    (0xFEA0 <= address <= 0xFEFF) || address == 0xFF03 || (0xFF08 <= address <= 0xFF0E)
    || address == 0xFF15 || address == 0xFF1F || (0xFF27 <= address <= 0xFF2F)
    || address == 0xFF46 || (0xFF4C <= address <= 0xFF7F)
  }

  /** The addresses routed to the APU by reads and writes alike. */
  predicate IsApuAddress(address: u16)
  {
    (0xFF10 <= address <= 0xFF14) || (0xFF16 <= address <= 0xFF1E)
    || (0xFF20 <= address <= 0xFF26) || (0xFF30 <= address <= 0xFF3F)
  }

  lemma ApuAddressIsRegister(address: u16)
    requires IsApuAddress(address)
    ensures Apu.IsRegister(address)
  {
  }

  /** `dma`'s copy count: 0x9F bytes, so the last OAM byte is never copied. */
  const DmaLength: nat := 0x9F

  class MMU {
    var interruptFlags: bv8
    var interruptEnables: bv8
    var bootMode: bool
    const bootRom: array<bv8>
    const cart: Option<Cartridge>
    const vram: array<bv8>
    var bgp: bv8
    var lcdc: bv8
    var lcdstat: bv8
    var scy: bv8
    var scx: bv8
    var ly: bv8
    const apu: Apu.APU
    const wram: array<bv8>
    const oam: array<bv8>
    const hram: array<bv8>
    const timer: Timer.Timer
    var wx: bv8
    var wy: bv8
    var obp0: bv8
    var obp1: bv8
    var lyc: bv8
    var serialTransferData: bv8
    var serialTransferControl: bv8
    const joypad: Joypad.JoyPad
    ghost const Repr: set<object>

    /** The cartridge's objects, if a cartridge is inserted. */
    ghost function CartRepr(): set<object>
    {
      if cart.Some? then cart.value.Repr() else {}
    }

    /** The bus's own objects: itself, its memories and its simple devices. */
    ghost function Local(): set<object>
    {
      {this, bootRom, vram, wram, oam, hram, timer, joypad}
    }

    /** Every memory has its fixed size, and the memories are distinct arrays. */
    ghost predicate ValidMemories()
    {
      bootRom.Length == 0x100 && vram.Length == 0x2000 && wram.Length == 0x2000
      && oam.Length == 0xA0 && hram.Length == 0x7F
      && bootRom != vram && bootRom != wram && bootRom != oam && bootRom != hram
      && vram != wram && vram != oam && vram != hram
      && wram != oam && wram != hram && oam != hram
    }

    /** The bus, the APU and the cartridge own disjoint sets of objects. */
    ghost predicate ValidOwnership()
    {
      Repr == Local() + apu.Repr + CartRepr()
      && Local() !! apu.Repr && Local() !! CartRepr() && apu.Repr !! CartRepr()
      && apu in apu.Repr
    }

    /** Every memory has its fixed size, ownership is disjoint and every device is valid. */
    ghost predicate Valid()
      reads timer, Repr - Local()
    {
      ValidMemories() && ValidOwnership()
      && apu.Valid() && timer.Valid()
      && (cart.Some? ==> cart.value.Valid())
    }

    /** `new`: in boot mode, memories zeroed, STAT 0x84, devices in their default state. */
    constructor (rom: seq<bv8>, cartridge: Option<Cartridge>)
      requires |rom| == 0x100
      requires cartridge.Some? ==> cartridge.value.Valid()
      ensures Valid()
      ensures bootMode && cart == cartridge && bootRom[..] == rom
      ensures interruptFlags == 0 && interruptEnables == 0
      ensures lcdstat == 0x84 && lcdc == 0 && ly == 0 && scx == 0 && scy == 0
      ensures wx == 0 && wy == 0 && lyc == 0 && bgp == 0 && obp0 == 0 && obp1 == 0
      ensures forall k :: 0 <= k < 0x2000 ==> vram[k] == 0 && wram[k] == 0
      ensures forall k :: 0 <= k < 0xA0 ==> oam[k] == 0
      ensures forall k :: 0 <= k < 0x7F ==> hram[k] == 0
      ensures fresh(Repr - CartRepr())
    {
      interruptFlags, interruptEnables := 0, 0;
      bootMode := true;
      cart := cartridge;
      bgp, lcdc, lcdstat := 0, 0, 0x84;
      scy, scx, ly := 0, 0, 0;
      wx, wy, obp0, obp1, lyc := 0, 0, 0, 0, 0;
      serialTransferData, serialTransferControl := 0, 0;
      var cartObjects := if cartridge.Some? then cartridge.value.Repr() else {};
      var t, j, a := NewDevices(cartridge);
      var br, vr, wr, om, hr := NewMemories(rom, cartridge, {t, j} + a.Repr);
      bootRom, vram, wram, oam, hram := br, vr, wr, om, hr;
      timer, joypad, apu := t, j, a;
      Repr := {this, br, vr, wr, om, hr, t, j} + a.Repr + cartObjects;
      new;
      assert ValidMemories();
      assert ValidOwnership();
    }

    /** The boot ROM holding `rom`, and zeroed video, work, object and high RAM. */
    static method NewMemories(rom: seq<bv8>, cartridge: Option<Cartridge>, ghost others: set<object>)
      returns (br: array<bv8>, vr: array<bv8>, wr: array<bv8>, om: array<bv8>, hr: array<bv8>)
      requires cartridge.Some? ==> cartridge.value.Valid()
      ensures cartridge.Some? ==> cartridge.value.Valid()
      ensures fresh(br) && fresh(vr) && fresh(wr) && fresh(om) && fresh(hr)
      ensures {br, vr, wr, om, hr} !! others
      ensures cartridge.Some? ==> {br, vr, wr, om, hr} !! cartridge.value.Repr()
      ensures br[..] == rom && vr.Length == 0x2000 && wr.Length == 0x2000 && om.Length == 0xA0 && hr.Length == 0x7F
      ensures br != vr && br != wr && br != om && br != hr && vr != wr && vr != om && vr != hr
      ensures wr != om && wr != hr && om != hr
      ensures forall k :: 0 <= k < 0x2000 ==> vr[k] == 0 && wr[k] == 0
      ensures forall k :: 0 <= k < 0xA0 ==> om[k] == 0
      ensures forall k :: 0 <= k < 0x7F ==> hr[k] == 0
    {
      br := Memory(rom);
      vr := ZeroMemory(0x2000);
      wr := ZeroMemory(0x2000);
      om := ZeroMemory(0xA0);
      hr := ZeroMemory(0x7F);
    }

    /** The timer, the joypad and the APU in their power-on state. */
    static method NewDevices(cartridge: Option<Cartridge>) returns (t: Timer.Timer, j: Joypad.JoyPad, a: Apu.APU)
      requires cartridge.Some? ==> cartridge.value.Valid()
      ensures cartridge.Some? ==> cartridge.value.Valid()
      ensures fresh(t) && fresh(j) && fresh(a.Repr) && a in a.Repr
      ensures {t, j} !! a.Repr
      ensures cartridge.Some? ==> {t, j} !! cartridge.value.Repr() && a.Repr !! cartridge.value.Repr()
      ensures t.Valid() && a.Valid()
    {
      t := new Timer.Timer();
      j := new Joypad.JoyPad();
      a := new Apu.APU();
    }

    /** A fresh memory holding `contents`. */
    static method Memory(contents: seq<bv8>) returns (m: array<bv8>)
      ensures fresh(m) && m[..] == contents
    {
      m := new bv8[|contents|](k requires 0 <= k < |contents| => contents[k]);
    }

    /** A fresh memory of `size` zero bytes. */
    static method ZeroMemory(size: nat) returns (m: array<bv8>)
      ensures fresh(m) && m.Length == size
      ensures forall k :: 0 <= k < size ==> m[k] == 0
    {
      m := new bv8[size](_ => 0);
    }

    /** Reads that do not abort: the cartridge must be there, and accept the address. */
    predicate CanGet(address: u16)
      reads this, CartRepr()
    {
      if (address <= 0x00FF && !bootMode) || (0x0100 <= address <= 0x7FFF) || (0xA000 <= address <= 0xBFFF) then
        cart.Some? && cart.value.CanGet(address)
      else true
    }

    /** `get` for every address outside OAM (echo RAM reads work RAM at `address - 0x2000`). */
    function GetOther(address: u16): (v: bv8)
      reads Repr - {oam}
      requires Valid() && CanGet(address)
      requires !(0xFE00 <= address <= 0xFE9F)
      ensures 0xC000 <= address <= 0xDFFF ==> v == wram[address - 0xC000]
      ensures 0xE000 <= address <= 0xFDFF ==> v == wram[address - 0xE000]
      decreases address
    {
      if address <= 0x00FF && bootMode then bootRom[address]
      else if address <= 0x7FFF then cart.value.Get(address)
      else if address <= 0x9FFF then vram[address - 0x8000]
      else if address <= 0xBFFF then cart.value.Get(address)
      else if address <= 0xDFFF then wram[address - 0xC000]
      else if address <= 0xFDFF then GetOther(address - 0x2000)
      else if address <= 0xFEFF then 0xFF
      else GetIo(address)
    }

    /** `get` from 0xFF00 up: the I/O registers, high RAM and the interrupt enables. */
    function GetIo(address: u16): (v: bv8)
      reads Repr - {oam}
      requires Valid() && 0xFF00 <= address
    {
      if address == 0xFF00 then joypad.Bytes()
      else if address == 0xFF01 then serialTransferData
      else if address == 0xFF02 then serialTransferControl
      else if Timer.IsRegister(address) then timer.Get(address)
      else if address == 0xFF0F then interruptFlags
      else if IsApuAddress(address) then (ApuAddressIsRegister(address); apu.Get(address))
      else if address == 0xFF40 then lcdc
      else if address == 0xFF41 then lcdstat
      else if address == 0xFF42 then scy
      else if address == 0xFF43 then scx
      else if address == 0xFF44 then ly
      else if address == 0xFF45 then lyc
      else if address == 0xFF47 then bgp
      else if address == 0xFF48 then obp0
      else if address == 0xFF49 then obp1
      else if address == 0xFF4A then wy
      else if address == 0xFF4B then wx
      else if 0xFF80 <= address <= 0xFFFE then hram[address - 0xFF80]
      else if address == 0xFFFF then interruptEnables
      else 0xFF
    }

    /**
     * `get`: the memory map. Echo RAM mirrors work RAM, the boot ROM overlays the
     * cartridge's first 256 bytes while boot mode is on, and unmapped I/O reads 0xFF.
     */
    function Get(address: u16): (v: bv8)
      reads Repr
      requires Valid() && CanGet(address)
      ensures address <= 0x00FF && bootMode ==> v == bootRom[address]
      ensures (address <= 0x00FF && !bootMode) || (0x0100 <= address <= 0x7FFF) || (0xA000 <= address <= 0xBFFF)
        ==> v == cart.value.Get(address)
      ensures 0x8000 <= address <= 0x9FFF ==> v == vram[address - 0x8000]
      ensures 0xC000 <= address <= 0xDFFF ==> v == wram[address - 0xC000]
      ensures 0xE000 <= address <= 0xFDFF ==> v == wram[address - 0xE000]
      ensures 0xFE00 <= address <= 0xFE9F ==> v == oam[address - 0xFE00]
      ensures 0xFF80 <= address <= 0xFFFE ==> v == hram[address - 0xFF80]
      ensures address == 0xFF0F ==> v == interruptFlags
      ensures address == 0xFFFF ==> v == interruptEnables
      ensures IsUnmappedRead(address) ==> v == 0xFF
    {
      if 0xFE00 <= address <= 0xFE9F then oam[address - 0xFE00] else GetOther(address)
    }

    /** Writes that do not abort: the cartridge accepts the write, and DMA reads a readable page. */
    predicate CanSet(address: u16, val: bv8)
      reads this, CartRepr()
    {
      if WritesCartridge(address) then cart.Some? ==> cart.value.CanSet(address)
      else if 0xE000 <= address <= 0xFDFF then CanSet(address - 0x2000, val)
      else if address == 0xFF46 then
        forall a: u16 | DmaSource(val) <= a < DmaSource(val) + DmaLength :: CanGet(a)
      else true
    }

    /** The writes that reach the cartridge: its ROM range outside boot mode, and its RAM range. */
    predicate WritesCartridge(address: u16)
      reads this
    {
      (address <= 0x7FFF && !bootMode) || (0xA000 <= address <= 0xBFFF)
    }

    /** Work RAM's index for a work-RAM or echo address. */
    static function WramIndex(address: u16): (i: nat)
      requires 0xC000 <= address <= 0xFDFF
      ensures i < 0x2000 && i == (address - 0xC000) % 0x2000
    {
      if address <= 0xDFFF then address - 0xC000 else address - 0xE000
    }

    /**
     * The effect of writing `val` at `address`: the addressed memory cell, device or
     * register takes the value under its write rule (STAT keeps its two mode bits, WX
     * is at least 7, LY ignores writes, 0xFF46 copies a page into OAM, 0xFF50 leaves
     * boot mode), cartridge-range writes go to the controller only outside boot mode
     * (its RAM range always), and everything else keeps its state.
     */
    twostate predicate Written(address: u16, val: bv8)
      reads this, Repr
      requires old(Valid()) && old(CanSet(address, val)) && Valid()
    {
      (!old(WritesCartridge(address)) ==> unchanged(CartRepr()))
      && (old(WritesCartridge(address)) && cart.Some? ==> Stored(cart.value, address as nat, val))
      && (0x8000 <= address <= 0x9FFF ==> vram[..] == old(vram[..])[address - 0x8000 := val])
      && (!(0x8000 <= address <= 0x9FFF) ==> unchanged(vram))
      && (0xC000 <= address <= 0xFDFF ==> wram[..] == old(wram[..])[WramIndex(address) := val])
      && (!(0xC000 <= address <= 0xFDFF) ==> unchanged(wram))
      && (0xFF80 <= address <= 0xFFFE ==> hram[..] == old(hram[..])[address - 0xFF80 := val])
      && (!(0xFF80 <= address <= 0xFFFE) ==> unchanged(hram))
      && (0xFE00 <= address <= 0xFE9F ==> oam[..] == old(oam[..])[address - 0xFE00 := val])
      && (!(0xFE00 <= address <= 0xFE9F) && address != 0xFF46 ==> unchanged(oam))
      && (address == 0xFF46 ==>
            (forall k :: 0 <= k < DmaLength ==> oam[k] == old(Get(DmaSource(val) + k))) && oam[DmaLength] == old(oam[DmaLength]))
      && (address == 0xFF00 ==> joypad.mode == if (val >> 5) & 1 == 0 then Joypad.Action else Joypad.Direction)
      && (address == 0xFF00 ==> forall k: Joypad.Key :: joypad.Pressed(k) == old(joypad.Pressed(k)))
      && (address != 0xFF00 ==> unchanged(joypad))
      && (Timer.IsRegister(address) ==> timer.Get(address) == if address == 0xFF04 then 0 else val)
      && (!Timer.IsRegister(address) ==> unchanged(timer))
      && (IsApuAddress(address) ==> Apu.IsRegister(address) && apu.Get(address) == val)
      && (!IsApuAddress(address) ==> unchanged(apu.Repr))
      && RegistersWritten(address, val)
    }

    /** The bus's own byte registers after writing `val` at `address`. */
    twostate predicate RegistersWritten(address: u16, val: bv8)
      reads this
    {
      Kept(address)
      && (address == 0xFF01 ==> serialTransferData == val)
      && (address == 0xFF02 ==> serialTransferControl == val)
      && (address == 0xFF0F ==> interruptFlags == val)
      && (address == 0xFF40 ==> lcdc == val)
      && (address == 0xFF41 ==> lcdstat == (old(lcdstat) & 0x03) | (val & 0xFC))
      && (address == 0xFF42 ==> scy == val)
      && (address == 0xFF43 ==> scx == val)
      && (address == 0xFF44 ==> ly == old(ly))
      && (address == 0xFF45 ==> lyc == val)
      && (address == 0xFF47 ==> bgp == val)
      && (address == 0xFF48 ==> obp0 == val)
      && (address == 0xFF49 ==> obp1 == val)
      && (address == 0xFF4A ==> wy == val)
      && (address == 0xFF4B ==> wx == if val < 7 then 7 else val)
      && (address == 0xFF50 ==> !bootMode)
      && (address == 0xFFFF ==> interruptEnables == val)
    }

    /** Every byte register of the bus except the one at `address` keeps its value. */
    twostate predicate Kept(address: u16)
      reads this
    {
      (address != 0xFF01 ==> serialTransferData == old(serialTransferData))
      && (address != 0xFF02 ==> serialTransferControl == old(serialTransferControl))
      && (address != 0xFF0F ==> interruptFlags == old(interruptFlags))
      && (address != 0xFF40 ==> lcdc == old(lcdc))
      && (address != 0xFF41 ==> lcdstat == old(lcdstat))
      && (address != 0xFF42 ==> scy == old(scy))
      && (address != 0xFF43 ==> scx == old(scx))
      && (address != 0xFF44 ==> ly == old(ly))
      && (address != 0xFF45 ==> lyc == old(lyc))
      && (address != 0xFF47 ==> bgp == old(bgp))
      && (address != 0xFF48 ==> obp0 == old(obp0))
      && (address != 0xFF49 ==> obp1 == old(obp1))
      && (address != 0xFF4A ==> wy == old(wy))
      && (address != 0xFF4B ==> wx == old(wx))
      && (address != 0xFF50 ==> bootMode == old(bootMode))
      && (address != 0xFFFF ==> interruptEnables == old(interruptEnables))
    }

    /**
     * `set`: the memory map for writes. Cartridge ROM writes are dropped in boot mode,
     * echo RAM writes work RAM, 0xFF46 starts a DMA, 0xFF50 leaves boot mode, and
     * every memory or device not addressed keeps its state.
     */
    method Set(address: u16, val: bv8)
      requires Valid() && CanSet(address, val)
      modifies Repr
      ensures Valid() && Written(address, val)
      decreases address, 2
    {
      if address < 0xFF00 {
        SetMemoryMap(address, val);
      } else {
        SetIo(address, val);
      }
    }

    /** `set` below 0xFF00: the cartridge, video RAM, work RAM and its echo, and OAM. */
    method SetMemoryMap(address: u16, val: bv8)
      requires Valid() && CanSet(address, val) && address < 0xFF00
      modifies Repr
      ensures Valid() && Written(address, val)
      decreases address, 1
    {
      if address <= 0x7FFF || (0xA000 <= address <= 0xBFFF) {
        SetCartridgeRange(address, val);
      } else if 0xE000 <= address <= 0xFDFF {
        SetEcho(address, val);
      } else if address <= 0xFE9F {
        SetRam(address, val);
      } else {
        NothingWritten(this, address, val);
      }
    }

    /** An echo RAM write is the write of the same value 0x2000 lower. */
    method SetEcho(address: u16, val: bv8)
      requires Valid() && CanSet(address, val) && 0xE000 <= address <= 0xFDFF
      modifies Repr
      ensures Valid() && Written(address, val)
      decreases address, 0
    {
      Set(address - 0x2000, val);
      EchoWritten(this, address, val);
    }

    /** Writing work RAM through its echo has the effect of writing it directly. */
    static twostate lemma EchoWritten(new m: MMU, new address: u16, new val: bv8)
      requires old(allocated(m)) && old(m.Valid()) && m.Valid() && 0xE000 <= address <= 0xFDFF
      requires old(m.CanSet(address - 0x2000, val)) && m.Written(address - 0x2000, val)
      ensures old(m.CanSet(address, val)) && m.Written(address, val)
    {
    }

    /** A change to the bus object's own registers alone keeps the bus consistent. */
    static twostate lemma OwnRegistersWritten(new m: MMU)
      requires old(allocated(m)) && old(m.Valid())
      requires unchanged(m.Repr - {m})
      ensures m.Valid()
    {
    }

    /** A write to the unusable range 0xFEA0-0xFEFF changes nothing. */
    static twostate lemma NothingWritten(new m: MMU, new address: u16, new val: bv8)
      requires old(allocated(m)) && old(m.Valid()) && m.Valid() && 0xFEA0 <= address <= 0xFEFF
      requires unchanged(m) && unchanged(m.Repr)
      ensures old(m.CanSet(address, val)) && m.Written(address, val)
    {
    }

    /** Cartridge-range writes: ROM writes are dropped in boot mode, and a missing cartridge ignores them. */
    method SetCartridgeRange(address: u16, val: bv8)
      requires Valid() && CanSet(address, val)
      requires address <= 0x7FFF || (0xA000 <= address <= 0xBFFF)
      modifies Repr
      ensures Valid() && Written(address, val)
    {
      if WritesCartridge(address) && cart.Some? {
        SetCartridge(address, val);
      }
    }

    /** Video RAM, work RAM and OAM writes. */
    method SetRam(address: u16, val: bv8)
      requires Valid() && CanSet(address, val)
      requires (0x8000 <= address <= 0x9FFF) || (0xC000 <= address <= 0xDFFF) || (0xFE00 <= address <= 0xFE9F)
      modifies Repr
      ensures Valid() && Written(address, val)
    {
      if address <= 0x9FFF {
        SetVram(address, val);
      } else if address <= 0xDFFF {
        SetWram(address, val);
      } else {
        SetOam(address, val);
      }
    }

    /** A video RAM write. */
    method SetVram(address: u16, val: bv8)
      requires Valid() && 0x8000 <= address <= 0x9FFF
      modifies vram
      ensures Valid() && Written(address, val)
    {
      vram[address - 0x8000] := val;
    }

    /** A work RAM write (echo addresses arrive here already translated). */
    method SetWram(address: u16, val: bv8)
      requires Valid() && 0xC000 <= address <= 0xDFFF
      modifies wram
      ensures Valid() && Written(address, val)
    {
      wram[address - 0xC000] := val;
    }

    /** An OAM write from the CPU side. */
    method SetOam(address: u16, val: bv8)
      requires Valid() && 0xFE00 <= address <= 0xFE9F
      modifies oam
      ensures Valid() && Written(address, val)
    {
      oam[address - 0xFE00] := val;
    }

    /** `set` from 0xFF00 up: the devices, DMA, the bus's registers and high RAM. */
    method SetIo(address: u16, val: bv8)
      requires Valid() && CanSet(address, val) && 0xFF00 <= address
      modifies Repr
      ensures Valid() && Written(address, val)
    {
      if address == 0xFF00 {
        SetJoypad(address, val);
      } else if Timer.IsRegister(address) {
        SetTimer(address, val);
      } else if IsApuAddress(address) {
        SetApu(address, val);
      } else if address == 0xFF46 {
        StartDma(address, val);
      } else if 0xFF80 <= address <= 0xFFFE {
        SetHram(address, val);
      } else {
        SetBusRegister(address, val);
      }
    }

    /** A high RAM write. */
    method SetHram(address: u16, val: bv8)
      requires Valid() && 0xFF80 <= address <= 0xFFFE
      modifies hram
      ensures Valid() && Written(address, val)
    {
      hram[address - 0xFF80] := val;
    }

    /** A write handed to the inserted cartridge's controller. */
    method SetCartridge(address: u16, val: bv8)
      requires Valid() && CanSet(address, val) && WritesCartridge(address) && cart.Some?
      modifies CartRepr()
      ensures Valid() && Written(address, val)
    {
      cart.value.Set(address, val);
    }

    /** A write to P1, which selects the joypad's key row. */
    method SetJoypad(address: u16, val: bv8)
      requires Valid() && address == 0xFF00
      modifies joypad
      ensures Valid() && Written(address, val)
    {
      joypad.Write(val);
    }

    /** A write to one of the timer's registers. */
    method SetTimer(address: u16, val: bv8)
      requires Valid() && Timer.IsRegister(address)
      modifies timer
      ensures Valid() && Written(address, val)
    {
      timer.Set(address, val);
      TimerWritten(this, address, val);
    }

    /** A change confined to the timer, which took `val` at `address`, is that write. */
    static twostate lemma TimerWritten(new m: MMU, new address: u16, new val: bv8)
      requires old(allocated(m)) && old(m.Valid()) && m.Valid() && Timer.IsRegister(address)
      requires unchanged(m)
      requires unchanged(m.vram) && unchanged(m.wram) && unchanged(m.hram) && unchanged(m.oam)
      requires unchanged(m.joypad) && unchanged(m.apu.Repr) && unchanged(m.CartRepr())
      requires m.timer.Get(address) == if address == 0xFF04 then 0 else val
      ensures old(m.CanSet(address, val))
      ensures m.Written(address, val)
    {
    }

    /** A write to one of the APU's registers. */
    method SetApu(address: u16, val: bv8)
      requires Valid() && IsApuAddress(address)
      modifies apu.Repr
      ensures Valid() && Written(address, val)
    {
      ApuAddressIsRegister(address);
      apu.Set(address, val);
      ApuWritten(this, address, val);
    }

    /** A change confined to the APU, which took `val` at `address`, is that write. */
    static twostate lemma ApuWritten(new m: MMU, new address: u16, new val: bv8)
      requires old(allocated(m)) && old(m.Valid()) && m.apu.Valid() && IsApuAddress(address)
      requires unchanged(m) && unchanged(m.timer)
      requires unchanged(m.vram) && unchanged(m.wram) && unchanged(m.hram) && unchanged(m.oam)
      requires unchanged(m.joypad) && unchanged(m.CartRepr())
      requires m.apu.Get(address) == val
      ensures m.Valid() && old(m.CanSet(address, val))
      ensures m.Written(address, val)
    {
    }

    /** A write to 0xFF46, which copies a page into OAM. */
    method StartDma(address: u16, val: bv8)
      requires Valid() && CanSet(address, val) && address == 0xFF46
      modifies oam
      ensures Valid() && Written(address, val)
    {
      Dma(val);
    }

    /** A write to one of the byte registers the bus keeps itself. */
    method SetBusRegister(address: u16, val: bv8)
      requires Valid() && 0xFF01 <= address && !Timer.IsRegister(address) && !IsApuAddress(address)
      requires address != 0xFF46 && !(0xFF80 <= address <= 0xFFFE)
      modifies this
      ensures Valid() && Written(address, val)
    {
      SetRegister(address, val);
    }

    /** The byte registers the bus keeps itself, written from 0xFF01 to 0xFFFF. */
    method SetRegister(address: u16, val: bv8)
      requires 0xFF01 <= address && !Timer.IsRegister(address) && !IsApuAddress(address)
      modifies this
      ensures RegistersWritten(address, val)
    {
      if 0xFF40 <= address <= 0xFF4B {
        SetVideoRegister(address, val);
      } else if address == 0xFF01 {
        serialTransferData := val;
      } else if address == 0xFF02 {
        serialTransferControl := val;
      } else if address == 0xFF0F {
        interruptFlags := val;
      } else if address == 0xFF50 {
        bootMode := false;
      } else if address == 0xFFFF {
        interruptEnables := val;
      }
    }

    /** The LCD registers from 0xFF40 to 0xFF4B; LY is read-only and DMA is not a register. */
    method SetVideoRegister(address: u16, val: bv8)
      requires 0xFF40 <= address <= 0xFF4B
      modifies this
      ensures RegistersWritten(address, val)
    {
      if address == 0xFF40 { lcdc := val; }
      else if address == 0xFF41 { lcdstat := (lcdstat & 0x03) | (val & 0xFC); }
      else if address == 0xFF42 { scy := val; }
      else if address == 0xFF43 { scx := val; }
      else if address == 0xFF45 { lyc := val; }
      else if address == 0xFF47 { bgp := val; }
      else if address == 0xFF48 { obp0 := val; }
      else if address == 0xFF49 { obp1 := val; }
      else if address == 0xFF4A { wy := val; }
      else if address == 0xFF4B { wx := if val < 7 then 7 else val; }
    }

    /**
     * `dma`: copies the 0x9F bytes at `page * 0x100` into OAM through the bus's own
     * read; OAM's last byte keeps its value. The bytes are read before the copy:
     * jimbot reads byte `i` just before writing OAM's byte `i`, and no write reaches a
     * byte that a later step reads, so the result is the same.
     */
    method Dma(page: bv8)
      requires Valid()
      requires forall a: u16 | DmaSource(page) <= a < DmaSource(page) + DmaLength :: CanGet(a)
      modifies oam
      ensures forall k :: 0 <= k < DmaLength ==> oam[k] == old(Get(DmaSource(page) + k))
      ensures oam[DmaLength] == old(oam[DmaLength])
    {
      var bytes := ReadBlock(DmaSource(page), DmaLength);
      for i := 0 to DmaLength
        invariant forall k :: 0 <= k < i ==> oam[k] == bytes[k]
        invariant forall k :: i <= k < oam.Length ==> oam[k] == old(oam[k])
      {
        oam[i] := bytes[i];
      }
    }

    /** The `count` bytes the bus reads from `start` on. */
    method ReadBlock(start: u16, count: nat) returns (bytes: seq<bv8>)
      requires Valid() && start + count <= 0x10000
      requires forall a: u16 | start <= a < start + count :: CanGet(a)
      ensures |bytes| == count
      ensures forall k :: 0 <= k < count ==> bytes[k] == Get(start + k)
    {
      bytes := [];
      for i := 0 to count
        invariant |bytes| == i
        invariant forall k :: 0 <= k < i ==> bytes[k] == Get(start + k)
      {
        bytes := bytes + [Get(start + i)];
      }
    }

    /** `set_ly`: the PPU's write of the current line, which the bus itself never writes. */
    method SetLy(val: bv8)
      modifies this
      ensures ly == val && Kept(0xFF44)
    {
      ly := val;
    }

    /** `set_lcdstat`: the PPU's write of the whole STAT byte, mode bits included. */
    method SetLcdstat(stat: bv8)
      modifies this
      ensures lcdstat == stat && Kept(0xFF41)
    {
      lcdstat := stat;
    }

    /** `set_interrupt_flags`: IF as a whole. */
    method SetInterruptFlags(flags: InterruptFlag.Interrupts)
      modifies this
      ensures RegistersWritten(0xFF0F, flags.bits)
    {
      interruptFlags := flags.bits;
    }

    /** `set_interrupt_enables`: IE as a whole. */
    method SetInterruptEnables(enables: InterruptFlag.Interrupts)
      modifies this
      ensures RegistersWritten(0xFFFF, enables.bits)
    {
      interruptEnables := enables.bits;
    }

    /** `request_interrupt`: sets the request's bit in IF and keeps the others. */
    method RequestInterrupt(r: InterruptFlag.InterruptRequest)
      modifies this
      ensures interruptFlags == InterruptFlag.Interrupts(old(interruptFlags)).EnableRequest(r).bits
      ensures InterruptFlag.Interrupts(interruptFlags).IsEnable(r)
      ensures forall q: InterruptFlag.InterruptRequest :: q != r ==>
        InterruptFlag.Interrupts(interruptFlags).IsEnable(q) == InterruptFlag.Interrupts(old(interruptFlags)).IsEnable(q)
      ensures interruptFlags & !InterruptFlag.Mask(r) == old(interruptFlags) & !InterruptFlag.Mask(r)
      ensures Kept(0xFF0F)
    {
      var iflag := InterruptFlag.Interrupts(interruptFlags).EnableRequest(r);
      interruptFlags := iflag.bits;
    }

    /** `joypad_press`: the key goes down and the joypad interrupt is requested. */
    method JoypadPress(k: Joypad.Key)
      requires Valid()
      modifies this, joypad
      ensures Valid()
      ensures joypad.Pressed(k) && joypad.mode == old(joypad.mode)
      ensures forall q: Joypad.Key :: q != k ==> joypad.Pressed(q) == old(joypad.Pressed(q))
      ensures InterruptFlag.Interrupts(interruptFlags) == InterruptFlag.Interrupts(old(interruptFlags)).EnableRequest(InterruptFlag.Joypad)
      ensures Kept(0xFF0F)
    {
      joypad.Press(k);
      RequestInterrupt(InterruptFlag.Joypad);
    }

    /** `joypad_release`: the key comes up; no interrupt. */
    method JoypadRelease(k: Joypad.Key)
      requires Valid()
      modifies joypad
      ensures Valid()
      ensures !joypad.Pressed(k) && joypad.mode == old(joypad.mode)
      ensures forall q: Joypad.Key :: q != k ==> joypad.Pressed(q) == old(joypad.Pressed(q))
    {
      joypad.Release(k);
    }

    /** `cycle_timer`: one timer cycle; a TIMA overflow requests the timer interrupt. */
    method CycleTimer()
      requires Valid() && timer.CanCycle(apu)
      modifies this, timer, apu.Repr
      ensures Valid()
      ensures timer.Cycled()
      ensures interruptFlags == if timer.Overflowed()
        then InterruptFlag.Interrupts(old(interruptFlags)).EnableRequest(InterruptFlag.Timer).bits
        else old(interruptFlags)
      ensures Kept(0xFF0F)
      ensures timer.ApuFollowed(apu)
    {
      var overflow := ClockTimer();
      RequestTimerIf(overflow);
    }

    /** The timer interrupt is requested when TIMA overflowed; only IF can change. */
    method RequestTimerIf(overflow: bool)
      modifies this
      ensures interruptFlags == if overflow
        then InterruptFlag.Interrupts(old(interruptFlags)).EnableRequest(InterruptFlag.Timer).bits
        else old(interruptFlags)
      ensures Kept(0xFF0F)
    {
      if overflow {
        RequestInterrupt(InterruptFlag.Timer);
      }
    }

    /** The timer's own cycle, which may clock the APU; the bus's registers are not touched. */
    method ClockTimer() returns (overflow: bool)
      requires Valid() && timer.CanCycle(apu)
      modifies timer, apu.Repr
      ensures Valid() && unchanged(this)
      ensures timer.Cycled() && overflow == timer.Overflowed()
      ensures timer.ApuFollowed(apu)
    {
      overflow := timer.Cycle(apu);
    }

    /** `cycle_apu`: one APU cycle. */
    method CycleApu()
      requires Valid() && apu.CanCycle()
      modifies apu.Repr
      ensures Valid() && apu.CanCycle()
      ensures !apu.IsSoundEnable() ==> unchanged(apu.Repr)
      ensures apu.nr50 == old(apu.nr50) && apu.nr51 == old(apu.nr51) && apu.nr52 == old(apu.nr52)
      ensures apu.channel1.enable == old(apu.channel1.enable) && apu.channel2.enable == old(apu.channel2.enable)
      ensures apu.channel3.enable == old(apu.channel3.enable) && apu.channel4.enable == old(apu.channel4.enable)
    {
      apu.Cycle();
    }
  }

  /** The first source address of a DMA from `page`. */
  function DmaSource(page: bv8): (a: u16)
    ensures a == page as int * 0x100 && a + DmaLength < 0x10000
  {
    page as int * 0x100
  }
}
