/**
 * The emulator's driver: each `run` is one CPU step followed by four dots of timer,
 * APU and PPU. An error from the CPU is latched and stops every later `run` until it
 * is cleared.
 */
module Jimbot {
  import opened Wrappers
  import opened Cartridge
  import Lcdc
  import Mmu
  import CpuCore
  import Ppu
  import InterruptFlag

  /** One more dot after `a` dots lands where `a + 1` dots do, counted within a frame. */
  lemma FrameStep(a: nat, p: nat)
    requires p == a % Ppu.FrameDots
    ensures (p + 1) % Ppu.FrameDots == (a + 1) % Ppu.FrameDots
  {
    var q := a / Ppu.FrameDots;
    assert a == Ppu.FrameDots * q + p;
    assert a + 1 == Ppu.FrameDots * q + (p + 1);
  }

  /** Objects allocated after a set's objects existed are none of them. */
  twostate lemma Apart(new late: set<object>, early: set<object>)
    requires forall o | o in late :: fresh(o)
    requires old(allocated(early))
    ensures late !! early
  {
  }

  /** The CPU, the bus and the PPU are each consistent, and none owns another's objects. */
  ghost predicate Assembled(mmu: Mmu.MMU, cpu: CpuCore.Cpu, ppu: Ppu.PPU)
    reads mmu, mmu.timer, mmu.Repr, cpu, cpu.registers, ppu.Repr()
  {
    cpu.Valid() && CpuCore.BusValid(mmu) && cpu.Apart(mmu)
    && ppu.Valid() && ppu.Repr() !! mmu.Repr
  }

  /** Parts whose objects all keep their state stay assembled. */
  twostate lemma StillAssembled(new mmu: Mmu.MMU, new cpu: CpuCore.Cpu, new ppu: Ppu.PPU)
    requires old(allocated(mmu)) && old(allocated(cpu)) && old(allocated(ppu))
    requires old(Assembled(mmu, cpu, ppu))
    requires unchanged(mmu, mmu.timer, cpu, cpu.registers) && unchanged(mmu.Repr) && unchanged(ppu.Repr())
    ensures Assembled(mmu, cpu, ppu)
  {
  }

  /** A PPU dot, which keeps the bus and the PPU each consistent and leaves the CPU alone, keeps the parts assembled. */
  twostate lemma StillAssembledAfterDot(new mmu: Mmu.MMU, new cpu: CpuCore.Cpu, new ppu: Ppu.PPU)
    requires old(allocated(mmu)) && old(allocated(cpu)) && old(allocated(ppu))
    requires old(Assembled(mmu, cpu, ppu))
    requires unchanged(cpu, cpu.registers)
    requires CpuCore.BusValid(mmu) && ppu.Valid()
    ensures Assembled(mmu, cpu, ppu)
  {
  }

  class Jimbot {
    const mmu: Mmu.MMU
    const cpu: CpuCore.Cpu
    const ppu: Ppu.PPU
    var errorMessage: Option<string>

    /** The parts are assembled, and the driver is none of the bus's objects. */
    ghost predicate Valid()
      reads mmu, mmu.timer, mmu.Repr - {this}, cpu, cpu.registers, ppu.Repr()
    {
      this !in mmu.Repr && Assembled(mmu, cpu, ppu)
    }

    /** The bus, the CPU and the PPU of a new emulator, each consistent and owning its own objects. */
    static method NewParts(bootRom: seq<bv8>, cartridge: Cartridge)
      returns (bus: Mmu.MMU, core: CpuCore.Cpu, video: Ppu.PPU)
      requires |bootRom| == 0x100 && cartridge.Valid()
      ensures Assembled(bus, core, video)
    {
      bus := new Mmu.MMU(bootRom, Some(cartridge));
      label BusBuilt:
      core := new CpuCore.Cpu();
      video := new Ppu.PPU();
      Apart@BusBuilt({core, core.registers} + video.Repr(), bus.Repr);
    }

    /** `new_with_cartridge_bytes`, given the boot ROM and the cartridge built from the bytes. */
    constructor (bootRom: seq<bv8>, cartridge: Cartridge)
      requires |bootRom| == 0x100 && cartridge.Valid()
      ensures Valid() && errorMessage == None
    {
      var bus, core, video := NewParts(bootRom, cartridge);
      label Built:
      mmu, cpu, ppu := bus, core, video;
      errorMessage := None;
      new;
      Apart@Built({this}, mmu.Repr);
      StillAssembled@Built(mmu, cpu, ppu);
    }

    /**
     * A device cannot take its next step: the timer's cycle or the APU's would panic,
     * or one of the PPU's units would.
     */
    ghost predicate DotStuck()
      reads this, mmu, mmu.timer, mmu.Repr, mmu.oam, ppu.Repr()
    {
      (mmu.Valid() && (!mmu.timer.CanCycle(mmu.apu) || !mmu.apu.CanCycle())) || ppu.Stuck(mmu)
    }

    /** `error_message`: the latched error, if any. */
    function ErrorMessage(): Option<string>
      reads this
    {
      errorMessage
    }

    /** `clear_error`: forgets the latched error, so the next `run` steps again. */
    method ClearError()
      modifies this
      ensures ErrorMessage() == None
    {
      errorMessage := None;
    }

    /**
     * `run`: nothing while an error is latched; otherwise the CPU's result is latched
     * (its error, or none) and the timer, APU and PPU each take four steps. With the
     * display on afterwards, the PPU is four dots further into its frame. Where jimbot
     * would panic (a CPU step, timer, APU or PPU cycle whose own condition fails), the
     * call stops there and reports `panicked`.
     */
    method Run() returns (panicked: bool, ghost cpuResult: Result<()>)
      requires Valid()
      modifies this, cpu, cpu.registers, mmu.Repr, ppu.Repr()
      ensures Valid()
      ensures old(errorMessage).Some? ==>
        !panicked && errorMessage == old(errorMessage)
        && unchanged(cpu, cpu.registers) && unchanged(mmu.Repr) && unchanged(ppu.Repr())
      ensures old(errorMessage).None? && !panicked ==>
        errorMessage == if cpuResult.Err? then Some(cpuResult.message) else None
      ensures old(errorMessage).None? && !panicked && Lcdc.LCDC(mmu.lcdc).IsDisplayEnable() ==>
        ppu.Position() == (old(ppu.Position()) + 4) % Ppu.FrameDots
      ensures old(errorMessage).None? && !old(cpu.halted) && old(cpu.Panics(mmu)) ==> panicked
      ensures panicked ==> old(errorMessage).None? && ((!old(cpu.halted) && old(cpu.Panics(mmu))) || DotStuck())
      ensures old(errorMessage).None? && !(!old(cpu.halted) && old(cpu.Panics(mmu))) ==>
        CpuCore.CycleEffect(cpu, mmu, cpuResult)
    {
      cpuResult := Ok(());
      if errorMessage.Some? {
        return false, cpuResult;
      }
      var r;
      panicked, r := Step();
      cpuResult := r;
      Latch(r);
    }

    /** Keeps the CPU's error, or forgets the previous one. */
    method Latch(r: Result<()>)
      requires Valid()
      modifies this
      ensures Valid() && errorMessage == if r.Err? then Some(r.message) else None
      ensures ppu.Position() == old(ppu.Position()) && mmu.lcdc == old(mmu.lcdc)
    {
      errorMessage := if r.Err? then Some(r.message) else None;
    }

    /** A CPU step, then four dots; the CPU's result is returned for latching. */
    method Step() returns (panicked: bool, r: Result<()>)
      requires Valid()
      modifies cpu, cpu.registers, mmu.Repr, ppu.Repr()
      ensures Valid()
      ensures !panicked && Lcdc.LCDC(mmu.lcdc).IsDisplayEnable() ==>
        ppu.Position() == (old(ppu.Position()) + 4) % Ppu.FrameDots
      ensures !old(cpu.halted) && old(cpu.Panics(mmu)) ==> panicked
      ensures panicked ==> (!old(cpu.halted) && old(cpu.Panics(mmu))) || DotStuck()
      ensures !(!old(cpu.halted) && old(cpu.Panics(mmu))) ==> CpuCore.CycleEffect(cpu, mmu, r)
    {
      panicked, r := CpuStep();
      if panicked {
        return;
      }
      panicked := Dots();
    }

    /** The CPU's step; the PPU is not touched. */
    method CpuStep() returns (panicked: bool, r: Result<()>)
      requires Valid()
      modifies cpu, cpu.registers, mmu.Repr
      ensures Valid() && ppu.Position() == old(ppu.Position())
      ensures old(cpu.halted) ==> !panicked && r.Ok?
      ensures panicked <==> !old(cpu.halted) && old(cpu.Panics(mmu))
      ensures !panicked ==> CpuCore.CycleEffect(cpu, mmu, r)
    {
      var done, fetched;
      ghost var handed, stepped, enables;
      panicked, r, done, fetched, handed, stepped, enables := cpu.Cycle(mmu);
    }

    /** The four rounds of timer, APU and PPU. */
    method Dots() returns (panicked: bool)
      requires Valid()
      modifies mmu.Repr, ppu.Repr()
      ensures Valid() && mmu.lcdc == old(mmu.lcdc) && unchanged(cpu, cpu.registers)
      ensures !panicked && Lcdc.LCDC(mmu.lcdc).IsDisplayEnable() ==>
        ppu.Position() == (old(ppu.Position()) + 4) % Ppu.FrameDots
      ensures !old(mmu.timer.CanCycle(mmu.apu)) ==> panicked
      ensures panicked ==> DotStuck()
    {
      for k := 0 to 4
        invariant Valid() && mmu.lcdc == old(mmu.lcdc) && unchanged(cpu, cpu.registers)
        invariant Lcdc.LCDC(mmu.lcdc).IsDisplayEnable() ==> ppu.Position() == (old(ppu.Position()) + k) % Ppu.FrameDots
        invariant k == 0 ==> mmu.timer.CanCycle(mmu.apu) == old(mmu.timer.CanCycle(mmu.apu))
        invariant k > 0 ==> old(mmu.timer.CanCycle(mmu.apu))
      {
        ghost var before := ppu.Position();
        panicked := Dot();
        if panicked {
          return;
        }
        if Lcdc.LCDC(mmu.lcdc).IsDisplayEnable() {
          FrameStep(old(ppu.Position()) + k, before);
        }
      }
      panicked := false;
    }

    /** One round: a timer cycle, an APU cycle and a PPU dot. */
    method Dot() returns (panicked: bool)
      requires Valid()
      modifies mmu.Repr, ppu.Repr()
      ensures Valid() && mmu.lcdc == old(mmu.lcdc)
      ensures !panicked && Lcdc.LCDC(mmu.lcdc).IsDisplayEnable() ==>
        ppu.Position() == (old(ppu.Position()) + 1) % Ppu.FrameDots
      ensures !old(mmu.timer.CanCycle(mmu.apu)) ==> panicked
      ensures !Lcdc.LCDC(mmu.lcdc).IsDisplayEnable() ==>
        (panicked <==> !old(mmu.timer.CanCycle(mmu.apu)) || !mmu.apu.CanCycle())
      ensures panicked ==> DotStuck()
      ensures !panicked ==> mmu.timer.Cycled() && mmu.timer.div == old(mmu.timer.div) + 1
    {
      panicked := Devices();
      if panicked {
        return;
      }
      ghost var lineDone;
      panicked, lineDone := PpuDot();
    }

    /** The PPU's dot; it leaves the timer and the APU alone and cannot panic with the display off. */
    method PpuDot() returns (panicked: bool, ghost lineDone: bool)
      requires Valid()
      modifies mmu.Repr, ppu.Repr()
      ensures Valid() && mmu.lcdc == old(mmu.lcdc)
      ensures !panicked && Lcdc.LCDC(mmu.lcdc).IsDisplayEnable() ==>
        ppu.Position() == (old(ppu.Position()) + 1) % Ppu.FrameDots
      ensures !Lcdc.LCDC(mmu.lcdc).IsDisplayEnable() ==> !panicked
      ensures mmu.apu.CanCycle() == old(mmu.apu.CanCycle()) && unchanged(mmu.timer)
      ensures panicked ==> ppu.Stuck(mmu)
      ensures !panicked ==> Ppu.StatusWritten(ppu, mmu, lineDone)
    {
      panicked, lineDone := ppu.Dot(mmu);
      StillAssembledAfterDot(mmu, cpu, ppu);
      assert unchanged(mmu.apu.Repr);
    }

    /** The timer's cycle and the APU's; the LCD control register and the PPU are not touched. */
    method Devices() returns (panicked: bool)
      requires Valid()
      modifies mmu.Repr
      ensures Valid() && mmu.lcdc == old(mmu.lcdc)
      ensures panicked <==> !old(mmu.timer.CanCycle(mmu.apu)) || !mmu.apu.CanCycle()
      ensures panicked ==> !mmu.timer.CanCycle(mmu.apu) || !mmu.apu.CanCycle()
      ensures !panicked ==> mmu.timer.Cycled()
      ensures !panicked ==> mmu.interruptFlags == if mmu.timer.Overflowed()
        then InterruptFlag.Interrupts(old(mmu.interruptFlags)).EnableRequest(InterruptFlag.Timer).bits
        else old(mmu.interruptFlags)
    {
      if !mmu.timer.CanCycle(mmu.apu) {
        return true;
      }
      mmu.CycleTimer();
      if !mmu.apu.CanCycle() {
        return true;
      }
      mmu.CycleApu();
      panicked := false;
    }
  }
}
