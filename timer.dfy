/**
 * The divider and timer (DIV, TIMA, TMA, TAC at 0xFF04-0xFF07). A 16-bit divider
 * counts every cycle; TIMA counts falling edges of the divider bit TAC selects and
 * reloads from TMA on overflow, raising the timer interrupt; falling edges of divider
 * bit 13 clock the APU's frame sequencer through steps 0-7.
 */
module Timer {
  import opened Bits
  import opened Tac
  import Apu

  /** Bit `k` of the divider went from 1 to 0. */
  predicate FallingEdge(prev: bv16, curr: bv16, k: nat)
    requires k < 16
  {
    (prev >> k) & 1 == 1 && (curr >> k) & 1 == 0
  }

  /**
   * Counting up by one, bit `k` falls exactly when bits 0..k were all ones: the
   * selected bit clocks TIMA once every 2^(k+1) cycles (k = 3, 5, 7, 9; 13 for the APU).
   */
  lemma FallingEdgeWhenLowBitsAllOnes(d: bv16, k: nat)
    requires k == 3 || k == 5 || k == 7 || k == 9 || k == 13
    ensures FallingEdge(d, d + 1, k) <==> d & ((1 << (k + 1)) - 1) == (1 << (k + 1)) - 1
  {
    if k == 3 {
      assert FallingEdge(d, d + 1, 3) <==> d & 0xF == 0xF;
    } else if k == 5 {
      assert FallingEdge(d, d + 1, 5) <==> d & 0x3F == 0x3F;
    } else if k == 7 {
      assert FallingEdge(d, d + 1, 7) <==> d & 0xFF == 0xFF;
    } else if k == 9 {
      assert FallingEdge(d, d + 1, 9) <==> d & 0x3FF == 0x3FF;
    } else {
      assert FallingEdge(d, d + 1, 13) <==> d & 0x3FFF == 0x3FFF;
    }
  }

  /** The addresses the timer answers to; any other address panics. */
  predicate IsRegister(address: int)
  {
    0xFF04 <= address <= 0xFF07
  }

  class Timer {
    var div: bv16
    var tima: bv8
    var tma: bv8
    var tac: bv8
    var apuClockStep: nat

    /** The frame-sequencer step stays in 0..7. */
    ghost predicate Valid()
      reads this
    {
      apuClockStep < 8
    }

    /** `Timer::default`: everything zero. */
    constructor ()
      ensures Valid()
      ensures div == 0 && tima == 0 && tma == 0 && tac == 0 && apuClockStep == 0
    {
      div, tima, tma, tac := 0, 0, 0, 0;
      apuClockStep := 0;
    }

    /** The selected divider bit fell during the last cycle while the timer is enabled. */
    twostate predicate Ticked()
      reads this
    {
      var t := TAC(tac);
      t.IsTimerEnable() && FallingEdge(old(div), div, t.ClockSelect())
    }

    /** TIMA ticked from 0xFF: the overflow that requests the timer interrupt. */
    twostate predicate Overflowed()
      reads this
    {
      Ticked() && old(tima) == 0xFF
    }

    /**
     * One cycle's effect: the divider counts up modulo 2^16, TIMA counts on a tick and
     * reloads from TMA when it overflows, and the frame-sequencer step advances modulo 8
     * when divider bit 13 falls.
     */
    twostate predicate Cycled()
      reads this
    {
      div == old(div) + 1 && tma == old(tma) && tac == old(tac)
      && (!Ticked() ==> tima == old(tima))
      && (Overflowed() ==> tima == tma)
      && (Ticked() && old(tima) != 0xFF ==> tima == old(tima) + 1)
      && apuClockStep == if FallingEdge(old(div), div, 13) then (old(apuClockStep) + 1) % 8 else old(apuClockStep)
    }

    /**
     * One cycle's effect on the APU: a falling divider bit 13 clocked it with the
     * frame-sequencer step the timer held; otherwise it is untouched.
     */
    twostate predicate ApuFollowed(apu: Apu.APU)
      reads this, apu, apu.Repr
      requires old(apu.Valid()) && apu.Valid()
    {
      (FallingEdge(old(div), div, 13) ==> apu.Clocked(old(apuClockStep)))
      && (!FallingEdge(old(div), div, 13) ==> unchanged(apu.Repr))
    }

    /** The next cycle makes divider bit 13 fall, which clocks the APU. */
    predicate ClocksApu()
      reads this
    {
      FallingEdge(div, div + 1, 13)
    }

    /** The next cycle does not panic: an APU clock it makes does not. */
    predicate CanCycle(apu: Apu.APU)
      reads this, apu, apu.Repr
      requires apu.Valid()
    {
      ClocksApu() ==> apu.CanClock(apuClockStep)
    }

    /**
     * `cycle`: the divider counts up modulo 2^16. When TAC enables the timer and the
     * selected divider bit falls, TIMA counts up; from 0xFF it reloads from TMA and the
     * call reports an overflow. When bit 13 falls, the APU is clocked with the current
     * frame-sequencer step, which then advances modulo 8.
     */
    method Cycle(apu: Apu.APU) returns (timaOverflow: bool)
      requires Valid() && apu.Valid() && CanCycle(apu)
      requires this !in apu.Repr
      modifies this, apu.Repr
      ensures Valid() && apu.Valid()
      ensures Cycled() && timaOverflow == Overflowed()
      ensures FallingEdge(old(div), div, 13) ==> apu.Clocked(old(apuClockStep))
      ensures !FallingEdge(old(div), div, 13) ==> unchanged(apu.Repr)
      ensures apu.channel3.frequency.frequencyTimer == old(apu.channel3.frequency.frequencyTimer)
      ensures apu.channel4.frequency.frequencyTimer == old(apu.channel4.frequency.frequencyTimer)
      ensures apu.channel4.frequency.nr43 == old(apu.channel4.frequency.nr43)
      ensures apu.channel3.frequency.initialFrequency == old(apu.channel3.frequency.initialFrequency)
    {
      var prevDiv := div;
      div := div + 1;
      timaOverflow := TickTima(prevDiv);
      if (prevDiv >> 13) & 1 == 1 && (div >> 13) & 1 == 0 {
        ClockApu(apu);
      }
    }

    /** The APU part of `cycle`: the APU is clocked with the current frame-sequencer step, which advances. */
    method ClockApu(apu: Apu.APU)
      requires Valid() && apu.Valid() && apu.CanClock(apuClockStep)
      requires this !in apu.Repr
      modifies this, apu.Repr
      ensures Valid() && apu.Valid() && apu.Clocked(old(apuClockStep))
      ensures apuClockStep == (old(apuClockStep) + 1) % 8
      ensures div == old(div) && tima == old(tima) && tma == old(tma) && tac == old(tac)
      ensures apu.channel3.frequency.frequencyTimer == old(apu.channel3.frequency.frequencyTimer)
      ensures apu.channel4.frequency.frequencyTimer == old(apu.channel4.frequency.frequencyTimer)
      ensures apu.channel4.frequency.nr43 == old(apu.channel4.frequency.nr43)
      ensures apu.channel3.frequency.initialFrequency == old(apu.channel3.frequency.initialFrequency)
    {
      apu.Clock(apuClockStep);
      apuClockStep := (apuClockStep + 1) % 8;
    }

    /** The TIMA part of `cycle`, given the divider before the increment. */
    method TickTima(prevDiv: bv16) returns (timaOverflow: bool)
      modifies this
      ensures div == old(div) && tma == old(tma) && tac == old(tac)
      ensures apuClockStep == old(apuClockStep)
      ensures
        var t := TAC(tac);
        var ticks := t.IsTimerEnable() && FallingEdge(prevDiv, div, t.ClockSelect());
        (!ticks ==> tima == old(tima) && !timaOverflow)
        && (ticks && old(tima) == 0xFF ==> tima == tma && timaOverflow)
        && (ticks && old(tima) != 0xFF ==> tima == old(tima) + 1 && !timaOverflow)
    {
      var t := TAC(tac);
      timaOverflow := false;
      if t.IsTimerEnable() {
        var clockSelect := t.ClockSelect();
        if (prevDiv >> clockSelect) & 1 == 1 && (div >> clockSelect) & 1 == 0 {
          if tima == 0xFF {
            timaOverflow := true;
            tima := tma;
          } else {
            tima := tima + 1;
          }
        }
      }
    }

    /** `set`: a DIV write clears the divider whatever the value; TIMA, TMA, TAC store it. */
    method Set(address: int, val: bv8)
      requires Valid() && IsRegister(address)
      modifies this
      ensures Valid()
      ensures address == 0xFF04 ==> div == 0 && Get(0xFF04) == 0
      ensures address != 0xFF04 ==> Get(address) == val && div == old(div)
      ensures address != 0xFF05 ==> tima == old(tima)
      ensures address != 0xFF06 ==> tma == old(tma)
      ensures address != 0xFF07 ==> tac == old(tac)
      ensures apuClockStep == old(apuClockStep)
    {
      if address == 0xFF04 {
        div := 0;
      } else if address == 0xFF05 {
        tima := val;
      } else if address == 0xFF06 {
        tma := val;
      } else {
        tac := val;
      }
    }

    /** `get`: DIV reads as the divider's high byte. */
    function Get(address: int): (r: bv8)
      reads this
      requires IsRegister(address)
      ensures address == 0xFF04 ==> r == Hi(div)
    {
      if address == 0xFF04 then Hi(div)
      else if address == 0xFF05 then tima
      else if address == 0xFF06 then tma
      else tac
    }
  }
}
