/**
 * The APU as the bus sees it: NR50-NR52 plus the four channels, with register writes
 * and reads routed by address, the frame-sequencer clock fanned out to every channel,
 * and the per-dot cycle forwarded while sound is on.
 */
module Apu {
  import ApuChannel1
  import ApuChannel2
  import ApuChannel3
  import ApuChannel4

  /** The addresses the APU answers to; any other address panics. */
  predicate IsRegister(address: int)
  {
    ApuChannel1.IsRegister(address) || ApuChannel2.IsRegister(address)
    || ApuChannel3.IsRegister(address) || ApuChannel4.IsRegister(address)
    || 0xFF24 <= address <= 0xFF26
  }

  class APU {
    var nr50: bv8
    var nr51: bv8
    var nr52: bv8
    const channel1: ApuChannel1.Channel1
    const channel2: ApuChannel2.Channel2
    const channel3: ApuChannel3.Channel3
    const channel4: ApuChannel4.Channel4
    ghost const Repr: set<object>

    /** The four channels own disjoint state and each is valid. */
    ghost predicate Valid()
      reads this, Repr
    {
      Owns()
      && channel1.Valid() && channel2.Valid() && channel3.Valid() && channel4.Valid()
    }

    /** The APU owns itself and its four channels' disjoint state. */
    ghost predicate Owns()
    {
      channel1.Owns() && channel2.Owns() && channel3.Owns() && channel4.Owns()
      && Repr == {this} + channel1.Repr + channel2.Repr + channel3.Repr + channel4.Repr
      && channel1 in channel1.Repr && channel2 in channel2.Repr
      && channel3 in channel3.Repr && channel4 in channel4.Repr
      && this !in channel1.Repr && this !in channel2.Repr
      && this !in channel3.Repr && this !in channel4.Repr
      && channel1.Repr !! channel2.Repr && channel1.Repr !! channel3.Repr
      && channel1.Repr !! channel4.Repr && channel2.Repr !! channel3.Repr
      && channel2.Repr !! channel4.Repr && channel3.Repr !! channel4.Repr
    }

    /** `APU::default`: sound off, all channels silent. */
    constructor ()
      ensures Valid() && fresh(Repr)
      ensures nr50 == 0 && nr51 == 0 && nr52 == 0
      ensures !IsSoundEnable()
    {
      nr50, nr51, nr52 := 0, 0, 0;
      var c1 := new ApuChannel1.Channel1();
      var c2 := new ApuChannel2.Channel2();
      var c3 := new ApuChannel3.Channel3();
      var c4 := new ApuChannel4.Channel4();
      channel1, channel2, channel3, channel4 := c1, c2, c3, c4;
      Repr := {this} + c1.Repr + c2.Repr + c3.Repr + c4.Repr;
    }

    /** NR52 bit 7: the master sound switch. */
    function IsSoundEnable(): bool
      reads this
    {
      (nr52 >> 7) & 1 == 1
    }

    /**
     * A cycle does not panic: with sound on, the wave and noise channels' frequency
     * timers are running whenever they are about to be decremented.
     */
    predicate CanCycle()
      reads this, Repr
      requires Valid()
    {
      IsSoundEnable() ==>
        (channel3.enable && channel3.frequency.initialFrequency != 0 ==> channel3.frequency.frequencyTimer > 0)
        && (channel4.enable && channel4.frequency.InitialFrequency() != 0 ==> channel4.frequency.frequencyTimer > 0)
    }

    /**
     * A frame-sequencer clock at `step` does not panic: on the length steps 0, 2, 4 and
     * 6 the wave channel's running length counter is positive.
     */
    predicate CanClock(step: nat)
      reads this, Repr
      requires Valid()
    {
      step in {0, 2, 4, 6} && channel3.length.isLengthEnable ==> channel3.length.lengthTimer > 0
    }

    /**
     * `cycle` (the integer part): with sound off nothing changes; otherwise each
     * channel runs one cycle. Sample generation is not part of this model.
     */
    method Cycle()
      requires Valid() && CanCycle()
      modifies Repr
      ensures Valid()
      ensures nr50 == old(nr50) && nr51 == old(nr51) && nr52 == old(nr52)
      ensures !IsSoundEnable() ==> unchanged(Repr)
      ensures channel1.enable == old(channel1.enable) && channel2.enable == old(channel2.enable)
      ensures channel3.enable == old(channel3.enable) && channel4.enable == old(channel4.enable)
      ensures CanCycle()
    {
      if !IsSoundEnable() {
        return;
      }
      channel1.Cycle();
      channel2.Cycle();
      channel3.Cycle();
      channel4.Cycle();
    }

    /** A frame-sequencer clock at `step`: each channel has its own clock effect; NR50-NR52 stay. */
    twostate predicate Clocked(step: nat)
      reads this, Repr
      requires old(Valid()) && Valid()
    {
      nr50 == old(nr50) && nr51 == old(nr51) && nr52 == old(nr52)
      && channel1.Clocked(step) && channel2.Clocked(step)
      && channel3.Clocked(step) && channel4.Clocked(step)
    }

    /** `clock`: one frame-sequencer step for each channel in turn. */
    method Clock(step: nat)
      requires Valid() && CanClock(step)
      modifies Repr
      ensures Valid() && Clocked(step)
      ensures nr50 == old(nr50) && nr51 == old(nr51) && nr52 == old(nr52)
      ensures step !in {0, 2, 4, 6} ==>
        channel1.enable == old(channel1.enable) && channel2.enable == old(channel2.enable)
        && channel3.enable == old(channel3.enable) && channel4.enable == old(channel4.enable)
      ensures channel3.frequency.frequencyTimer == old(channel3.frequency.frequencyTimer)
      ensures channel4.frequency.frequencyTimer == old(channel4.frequency.frequencyTimer)
      ensures channel4.frequency.nr43 == old(channel4.frequency.nr43)
      ensures channel3.frequency.initialFrequency == old(channel3.frequency.initialFrequency)
    {
      ClockSquares(step);
      ClockOthers(step);
    }

    /** The frame-sequencer clock of the two square channels. */
    method ClockSquares(step: nat)
      requires Valid()
      modifies channel1.Repr, channel2.Repr
      ensures Valid() && channel1.Clocked(step) && channel2.Clocked(step)
      ensures unchanged(this) && unchanged(channel3.Repr) && unchanged(channel4.Repr)
    {
      channel1.Clock(step);
      channel2.Clock(step);
    }

    /** The frame-sequencer clock of the wave and noise channels. */
    method ClockOthers(step: nat)
      requires Valid() && CanClock(step)
      modifies channel3.Repr, channel4.Repr
      ensures Valid() && channel3.Clocked(step) && channel4.Clocked(step)
      ensures unchanged(this) && unchanged(channel1.Repr) && unchanged(channel2.Repr)
    {
      channel3.Clock(step);
      channel4.Clock(step);
    }

    /** `get`: routed to the channel owning the address, or NR50-NR52. */
    function Get(address: int): bv8
      reads this, Repr
      requires Valid() && IsRegister(address)
    {
      if ApuChannel1.IsRegister(address) then channel1.Get(address)
      else if ApuChannel2.IsRegister(address) then channel2.Get(address)
      else if ApuChannel3.IsRegister(address) then channel3.Get(address)
      else if ApuChannel4.IsRegister(address) then channel4.Get(address)
      else if address == 0xFF24 then nr50
      else if address == 0xFF25 then nr51
      else nr52
    }

    /**
     * `set`: routed to the channel owning the address, which takes that channel's own
     * write effect, or stored in NR50-NR52; the value reads back, and channels not
     * addressed are untouched.
     */
    method Set(address: int, val: bv8)
      requires Valid() && IsRegister(address)
      modifies Repr
      ensures Valid()
      ensures Get(address) == val
      ensures ApuChannel1.IsRegister(address) ==> channel1.Stored(address, val)
      ensures ApuChannel2.IsRegister(address) ==> channel2.Stored(address, val)
      ensures ApuChannel3.IsRegister(address) ==> channel3.Stored(address, val)
      ensures ApuChannel4.IsRegister(address) ==> channel4.Stored(address, val)
      ensures !ApuChannel1.IsRegister(address) ==> unchanged(channel1.Repr)
      ensures !ApuChannel2.IsRegister(address) ==> unchanged(channel2.Repr)
      ensures !ApuChannel3.IsRegister(address) ==> unchanged(channel3.Repr)
      ensures !ApuChannel4.IsRegister(address) ==> unchanged(channel4.Repr)
      ensures address != 0xFF24 ==> nr50 == old(nr50)
      ensures address != 0xFF25 ==> nr51 == old(nr51)
      ensures address != 0xFF26 ==> nr52 == old(nr52)
    {
      if ApuChannel1.IsRegister(address) {
        SetChannel1(address, val);
      } else if ApuChannel2.IsRegister(address) {
        SetChannel2(address, val);
      } else if ApuChannel3.IsRegister(address) {
        SetChannel3(address, val);
      } else if ApuChannel4.IsRegister(address) {
        SetChannel4(address, val);
      } else {
        SetControl(address, val);
      }
    }

    /** A channel 1 register write: channel 1's own effect; nothing outside channel 1 changes. */
    method SetChannel1(address: int, val: bv8)
      requires Valid() && ApuChannel1.IsRegister(address)
      modifies channel1.Repr
      ensures Valid() && Get(address) == val && channel1.Stored(address, val)
    {
      channel1.Set(address, val);
    }

    /** A channel 2 register write: channel 2's own effect; nothing outside channel 2 changes. */
    method SetChannel2(address: int, val: bv8)
      requires Valid() && ApuChannel2.IsRegister(address)
      modifies channel2.Repr
      ensures Valid() && Get(address) == val && channel2.Stored(address, val)
    {
      channel2.Set(address, val);
    }

    /** A channel 3 register or wave RAM write: channel 3's own effect; nothing outside channel 3 changes. */
    method SetChannel3(address: int, val: bv8)
      requires Valid() && ApuChannel3.IsRegister(address)
      modifies channel3.Repr
      ensures Valid() && Get(address) == val && channel3.Stored(address, val)
    {
      channel3.Set(address, val);
    }

    /** A channel 4 register write: channel 4's own effect; nothing outside channel 4 changes. */
    method SetChannel4(address: int, val: bv8)
      requires Valid() && ApuChannel4.IsRegister(address)
      modifies channel4.Repr
      ensures Valid() && Get(address) == val && channel4.Stored(address, val)
    {
      channel4.Set(address, val);
    }

    /** An NR50, NR51 or NR52 write: stored as is. */
    method SetControl(address: int, val: bv8)
      requires Valid() && 0xFF24 <= address <= 0xFF26
      modifies this
      ensures Valid() && Get(address) == val
      ensures address != 0xFF24 ==> nr50 == old(nr50)
      ensures address != 0xFF25 ==> nr51 == old(nr51)
      ensures address != 0xFF26 ==> nr52 == old(nr52)
    {
      if address == 0xFF24 {
        nr50 := val;
      } else if address == 0xFF25 {
        nr51 := val;
      } else {
        nr52 := val;
      }
    }
  }
}
