/**
 * Square channel 1 (NR10-NR14, 0xFF10-0xFF14): frequency sweep, duty/length, envelope
 * and frequency timer.
 */
module ApuChannel1 {
  import opened Wrappers
  import opened ApuEnvelope
  import opened ApuWaveLength
  import opened ApuFrequency
  import opened ApuFrequencySweep

  /** The register addresses the channel answers to. */
  predicate IsRegister(address: int)
  {
    0xFF10 <= address <= 0xFF14
  }

  class Channel1 {
    var enable: bool
    var nr10: bv8
    var nr11: bv8
    var nr12: bv8
    var nr13: bv8
    var nr14: bv8
    const frequencySweep: FrequencySweep
    const frequency: Frequency
    const waveLength: WaveLength
    const envelope: Envelope
    ghost const Repr: set<object>

    /** The channel owns exactly itself and its sub-units. */
    ghost predicate Owns()
    {
      Repr == {this, frequencySweep, frequency, waveLength, envelope}
    }

    /** The owned sub-units, each in its own valid state. */
    ghost predicate Parts()
      reads this, Repr
    {
      Owns()
      && frequencySweep.Valid() && frequency.Valid() && waveLength.Valid() && envelope.Valid()
    }

    /**
     * A running length counter is positive (the triggering write loads it) and an
     * enabled channel's frequency timer runs, so neither unchecked decrement can underflow.
     */
    ghost predicate Valid()
      reads this, Repr
    {
      Parts()
      && (waveLength.isLengthEnable ==> waveLength.lengthTimer > 0)
      && (enable ==> frequency.frequencyTimer > 0)
    }

    /** `Channel1::default`. */
    constructor ()
      ensures Valid() && fresh(Repr)
      ensures !enable && nr10 == 0 && nr11 == 0 && nr12 == 0 && nr13 == 0 && nr14 == 0
    {
      enable := false;
      nr10, nr11, nr12, nr13, nr14 := 0, 0, 0, 0, 0;
      frequencySweep := new FrequencySweep();
      frequency := new Frequency();
      waveLength := new WaveLength(0);
      envelope := new Envelope(0);
      Repr := {this, frequencySweep, frequency, waveLength, envelope};
    }

    /** A length clock now would expire the length counter. */
    ghost predicate LengthExpires()
      reads this, waveLength
    {
      waveLength.isLengthEnable && waveLength.lengthTimer == 1
    }

    /**
     * `restart`: duty position and length counter, envelope, frequency timer and
     * sweep (seeded with the current frequency) all reload.
     */
    method Restart()
      requires Parts()
      modifies Repr
      ensures Valid()
      ensures enable == old(enable)
      ensures nr10 == old(nr10) && nr11 == old(nr11) && nr12 == old(nr12)
      ensures nr13 == old(nr13) && nr14 == old(nr14)
      ensures waveLength.nrx1 == old(waveLength.nrx1)
      ensures waveLength.isLengthEnable == old(waveLength.isLengthEnable)
      ensures waveLength.currentWaveDutyPosition == 0
      ensures waveLength.lengthTimer == 64 - waveLength.Length()
      ensures envelope.nrx2 == old(envelope.nrx2)
      ensures envelope.volume == envelope.InitialVolume() && envelope.periodTimer == envelope.Sweep()
      ensures frequency.nrx3 == old(frequency.nrx3) && frequency.nrx4 == old(frequency.nrx4)
      ensures frequency.initialFrequency == old(frequency.initialFrequency)
      ensures frequency.frequencyTimer == (2048 - frequency.initialFrequency) * 4
      ensures frequencySweep.nr10 == old(frequencySweep.nr10)
      ensures frequencySweep.shadowFrequency == frequency.initialFrequency
      ensures frequencySweep.timer == frequencySweep.ReloadTime()
    {
      waveLength.Restart();
      envelope.Restart();
      frequency.Restart();
      frequencySweep.Restart(frequency.InitialFrequency());
    }

    /** `cycle`: while enabled, a frequency-timer tick advances the duty position. */
    method Cycle()
      requires Valid()
      modifies Repr
      ensures Valid()
      ensures enable == old(enable)
      ensures nr10 == old(nr10) && nr11 == old(nr11) && nr12 == old(nr12)
      ensures nr13 == old(nr13) && nr14 == old(nr14)
      ensures !enable ==>
        frequency.frequencyTimer == old(frequency.frequencyTimer)
        && waveLength.currentWaveDutyPosition == old(waveLength.currentWaveDutyPosition)
      ensures enable ==>
        var tick := frequency.initialFrequency != 0 && old(frequency.frequencyTimer) == 1;
        waveLength.currentWaveDutyPosition
          == if tick then (old(waveLength.currentWaveDutyPosition) + 1) % 8
             else old(waveLength.currentWaveDutyPosition)
      ensures frequency.initialFrequency == old(frequency.initialFrequency)
      ensures waveLength.lengthTimer == old(waveLength.lengthTimer)
      ensures waveLength.isLengthEnable == old(waveLength.isLengthEnable)
      ensures envelope.volume == old(envelope.volume)
    {
      if !enable {
        return;
      }
      var tick := frequency.Cycle();
      if tick {
        waveLength.Next();
      }
    }

    /** One length clock; expiry disables the channel and zeroes NR14. */
    method ClockLength()
      requires Valid()
      modifies Repr
      ensures Valid()
      ensures old(LengthExpires()) ==> !enable && nr14 == 0
      ensures !old(LengthExpires()) ==> enable == old(enable) && nr14 == old(nr14)
      ensures old(waveLength.isLengthEnable) ==> waveLength.lengthTimer == old(waveLength.lengthTimer) - 1
      ensures !old(waveLength.isLengthEnable) ==> waveLength.lengthTimer == old(waveLength.lengthTimer)
      ensures nr10 == old(nr10) && nr11 == old(nr11) && nr12 == old(nr12) && nr13 == old(nr13)
      ensures waveLength.currentWaveDutyPosition == old(waveLength.currentWaveDutyPosition)
      ensures frequency.initialFrequency == old(frequency.initialFrequency)
      ensures frequencySweep.shadowFrequency == old(frequencySweep.shadowFrequency)
      ensures frequencySweep.timer == old(frequencySweep.timer)
      ensures envelope.volume == old(envelope.volume) && envelope.periodTimer == old(envelope.periodTimer)
    {
      var expired := waveLength.ClockLength();
      if expired {
        enable := false;
        nr14 := 0;
      }
    }

    /**
     * The channel's frequency after a sweep clock: the sweep's next frequency when the
     * clock finds the timer run out, the sweep enabled with a non-zero period and shift,
     * and the next frequency below 2048; the current frequency otherwise.
     */
    ghost function SweptFrequency(): nat
      reads this, frequencySweep, frequency
      requires frequencySweep.Valid()
    {
      var s := frequencySweep;
      if s.timer == 0 && s.enabled && s.SweepTime() > 0 && s.Shift() > 0 && s.NextFrequency() < 2048
      then s.NextFrequency() else frequency.initialFrequency
    }

    /** A sweep clock; a new frequency it produces replaces the channel's. */
    method ClockSweep()
      requires Valid()
      modifies Repr
      ensures Valid()
      ensures enable == old(enable)
      ensures nr10 == old(nr10) && nr11 == old(nr11) && nr12 == old(nr12)
      ensures nr13 == old(nr13) && nr14 == old(nr14)
      ensures frequency.initialFrequency == old(SweptFrequency())
      ensures frequency.initialFrequency == old(frequency.initialFrequency)
        || frequency.initialFrequency == frequencySweep.shadowFrequency
      ensures old(frequencySweep.timer) > 0 ==> frequency.initialFrequency == old(frequency.initialFrequency)
      ensures old(frequencySweep.timer) == 0 ==> frequencySweep.timer == frequencySweep.ReloadTime()
      ensures old(frequencySweep.timer) > 0 ==> frequencySweep.timer == old(frequencySweep.timer) - 1
      ensures waveLength.isLengthEnable == old(waveLength.isLengthEnable)
      ensures waveLength.lengthTimer == old(waveLength.lengthTimer)
      ensures waveLength.currentWaveDutyPosition == old(waveLength.currentWaveDutyPosition)
      ensures envelope.volume == old(envelope.volume) && envelope.periodTimer == old(envelope.periodTimer)
    {
      var newFrequency := frequencySweep.Clock();
      if newFrequency.Some? {
        frequency.SetNewFrequency(newFrequency.value);
      }
    }

    /**
     * The effect of a frame-sequencer clock at `step`: on steps 0, 2, 4 and 6 the length
     * counter counts down, and its expiry disables the channel and zeroes NR14; on steps
     * 2 and 6 the frequency becomes `SweptFrequency`, the sweep's new shadow when it
     * fires; on step 7 the envelope takes one `ClockStep`; the other registers and the
     * duty position stay.
     */
    twostate predicate Clocked(step: nat)
      reads this, Repr
      requires old(Valid()) && Valid()
    {
      nr10 == old(nr10) && nr11 == old(nr11) && nr12 == old(nr12) && nr13 == old(nr13)
      && (step in {0, 2, 4, 6} ==>
        (old(LengthExpires()) ==> !enable && nr14 == 0)
        && (!old(LengthExpires()) ==> enable == old(enable) && nr14 == old(nr14))
        && (old(waveLength.isLengthEnable) ==> waveLength.lengthTimer == old(waveLength.lengthTimer) - 1))
      && (step !in {0, 2, 4, 6} ==>
        enable == old(enable) && nr14 == old(nr14)
        && waveLength.lengthTimer == old(waveLength.lengthTimer)
        && waveLength.isLengthEnable == old(waveLength.isLengthEnable))
      && (step in {2, 6} ==>
        frequency.initialFrequency == old(SweptFrequency())
        && (frequency.initialFrequency == old(frequency.initialFrequency)
            || frequency.initialFrequency == frequencySweep.shadowFrequency))
      && (step !in {2, 6} ==>
        frequency.initialFrequency == old(frequency.initialFrequency)
        && frequencySweep.timer == old(frequencySweep.timer)
        && frequencySweep.shadowFrequency == old(frequencySweep.shadowFrequency))
      && (step == 7 ==>
        (envelope.periodTimer, envelope.volume)
          == ClockStep(envelope.Sweep(), envelope.IsDecrease(), old(envelope.periodTimer), old(envelope.volume)))
      && (step != 7 ==> envelope.volume == old(envelope.volume) && envelope.periodTimer == old(envelope.periodTimer))
      && waveLength.currentWaveDutyPosition == old(waveLength.currentWaveDutyPosition)
    }

    /**
     * `clock`: frame-sequencer step. Steps 0, 2, 4 and 6 clock the length counter
     * (2 and 6 after the sweep) and step 7 the envelope. Jimbot's enable guard
     * evaluates `false;` and falls through, so a disabled channel is clocked too.
     */
    method Clock(step: nat)
      requires Valid()
      modifies Repr
      ensures Valid()
      ensures Clocked(step)
    {
      if step == 0 || step == 4 {
        ClockLength();
      } else if step == 2 || step == 6 {
        ClockSweep();
        ClockLength();
      } else if step == 7 {
        envelope.Clock();
      }
    }

    /** The registers and sub-units after `set`: what the addressed register's write does, and nothing else. */
    twostate predicate Stored(address: int, val: bv8)
      requires old(Valid()) && Valid()
      reads this, Repr
    {
      (address != 0xFF10 ==> nr10 == old(nr10) && frequencySweep.nr10 == old(frequencySweep.nr10))
      && (address != 0xFF11 ==> nr11 == old(nr11) && waveLength.nrx1 == old(waveLength.nrx1))
      && (address != 0xFF12 ==> nr12 == old(nr12) && envelope.nrx2 == old(envelope.nrx2))
      && (address != 0xFF13 ==> nr13 == old(nr13) && frequency.nrx3 == old(frequency.nrx3))
      && (address != 0xFF14 ==> nr14 == old(nr14) && enable == old(enable))
      && (address == 0xFF10 ==> frequencySweep.nr10 == val)
      && (address == 0xFF11 ==> waveLength.nrx1 == val)
      && (address == 0xFF12 ==> envelope.nrx2 == val)
      && (address == 0xFF13 ==> frequency.initialFrequency == InitialFrequencyOf(val, frequency.nrx4))
      && (address == 0xFF14 && (val >> 7) & 1 == 1 ==>
        enable && frequency.nrx4 == val
        && frequency.initialFrequency == InitialFrequencyOf(frequency.nrx3, val)
        && ((val >> 6) & 1 == 1 ==> waveLength.isLengthEnable)
        && waveLength.currentWaveDutyPosition == 0
        && waveLength.lengthTimer == 64 - waveLength.Length()
        && envelope.volume == envelope.InitialVolume()
        && frequency.frequencyTimer == (2048 - frequency.initialFrequency) * 4
        && frequencySweep.shadowFrequency == frequency.initialFrequency)
      && (address == 0xFF14 && (val >> 7) & 1 == 0 ==>
        enable == old(enable) && frequency.nrx4 == old(frequency.nrx4)
        && frequency.initialFrequency == old(frequency.initialFrequency)
        && waveLength.lengthTimer == old(waveLength.lengthTimer))
    }

    /**
     * `set`: stores the register and forwards it to its sub-unit. An NR14 write with
     * bit 7 enables the channel, loads the frequency's high bits, enables length when
     * bit 6 is set, and restarts; without bit 7 it is only stored. Other addresses
     * panic.
     */
    method Set(address: int, val: bv8)
      requires Valid()
      requires IsRegister(address)
      modifies Repr
      ensures Valid() && Stored(address, val)
      ensures Get(address) == val
    {
      if address == 0xFF10 {
        nr10 := val;
        frequencySweep.Set(val);
      } else if address == 0xFF11 {
        nr11 := val;
        waveLength.Set(val);
      } else if address == 0xFF12 {
        nr12 := val;
        envelope.Set(val);
      } else if address == 0xFF13 {
        nr13 := val;
        frequency.SetNrx3(val);
      } else {
        nr14 := val;
        if (val >> 7) & 1 == 1 {
          enable := true;
          frequency.SetNrx4(val);
          if (val >> 6) & 1 == 1 {
            waveLength.EnableLength();
          }
          Restart();
        }
      }
    }

    /** `get`: the stored register; other addresses panic. */
    function Get(address: int): bv8
      reads this
      requires IsRegister(address)
    {
      if address == 0xFF10 then nr10
      else if address == 0xFF11 then nr11
      else if address == 0xFF12 then nr12
      else if address == 0xFF13 then nr13
      else nr14
    }
  }
}
