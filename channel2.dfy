/** Square channel 2 (NR21-NR24, 0xFF16-0xFF19): channel 1 without the sweep. */
module ApuChannel2 {
  import opened ApuEnvelope
  import opened ApuWaveLength
  import opened ApuFrequency

  /** The register addresses the channel answers to. */
  predicate IsRegister(address: int)
  {
    0xFF16 <= address <= 0xFF19
  }

  class Channel2 {
    var enable: bool
    var nr21: bv8
    var nr22: bv8
    var nr23: bv8
    var nr24: bv8
    const frequency: Frequency
    const waveLength: WaveLength
    const envelope: Envelope
    ghost const Repr: set<object>

    /** The channel owns exactly itself and its sub-units. */
    ghost predicate Owns()
    {
      Repr == {this, frequency, waveLength, envelope}
    }

    /** The owned sub-units, each in its own valid state. */
    ghost predicate Parts()
      reads this, Repr
    {
      Owns()
      && frequency.Valid() && waveLength.Valid() && envelope.Valid()
    }

    /** As for channel 1: a running length counter is positive, an enabled timer runs. */
    ghost predicate Valid()
      reads this, Repr
    {
      Parts()
      && (waveLength.isLengthEnable ==> waveLength.lengthTimer > 0)
      && (enable ==> frequency.frequencyTimer > 0)
    }

    /** `Channel2::default`. */
    constructor ()
      ensures Valid() && fresh(Repr)
      ensures !enable && nr21 == 0 && nr22 == 0 && nr23 == 0 && nr24 == 0
    {
      enable := false;
      nr21, nr22, nr23, nr24 := 0, 0, 0, 0;
      frequency := new Frequency();
      waveLength := new WaveLength(0);
      envelope := new Envelope(0);
      Repr := {this, frequency, waveLength, envelope};
    }

    ghost predicate LengthExpires()
      reads this, waveLength
    {
      waveLength.isLengthEnable && waveLength.lengthTimer == 1
    }

    /** `restart`: duty position and length counter, envelope and frequency timer reload. */
    method Restart()
      requires Parts()
      modifies Repr
      ensures Valid()
      ensures enable == old(enable)
      ensures nr21 == old(nr21) && nr22 == old(nr22) && nr23 == old(nr23) && nr24 == old(nr24)
      ensures waveLength.nrx1 == old(waveLength.nrx1)
      ensures waveLength.isLengthEnable == old(waveLength.isLengthEnable)
      ensures waveLength.currentWaveDutyPosition == 0
      ensures waveLength.lengthTimer == 64 - waveLength.Length()
      ensures envelope.nrx2 == old(envelope.nrx2)
      ensures envelope.volume == envelope.InitialVolume() && envelope.periodTimer == envelope.Sweep()
      ensures frequency.nrx3 == old(frequency.nrx3) && frequency.nrx4 == old(frequency.nrx4)
      ensures frequency.initialFrequency == old(frequency.initialFrequency)
      ensures frequency.frequencyTimer == (2048 - frequency.initialFrequency) * 4
    {
      waveLength.Restart();
      envelope.Restart();
      frequency.Restart();
    }

    /** `cycle`: while enabled, a frequency-timer tick advances the duty position. */
    method Cycle()
      requires Valid()
      modifies Repr
      ensures Valid()
      ensures enable == old(enable)
      ensures nr21 == old(nr21) && nr22 == old(nr22) && nr23 == old(nr23) && nr24 == old(nr24)
      ensures !enable ==>
        frequency.frequencyTimer == old(frequency.frequencyTimer)
        && waveLength.currentWaveDutyPosition == old(waveLength.currentWaveDutyPosition)
      ensures enable ==>
        var tick := frequency.initialFrequency != 0 && old(frequency.frequencyTimer) == 1;
        waveLength.currentWaveDutyPosition
          == if tick then (old(waveLength.currentWaveDutyPosition) + 1) % 8
             else old(waveLength.currentWaveDutyPosition)
      ensures frequency.initialFrequency == old(frequency.initialFrequency)
      ensures waveLength.lengthTimer == old(waveLength.lengthTimer)
      ensures waveLength.isLengthEnable == old(waveLength.isLengthEnable)
      ensures envelope.volume == old(envelope.volume)
    {
      if !enable {
        return;
      }
      var tick := frequency.Cycle();
      if tick {
        waveLength.Next();
      }
    }

    /**
     * The effect of a frame-sequencer clock at `step`: on steps 0, 2, 4 and 6 the length
     * counter counts down, and its expiry disables the channel and zeroes NR24; on step 7
     * the envelope takes one `ClockStep`; the other registers, the frequency and the duty
     * position stay.
     */
    twostate predicate Clocked(step: nat)
      reads this, Repr
      requires old(Valid()) && Valid()
    {
      nr21 == old(nr21) && nr22 == old(nr22) && nr23 == old(nr23)
      && (step in {0, 2, 4, 6} ==>
        (old(LengthExpires()) ==> !enable && nr24 == 0)
        && (!old(LengthExpires()) ==> enable == old(enable) && nr24 == old(nr24))
        && (old(waveLength.isLengthEnable) ==> waveLength.lengthTimer == old(waveLength.lengthTimer) - 1))
      && (step !in {0, 2, 4, 6} ==>
        enable == old(enable) && nr24 == old(nr24)
        && waveLength.lengthTimer == old(waveLength.lengthTimer)
        && waveLength.isLengthEnable == old(waveLength.isLengthEnable))
      && (step == 7 ==>
        (envelope.periodTimer, envelope.volume)
          == ClockStep(envelope.Sweep(), envelope.IsDecrease(), old(envelope.periodTimer), old(envelope.volume)))
      && (step != 7 ==> envelope.volume == old(envelope.volume) && envelope.periodTimer == old(envelope.periodTimer))
      && frequency.initialFrequency == old(frequency.initialFrequency)
      && waveLength.currentWaveDutyPosition == old(waveLength.currentWaveDutyPosition)
    }

    /**
     * `clock`: steps 0, 2, 4 and 6 clock the length counter, whose expiry disables the
     * channel and zeroes NR24; step 7 clocks the envelope. As in channel 1 the enable
     * guard is a no-op.
     */
    method Clock(step: nat)
      requires Valid()
      modifies Repr
      ensures Valid()
      ensures Clocked(step)
    {
      if step == 0 || step == 2 || step == 4 || step == 6 {
        var expired := waveLength.ClockLength();
        if expired {
          enable := false;
          nr24 := 0;
        }
      } else if step == 7 {
        envelope.Clock();
      }
    }

    /** The registers and sub-units after `set`: what the addressed register's write does, and nothing else. */
    twostate predicate Stored(address: int, val: bv8)
      requires old(Valid()) && Valid()
      reads this, Repr
    {
      (address != 0xFF16 ==> nr21 == old(nr21) && waveLength.nrx1 == old(waveLength.nrx1))
      && (address != 0xFF17 ==> nr22 == old(nr22) && envelope.nrx2 == old(envelope.nrx2))
      && (address != 0xFF18 ==> nr23 == old(nr23) && frequency.nrx3 == old(frequency.nrx3))
      && (address != 0xFF19 ==> nr24 == old(nr24) && enable == old(enable))
      && (address == 0xFF16 ==> waveLength.nrx1 == val)
      && (address == 0xFF17 ==> envelope.nrx2 == val)
      && (address == 0xFF18 ==> frequency.initialFrequency == InitialFrequencyOf(val, frequency.nrx4))
      && (address == 0xFF19 && (val >> 7) & 1 == 1 ==>
        enable && frequency.nrx4 == val
        && frequency.initialFrequency == InitialFrequencyOf(frequency.nrx3, val)
        && ((val >> 6) & 1 == 1 ==> waveLength.isLengthEnable)
        && waveLength.currentWaveDutyPosition == 0
        && waveLength.lengthTimer == 64 - waveLength.Length()
        && envelope.volume == envelope.InitialVolume()
        && frequency.frequencyTimer == (2048 - frequency.initialFrequency) * 4)
      && (address == 0xFF19 && (val >> 7) & 1 == 0 ==>
        enable == old(enable) && frequency.nrx4 == old(frequency.nrx4)
        && frequency.initialFrequency == old(frequency.initialFrequency)
        && waveLength.lengthTimer == old(waveLength.lengthTimer))
    }

    /**
     * `set`: stores the register and forwards it. An NR24 write with bit 7 enables the
     * channel, loads the frequency's high bits, enables length when bit 6 is set and
     * restarts; without bit 7 it is only stored. Other addresses panic.
     */
    method Set(address: int, val: bv8)
      requires Valid()
      requires IsRegister(address)
      modifies Repr
      ensures Valid() && Stored(address, val)
      ensures Get(address) == val
    {
      if address == 0xFF16 {
        nr21 := val;
        waveLength.Set(val);
      } else if address == 0xFF17 {
        nr22 := val;
        envelope.Set(val);
      } else if address == 0xFF18 {
        nr23 := val;
        frequency.SetNrx3(val);
      } else {
        nr24 := val;
        if (val >> 7) & 1 == 1 {
          enable := true;
          frequency.SetNrx4(val);
          if (val >> 6) & 1 == 1 {
            waveLength.EnableLength();
          }
          Restart();
        }
      }
    }

    /** `get`: the stored register; other addresses panic. */
    function Get(address: int): bv8
      reads this
      requires IsRegister(address)
    {
      if address == 0xFF16 then nr21
      else if address == 0xFF17 then nr22
      else if address == 0xFF18 then nr23
      else nr24
    }
  }
}
