/**
 * The noise channel 4 (NR41-NR44, 0xFF20-0xFF23): a 15-bit linear-feedback shift
 * register clocked by the noise frequency timer, with length counter and envelope.
 */
module ApuChannel4 {
  import opened ApuEnvelope
  import opened ApuWaveLength
  import opened ApuNoiseFrequency

  /** The register addresses the channel answers to. */
  predicate IsRegister(address: int)
  {
    0xFF20 <= address <= 0xFF23
  }

  /**
   * One LFSR shift: the register moves right by one and the XOR of its two low bits
   * enters at bit 14. In width mode jimbot masks with `!(1 >> 6)`, which is all
   * ones, so the XOR is only OR-ed into bit 6 and bit 6 is never cleared.
   */
  function LfsrStep(lfsr: bv16, widthMode: bool): bv16
  {
    var xorResult := (lfsr & 1) ^ ((lfsr >> 1) & 1);
    var shifted := (lfsr >> 1) | (xorResult << 14);
    if widthMode then (shifted & !(1 >> 6)) | (xorResult << 6) else shifted
  }

  /** A 15-bit register stays 15 bits. */
  lemma LfsrStaysFifteenBits(lfsr: bv16, widthMode: bool)
    requires lfsr < 0x8000
    ensures LfsrStep(lfsr, widthMode) < 0x8000
  {
  }

  /** The feedback, the XOR of the two low bits, lands at bit 14. */
  lemma LfsrFeedbackAtBit14(lfsr: bv16, widthMode: bool)
    requires lfsr < 0x8000
    ensures (LfsrStep(lfsr, widthMode) >> 14) & 1 == (lfsr ^ (lfsr >> 1)) & 1
  {
  }

  /** Without width mode, bits 0-13 are the old bits 1-14. */
  lemma LfsrShiftsRight(lfsr: bv16)
    ensures LfsrStep(lfsr, false) & 0x3FFF == (lfsr >> 1) & 0x3FFF
  {
  }

  /** In width mode, bits 0-13 other than bit 6 are the old bits 1-14 ... */
  lemma LfsrWidthShiftsRight(lfsr: bv16)
    ensures LfsrStep(lfsr, true) & 0x3FBF == (lfsr >> 1) & 0x3FBF
  {
  }

  /** ... and bit 6 is the old bit 7 OR-ed with the feedback. */
  lemma LfsrWidthBitSix(lfsr: bv16)
    ensures (LfsrStep(lfsr, true) >> 6) & 1 == ((lfsr >> 7) | (lfsr ^ (lfsr >> 1))) & 1
  {
  }

  /** The width-mode mask `!(1 >> 6)` clears nothing. */
  lemma WidthMaskIsAllOnes()
    ensures !((1 as bv16) >> 6) == 0xFFFF
  {
  }

  /** In width mode a set bit 7 always lands as a set bit 6: the OR never clears it. */
  lemma WidthModeKeepsBitSix(lfsr: bv16)
    requires (lfsr >> 7) & 1 == 1
    ensures (LfsrStep(lfsr, true) >> 6) & 1 == 1
  {
  }

  class Channel4 {
    var enable: bool
    var lfsr: bv16
    var nr41: bv8
    var nr42: bv8
    var nr43: bv8
    var nr44: bv8
    const frequency: NoiseFrequency
    const waveLength: WaveLength
    const envelope: Envelope
    ghost const Repr: set<object>

    /** The channel owns exactly itself and its sub-units. */
    ghost predicate Owns()
    {
      Repr == {this, frequency, waveLength, envelope}
    }

    /** The owned sub-units, each in its own valid state. */
    ghost predicate Parts()
      reads this, Repr
    {
      Owns()
      && frequency.Valid() && waveLength.Valid() && envelope.Valid()
    }

    /** A running length counter is positive and the LFSR keeps to 15 bits. */
    ghost predicate Valid()
      reads this, Repr
    {
      Parts()
      && (waveLength.isLengthEnable ==> waveLength.lengthTimer > 0)
      && lfsr < 0x8000
    }

    /** `Channel4::default`. */
    constructor ()
      ensures Valid() && fresh(Repr)
      ensures !enable && lfsr == 0 && nr41 == 0 && nr42 == 0 && nr43 == 0 && nr44 == 0
    {
      enable := false;
      lfsr := 0;
      nr41, nr42, nr43, nr44 := 0, 0, 0, 0;
      frequency := new NoiseFrequency();
      waveLength := new WaveLength(0);
      envelope := new Envelope(0);
      Repr := {this, frequency, waveLength, envelope};
    }

    ghost predicate LengthExpires()
      reads this, waveLength
    {
      waveLength.isLengthEnable && waveLength.lengthTimer == 1
    }

    /** `restart`: the LFSR fills with 15 ones; length, envelope and timer reload. */
    method Restart()
      requires Parts() && lfsr < 0x8000
      modifies Repr
      ensures Valid()
      ensures lfsr == 0x7FFF
      ensures enable == old(enable)
      ensures nr41 == old(nr41) && nr42 == old(nr42) && nr43 == old(nr43) && nr44 == old(nr44)
      ensures waveLength.nrx1 == old(waveLength.nrx1)
      ensures waveLength.isLengthEnable == old(waveLength.isLengthEnable)
      ensures waveLength.lengthTimer == 64 - waveLength.Length()
      ensures envelope.nrx2 == old(envelope.nrx2)
      ensures envelope.volume == envelope.InitialVolume() && envelope.periodTimer == envelope.Sweep()
      ensures frequency.nr43 == old(frequency.nr43)
      ensures frequency.frequencyTimer == frequency.InitialFrequency()
    {
      lfsr := 0x7FFF;
      waveLength.Restart();
      envelope.Restart();
      frequency.Restart();
    }

    /**
     * `cycle`: while enabled, a noise-timer tick shifts the LFSR. An NR43 write after the
     * last restart can make a zero timer live, so the unchecked decrement needs it
     * running.
     */
    method Cycle()
      requires Valid()
      requires enable && frequency.InitialFrequency() != 0 ==> frequency.frequencyTimer > 0
      modifies Repr
      ensures Valid()
      ensures enable == old(enable)
      ensures nr41 == old(nr41) && nr42 == old(nr42) && nr43 == old(nr43) && nr44 == old(nr44)
      ensures frequency.nr43 == old(frequency.nr43)
      ensures !enable ==> lfsr == old(lfsr) && frequency.frequencyTimer == old(frequency.frequencyTimer)
      ensures enable ==>
        var tick := frequency.InitialFrequency() != 0 && old(frequency.frequencyTimer) == 1;
        lfsr == if tick then LfsrStep(old(lfsr), frequency.IsWidthMode()) else old(lfsr)
      ensures enable && frequency.InitialFrequency() != 0 ==> frequency.frequencyTimer > 0
      ensures waveLength.lengthTimer == old(waveLength.lengthTimer)
      ensures waveLength.isLengthEnable == old(waveLength.isLengthEnable)
      ensures envelope.volume == old(envelope.volume)
    {
      if enable {
        var tick := frequency.Cycle();
        if tick {
          StepLfsr();
        }
      }
    }

    /** One LFSR shift, in the width mode NR43 selects. */
    method StepLfsr()
      requires Valid()
      modifies this
      ensures Valid() && lfsr == LfsrStep(old(lfsr), frequency.IsWidthMode())
      ensures enable == old(enable)
      ensures nr41 == old(nr41) && nr42 == old(nr42) && nr43 == old(nr43) && nr44 == old(nr44)
    {
      LfsrStaysFifteenBits(lfsr, frequency.IsWidthMode());
      lfsr := LfsrStep(lfsr, frequency.IsWidthMode());
    }

    /**
     * The effect of a frame-sequencer clock at `step`: a disabled channel keeps its
     * state; otherwise on steps 0, 2, 4 and 6 the length counter counts down, and its
     * expiry disables the channel and zeroes NR44, and on step 7 the envelope takes one
     * `ClockStep`; the other registers, the LFSR and the noise timer stay.
     */
    twostate predicate Clocked(step: nat)
      reads this, Repr
      requires old(Valid()) && Valid()
    {
      nr41 == old(nr41) && nr42 == old(nr42) && nr43 == old(nr43) && lfsr == old(lfsr)
      && (!old(enable) ==>
        !enable && nr44 == old(nr44)
        && waveLength.lengthTimer == old(waveLength.lengthTimer)
        && envelope.volume == old(envelope.volume) && envelope.periodTimer == old(envelope.periodTimer))
      && (old(enable) && step in {0, 2, 4, 6} ==>
        (old(LengthExpires()) ==> !enable && nr44 == 0)
        && (!old(LengthExpires()) ==> enable && nr44 == old(nr44))
        && (old(waveLength.isLengthEnable) ==> waveLength.lengthTimer == old(waveLength.lengthTimer) - 1))
      && (step !in {0, 2, 4, 6} ==>
        enable == old(enable) && nr44 == old(nr44)
        && waveLength.lengthTimer == old(waveLength.lengthTimer))
      && (old(enable) && step == 7 ==>
        (envelope.periodTimer, envelope.volume)
          == ClockStep(envelope.Sweep(), envelope.IsDecrease(), old(envelope.periodTimer), old(envelope.volume)))
      && (step != 7 ==> envelope.volume == old(envelope.volume) && envelope.periodTimer == old(envelope.periodTimer))
      && frequency.frequencyTimer == old(frequency.frequencyTimer) && frequency.nr43 == old(frequency.nr43)
    }

    /**
     * `clock`: unlike channels 1-3 a disabled channel returns at once. Otherwise steps
     * 0, 2, 4 and 6 clock the length counter, whose expiry disables the channel and
     * zeroes NR44; step 7 clocks the envelope.
     */
    method Clock(step: nat)
      requires Valid()
      modifies Repr
      ensures Valid()
      ensures Clocked(step)
    {
      if !enable {
        return;
      }
      if step == 0 || step == 2 || step == 4 || step == 6 {
        var expired := waveLength.ClockLength();
        if expired {
          enable := false;
          nr44 := 0;
        }
      } else if step == 7 {
        envelope.Clock();
      }
    }

    /** The registers and sub-units after `set`: what the addressed register's write does, and nothing else. */
    twostate predicate Stored(address: int, val: bv8)
      requires old(Valid()) && Valid()
      reads this, Repr
    {
      (address != 0xFF20 ==> nr41 == old(nr41) && waveLength.nrx1 == old(waveLength.nrx1))
      && (address != 0xFF21 ==> nr42 == old(nr42) && envelope.nrx2 == old(envelope.nrx2))
      && (address != 0xFF22 ==> nr43 == old(nr43) && frequency.nr43 == old(frequency.nr43))
      && (address != 0xFF23 ==> nr44 == old(nr44) && enable == old(enable) && lfsr == old(lfsr))
      && (address == 0xFF20 ==> waveLength.nrx1 == val)
      && (address == 0xFF21 ==> envelope.nrx2 == val)
      && (address == 0xFF22 ==> frequency.nr43 == val)
      && (address == 0xFF23 && (val >> 7) & 1 == 1 ==>
        enable && lfsr == 0x7FFF
        && ((val >> 6) & 1 == 1 ==> waveLength.isLengthEnable)
        && waveLength.lengthTimer == 64 - waveLength.Length()
        && envelope.volume == envelope.InitialVolume()
        && frequency.frequencyTimer == frequency.InitialFrequency())
      && (address == 0xFF23 && (val >> 7) & 1 == 0 ==>
        enable == old(enable) && lfsr == old(lfsr)
        && waveLength.lengthTimer == old(waveLength.lengthTimer))
    }

    /**
     * `set`: stores the register and forwards it. An NR44 write with bit 7 enables the
     * channel, enables length when bit 6 is set, and restarts; without bit 7 it is only
     * stored. Other addresses panic.
     */
    method Set(address: int, val: bv8)
      requires Valid()
      requires IsRegister(address)
      modifies Repr
      ensures Valid() && Stored(address, val)
      ensures Get(address) == val
    {
      if address == 0xFF20 {
        nr41 := val;
        waveLength.Set(val);
      } else if address == 0xFF21 {
        nr42 := val;
        envelope.Set(val);
      } else if address == 0xFF22 {
        nr43 := val;
        frequency.SetNr43(val);
      } else {
        nr44 := val;
        if (val >> 7) & 1 == 1 {
          enable := true;
          if (val >> 6) & 1 == 1 {
            waveLength.EnableLength();
          }
          Restart();
        }
      }
    }

    /** `get`: the stored register; other addresses panic. */
    function Get(address: int): bv8
      reads this
      requires IsRegister(address)
    {
      if address == 0xFF20 then nr41
      else if address == 0xFF21 then nr42
      else if address == 0xFF22 then nr43
      else nr44
    }
  }
}
