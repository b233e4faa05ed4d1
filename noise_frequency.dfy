/**
 * The frequency timer of the noise channel (NR43): a divisor code in bits 0-2, the
 * width mode in bit 3 and a shift in bits 4-7; the period is the divisor shifted left,
 * truncated to 16 bits.
 */
module ApuNoiseFrequency {
  import opened Bits

  class NoiseFrequency {
    var nr43: bv8
    var frequencyTimer: nat

    ghost predicate Valid()
      reads this
    {
      frequencyTimer < 0x10000
    }

    /** `NoiseFrequency::default`. */
    constructor ()
      ensures Valid()
      ensures nr43 == 0 && frequencyTimer == 0
    {
      nr43 := 0;
      frequencyTimer := 0;
    }

    /** `restart`: the countdown reloads to the period. */
    method Restart()
      requires Valid()
      modifies this
      ensures Valid()
      ensures frequencyTimer == InitialFrequency() && nr43 == old(nr43)
    {
      frequencyTimer := InitialFrequency();
    }

    method SetNr43(nr43: bv8)
      modifies this
      ensures this.nr43 == nr43 && frequencyTimer == old(frequencyTimer)
    {
      this.nr43 := nr43;
    }

    /** `initial_frequency`: `(divisor as u16) << shift`, keeping the low 16 bits. */
    function InitialFrequency(): (f: nat)
      reads this
      ensures f < 0x10000
    {
      (Divisor() * Pow2(Shift())) % 0x10000
    }

    /** `divisor`: 8 for code 0, otherwise 16 times the code. */
    function Divisor(): (d: nat)
      reads this
      ensures nr43 & 7 == 0 ==> d == 8
      ensures nr43 & 7 != 0 ==> d == 16 * (nr43 & 7) as int
    {
      match nr43 & 7
      case 0 => 8
      case 1 => 16
      case 2 => 32
      case 3 => 48
      case 4 => 64
      case 5 => 80
      case 6 => 96
      case 7 => 112
    }

    /** Bits 4-7. */
    function Shift(): (s: nat)
      reads this
      ensures s < 16
    {
      ((nr43 >> 4) & 0xF) as int
    }

    /** Bit 3: the 7-bit LFSR mode. */
    function IsWidthMode(): (w: bool)
      reads this
      ensures w <==> nr43 & 0x08 != 0
    {
      (nr43 >> 3) & 1 == 1
    }

    /**
     * `cycle`: with a zero period nothing happens. Otherwise the countdown (which must
     * be running: the decrement is unchecked) drops by one and, on reaching 0, reloads
     * and reports a tick.
     */
    method Cycle() returns (tick: bool)
      requires Valid()
      requires InitialFrequency() != 0 ==> frequencyTimer > 0
      modifies this
      ensures Valid()
      ensures nr43 == old(nr43)
      ensures InitialFrequency() == 0 ==> !tick && frequencyTimer == old(frequencyTimer)
      ensures InitialFrequency() != 0 ==>
        tick == (old(frequencyTimer) == 1)
        && frequencyTimer == (if tick then InitialFrequency() else old(frequencyTimer) - 1)
        && frequencyTimer > 0
    {
      if InitialFrequency() == 0 {
        return false;
      }
      frequencyTimer := frequencyTimer - 1;
      if frequencyTimer == 0 {
        Restart();
        return true;
      } else {
        return false;
      }
    }
  }
}
