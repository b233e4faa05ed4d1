/**
 * The frequency timer of the square and wave channels: an 11-bit frequency from
 * NRx3 (low byte) and bits 0-2 of NRx4, and a countdown of (2048 - f) * 4 dots.
 */
module ApuFrequency {

  /** `calculate_initial_frequency`: bits 0-2 of NRx4 above the NRx3 byte. */
  function InitialFrequencyOf(nrx3: bv8, nrx4: bv8): (f: nat)
    ensures f < 2048
    ensures f % 256 == nrx3 as int && f / 256 == (nrx4 & 7) as int
  {
    (nrx4 & 7) as int * 256 + nrx3 as int
  }

  class Frequency {
    var nrx3: bv8
    var nrx4: bv8
    var initialFrequency: nat
    var frequencyTimer: nat

    ghost predicate Valid()
      reads this
    {
      initialFrequency < 2048 && frequencyTimer <= 8192
    }

    /** `Frequency::default`. */
    constructor ()
      ensures Valid()
      ensures nrx3 == 0 && nrx4 == 0 && initialFrequency == 0 && frequencyTimer == 0
    {
      nrx3, nrx4 := 0, 0;
      initialFrequency, frequencyTimer := 0, 0;
    }

    /** `restart`: the countdown reloads to (2048 - f) * 4, which is at least 4. */
    method Restart()
      requires Valid()
      modifies this
      ensures Valid()
      ensures frequencyTimer == (2048 - initialFrequency) * 4 && frequencyTimer >= 4
      ensures nrx3 == old(nrx3) && nrx4 == old(nrx4) && initialFrequency == old(initialFrequency)
    {
      frequencyTimer := (2048 - initialFrequency) * 4;
    }

    method SetNrx3(nrx3: bv8)
      requires Valid()
      modifies this
      ensures Valid()
      ensures this.nrx3 == nrx3 && nrx4 == old(nrx4)
      ensures initialFrequency == InitialFrequencyOf(nrx3, nrx4)
      ensures frequencyTimer == old(frequencyTimer)
    {
      this.nrx3 := nrx3;
      CalculateInitialFrequency();
    }

    method SetNrx4(nrx4: bv8)
      requires Valid()
      modifies this
      ensures Valid()
      ensures this.nrx4 == nrx4 && nrx3 == old(nrx3)
      ensures initialFrequency == InitialFrequencyOf(nrx3, nrx4)
      ensures frequencyTimer == old(frequencyTimer)
    {
      this.nrx4 := nrx4;
      CalculateInitialFrequency();
    }

    method CalculateInitialFrequency()
      requires Valid()
      modifies this
      ensures Valid()
      ensures initialFrequency == InitialFrequencyOf(nrx3, nrx4)
      ensures nrx3 == old(nrx3) && nrx4 == old(nrx4) && frequencyTimer == old(frequencyTimer)
    {
      initialFrequency := InitialFrequencyOf(nrx3, nrx4);
    }

    /**
     * `cycle`: with frequency 0 nothing happens. Otherwise the countdown (which must
     * be running: the decrement is unchecked) drops by one and, on reaching 0, reloads
     * and reports a tick.
     */
    method Cycle() returns (tick: bool)
      requires Valid()
      requires initialFrequency != 0 ==> frequencyTimer > 0
      modifies this
      ensures Valid()
      ensures nrx3 == old(nrx3) && nrx4 == old(nrx4) && initialFrequency == old(initialFrequency)
      ensures initialFrequency == 0 ==> !tick && frequencyTimer == old(frequencyTimer)
      ensures initialFrequency != 0 ==>
        tick == (old(frequencyTimer) == 1)
        && frequencyTimer == (if tick then (2048 - initialFrequency) * 4 else old(frequencyTimer) - 1)
      ensures initialFrequency != 0 ==> frequencyTimer > 0
    {
      if initialFrequency == 0 {
        return false;
      }
      frequencyTimer := frequencyTimer - 1;
      if frequencyTimer == 0 {
        Restart();
        return true;
      } else {
        return false;
      }
    }

    function InitialFrequency(): (f: nat)
      reads this
    {
      initialFrequency
    }

    /** `set_new_frequency`: the sweep overrides f; the registers are left as they were. */
    method SetNewFrequency(f: nat)
      requires Valid()
      requires f < 2048
      modifies this
      ensures Valid()
      ensures initialFrequency == f
      ensures nrx3 == old(nrx3) && nrx4 == old(nrx4) && frequencyTimer == old(frequencyTimer)
    {
      initialFrequency := f;
    }
  }
}
