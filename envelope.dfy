/**
 * The volume envelope of the square and noise channels (NRx2): a starting volume in
 * bits 4-7, a direction in bit 3 and a step period in bits 0-2.
 */
module ApuEnvelope {

  /**
   * One envelope clock on (period counter, volume), for a period `sweep` and a
   * direction: nothing with period 0; only a count-down while the counter is above 1;
   * otherwise a reload (from 1) or a stay (at 0) and one volume step.
   */
  function ClockStep(sweep: nat, decrease: bool, periodTimer: nat, volume: nat): (r: (nat, nat))
    requires sweep < 8 && periodTimer < 8 && volume < 16
    ensures r.0 < 8 && r.1 < 16
    ensures sweep == 0 ==> r == (periodTimer, volume)
    ensures sweep != 0 && periodTimer > 1 ==> r == (periodTimer - 1, volume)
    ensures sweep != 0 && periodTimer == 1 ==> r.0 == sweep
    ensures !decrease ==> volume <= r.1 <= volume + 1
    ensures decrease ==> volume - 1 <= r.1 <= volume
    ensures r.1 != volume ==> sweep != 0 && periodTimer <= 1
    ensures sweep != 0 && periodTimer <= 1 && !decrease ==> r.1 == if volume < 15 then volume + 1 else 15
    ensures sweep != 0 && periodTimer <= 1 && decrease ==> r.1 == if volume > 0 then volume - 1 else 0
  {
    if sweep == 0 then (periodTimer, volume)
    else if periodTimer > 1 then (periodTimer - 1, volume)
    else
      var timer := if periodTimer == 1 then sweep else 0;
      if volume < 15 && !decrease then (timer, volume + 1)
      else if volume > 0 && decrease then (timer, volume - 1)
      else (timer, volume)
  }

  class Envelope {
    var nrx2: bv8
    var periodTimer: nat
    var volume: nat

    /** The period counter never exceeds the 3-bit period and the volume stays a nibble. */
    ghost predicate Valid()
      reads this
    {
      periodTimer < 8 && volume < 16
    }

    /** `Envelope::new`: the register value with a silent volume. */
    constructor (nrx2: bv8)
      ensures Valid()
      ensures this.nrx2 == nrx2 && periodTimer == 0 && volume == 0
    {
      this.nrx2 := nrx2;
      periodTimer := 0;
      volume := 0;
    }

    /** Bits 4-7: the volume a trigger starts from. */
    function InitialVolume(): (v: nat)
      reads this
      ensures v < 16 && v == nrx2 as int / 16
    {
      ((nrx2 >> 4) & 0xF) as int
    }

    /** Bit 3 clear: the volume steps down. */
    function IsDecrease(): bool
      reads this
    {
      (nrx2 >> 3) & 1 == 0
    }

    /** Bits 0-2: the step period; 0 switches the envelope off. */
    function Sweep(): (s: nat)
      reads this
      ensures s < 8 && s == nrx2 as int % 8
    {
      (nrx2 & 7) as int
    }

    function CurrentVolume(): nat
      reads this
    {
      volume
    }

    /** `restart`: reloads the volume and the period counter from the register. */
    method Restart()
      requires Valid()
      modifies this
      ensures Valid()
      ensures volume == InitialVolume() && periodTimer == Sweep()
      ensures nrx2 == old(nrx2)
    {
      volume := InitialVolume();
      periodTimer := Sweep();
    }

    /** `set`: replaces the register only. */
    method Set(nrx2: bv8)
      requires Valid()
      modifies this
      ensures Valid()
      ensures this.nrx2 == nrx2
      ensures periodTimer == old(periodTimer) && volume == old(volume)
    {
      this.nrx2 := nrx2;
    }

    /**
     * `clock`: with a period of 0 nothing happens; a period counter above 1 only counts
     * down; otherwise the counter reloads (when it was 1) and the volume moves one step
     * up or down, stopping at 15 and at 0.
     */
    method Clock()
      requires Valid()
      modifies this
      ensures Valid()
      ensures nrx2 == old(nrx2)
      ensures (periodTimer, volume) == ClockStep(Sweep(), IsDecrease(), old(periodTimer), old(volume))
    {
      if Sweep() == 0 {
        return;
      }
      if periodTimer > 0 {
        periodTimer := periodTimer - 1;
        if periodTimer == 0 {
          periodTimer := Sweep();
        } else {
          return;
        }
      }
      if volume < 0xF && !IsDecrease() {
        volume := volume + 1;
      } else if volume > 0 && IsDecrease() {
        volume := volume - 1;
      }
    }
  }
}
