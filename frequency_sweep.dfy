/**
 * The frequency sweep of channel 1 (NR10): a period in bits 4-6, a direction in bit 3
 * and a shift in bits 0-2. Every period the shadow frequency moves by itself shifted
 * right; a result above 2047 switches the sweep off.
 */
module ApuFrequencySweep {
  import opened Wrappers
  import opened Bits

  class FrequencySweep {
    var nr10: bv8
    var shadowFrequency: nat
    var timer: nat
    var enabled: bool

    ghost predicate Valid()
      reads this
    {
      shadowFrequency < 2048 && timer <= 8
    }

    /** `FrequencySweep::default`. */
    constructor ()
      ensures Valid()
      ensures nr10 == 0 && shadowFrequency == 0 && timer == 0 && !enabled
    {
      nr10 := 0;
      shadowFrequency := 0;
      timer := 0;
      enabled := false;
    }

    method Set(nr10: bv8)
      modifies this
      ensures this.nr10 == nr10
      ensures shadowFrequency == old(shadowFrequency) && timer == old(timer) && enabled == old(enabled)
    {
      this.nr10 := nr10;
    }

    /** Bits 4-6: the sweep period. */
    function SweepTime(): (t: nat)
      reads this
      ensures t < 8
    {
      ((nr10 >> 4) & 7) as int
    }

    /** Bit 3 clear: the frequency goes down. */
    function IsDecrease(): bool
      reads this
    {
      (nr10 >> 3) & 1 == 0
    }

    /** Bits 0-2: the shift. */
    function Shift(): (s: nat)
      reads this
      ensures s < 8
    {
      (nr10 & 7) as int
    }

    /** The period a fired or restarted sweep counts down from: the period, or 8 for 0. */
    function ReloadTime(): (t: nat)
      reads this
      ensures 1 <= t <= 8
    {
      if SweepTime() > 0 then SweepTime() else 8
    }

    /** The next frequency: the shadow plus or minus the shadow shifted right. */
    function NextFrequency(): (f: nat)
      reads this
      requires Valid()
      ensures IsDecrease() ==> f <= shadowFrequency
      ensures !IsDecrease() ==> shadowFrequency <= f < 4096
    {
      var delta := ShiftRight(shadowFrequency, Shift());
      if IsDecrease() then shadowFrequency - delta else shadowFrequency + delta
    }

    /**
     * `calculate_new_frequency`: computes the next frequency and switches the sweep
     * off when it exceeds 2047. The decreasing case cannot underflow and the increasing
     * case stays below 4096, so jimbot's unchecked arithmetic is safe.
     */
    method CalculateNewFrequency() returns (f: nat)
      requires Valid()
      modifies this
      ensures Valid()
      ensures f == old(NextFrequency())
      ensures enabled == (old(enabled) && f <= 2047)
      ensures nr10 == old(nr10) && shadowFrequency == old(shadowFrequency) && timer == old(timer)
    {
      f := NextFrequency();
      if f > 2047 {
        enabled := false;
      }
    }

    /**
     * `restart`: the shadow takes the channel's frequency, the timer reloads, the
     * sweep is enabled when the period or the shift is non-zero, and with a non-zero
     * shift the overflow check runs once at once.
     */
    method Restart(currentFrequency: nat)
      requires Valid()
      requires currentFrequency < 2048
      modifies this
      ensures Valid()
      ensures shadowFrequency == currentFrequency && timer == ReloadTime()
      ensures nr10 == old(nr10)
      ensures Shift() == 0 ==> enabled == (SweepTime() != 0)
      ensures Shift() != 0 ==> enabled == (NextFrequency() <= 2047)
    {
      shadowFrequency := currentFrequency;
      if SweepTime() > 0 {
        timer := SweepTime();
      } else {
        timer := 8;
      }
      enabled := SweepTime() != 0 || Shift() != 0;
      if Shift() != 0 {
        var _ := CalculateNewFrequency();
      }
    }

    /**
     * `clock`: a running timer only counts down. At 0 it reloads, and an enabled sweep
     * with a non-zero period computes the next frequency; it is returned (and becomes
     * the shadow) exactly when below 2048 with a non-zero shift. Each computation above
     * 2047 switches the sweep off, including the second one made from the new shadow.
     */
    method Clock() returns (r: Option<nat>)
      requires Valid()
      modifies this
      ensures Valid()
      ensures nr10 == old(nr10)
      ensures old(timer) > 0 ==>
        r == None && timer == old(timer) - 1
        && shadowFrequency == old(shadowFrequency) && enabled == old(enabled)
      ensures old(timer) == 0 ==> timer == ReloadTime()
      ensures r.Some? ==>
        old(timer) == 0 && old(enabled) && SweepTime() > 0 && Shift() > 0
        && r.value < 2048 && r.value == old(NextFrequency()) && shadowFrequency == r.value
      ensures r == None ==> shadowFrequency == old(shadowFrequency)
      ensures old(timer) == 0 ==>
        r == if old(enabled) && SweepTime() > 0 && Shift() > 0 && old(NextFrequency()) < 2048
             then Some(old(NextFrequency())) else None
      ensures old(timer) == 0 ==>
        enabled == (old(enabled) && (SweepTime() > 0 ==> old(NextFrequency()) <= 2047)
                    && (r.Some? ==> NextFrequency() <= 2047))
    {
      if timer > 0 {
        timer := timer - 1;
        return None;
      }
      if SweepTime() > 0 {
        timer := SweepTime();
      } else {
        timer := 8;
      }
      if enabled && SweepTime() > 0 {
        var newFrequency := CalculateNewFrequency();
        if newFrequency < 2048 && Shift() > 0 {
          shadowFrequency := newFrequency;
          // jimbot recomputes once more, for the overflow check only
          var _ := CalculateNewFrequency();
          return Some(newFrequency);
        }
      }
      return None;
    }
  }
}
