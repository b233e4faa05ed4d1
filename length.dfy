/** The length counter of the wave channel (NR31): a full byte of length load. */
module ApuLength {

  class Length {
    var nr31: bv8
    var isLengthEnable: bool
    var lengthTimer: nat

    ghost predicate Valid()
      reads this
    {
      lengthTimer <= 255
    }

    /** `Length::new`. */
    constructor (nr31: bv8)
      ensures Valid()
      ensures this.nr31 == nr31 && !isLengthEnable && lengthTimer == 0
    {
      lengthTimer := 0;
      this.nr31 := nr31;
      isLengthEnable := false;
    }

    /** `restart`: the counter loads 255 minus the register (0 for a load of 255). */
    method Restart()
      requires Valid()
      modifies this
      ensures Valid()
      ensures lengthTimer == 255 - Length()
      ensures nr31 == old(nr31) && isLengthEnable == old(isLengthEnable)
    {
      lengthTimer := 255 - Length();
    }

    /**
     * `clock_length`: when enabled, counts down and reports expiry (which also disables
     * length) exactly when the counter reaches 0; the unchecked decrement requires a
     * running counter to be positive.
     */
    method ClockLength() returns (expired: bool)
      requires Valid()
      requires isLengthEnable ==> lengthTimer > 0
      modifies this
      ensures Valid()
      ensures nr31 == old(nr31)
      ensures !old(isLengthEnable) ==> !expired && !isLengthEnable && lengthTimer == old(lengthTimer)
      ensures old(isLengthEnable) ==>
        lengthTimer == old(lengthTimer) - 1 && expired == (lengthTimer == 0)
        && isLengthEnable == !expired
    {
      if !isLengthEnable {
        return false;
      }
      lengthTimer := lengthTimer - 1;
      if lengthTimer == 0 {
        isLengthEnable := false;
        return true;
      }
      return false;
    }

    method EnableLength()
      modifies this
      ensures isLengthEnable
      ensures nr31 == old(nr31) && lengthTimer == old(lengthTimer)
    {
      isLengthEnable := true;
    }

    /** `set`: replaces the register only; `length()` then reads it back. */
    method Set(nr31: bv8)
      modifies this
      ensures this.nr31 == nr31 && Length() == nr31 as int
      ensures isLengthEnable == old(isLengthEnable) && lengthTimer == old(lengthTimer)
    {
      this.nr31 := nr31;
    }

    function Length(): (l: nat)
      reads this
      ensures l < 256
    {
      nr31 as int
    }
  }
}
