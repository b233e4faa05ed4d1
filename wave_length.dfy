/**
 * Duty cycle and length counter of the square and noise channels (NRx1): the duty
 * pattern in bits 6-7 and the length load in bits 0-5 (read here as bits 0-4).
 */
module ApuWaveLength {

  /** `APU::PREDETERMINE_SQUARE_WAVES`: the four duty patterns. */
  const SquareWaves: seq<seq<nat>> := [
    [0, 0, 0, 0, 0, 0, 0, 1],
    [0, 0, 0, 0, 0, 0, 1, 1],
    [0, 0, 0, 0, 1, 1, 1, 1],
    [0, 1, 1, 1, 1, 1, 0, 0]
  ]

  /** The number of high samples in a pattern. */
  function HighCount(s: seq<nat>): nat
  {
    if s == [] then 0 else (if s[0] == 1 then 1 else 0) + HighCount(s[1..])
  }

  /**
   * The four patterns hold 1, 2, 4 and 5 high samples out of 8: the last row is a
   * 62.5% duty cycle, not the 75% of the hardware's fourth pattern.
   */
  lemma DutyRatios()
    ensures HighCount(SquareWaves[0]) == 1 && HighCount(SquareWaves[1]) == 2
    ensures HighCount(SquareWaves[2]) == 4 && HighCount(SquareWaves[3]) == 5
  {
    assert HighCount([1, 0, 0]) == 1;
  }

  class WaveLength {
    var nrx1: bv8
    var currentWaveDutyPosition: nat
    var isLengthEnable: bool
    var lengthTimer: nat

    /** The duty position indexes an 8-step pattern and the counter starts at most at 64. */
    ghost predicate Valid()
      reads this
    {
      currentWaveDutyPosition < 8 && lengthTimer <= 64
    }

    /** `WaveLength::new`. */
    constructor (nrx1: bv8)
      ensures Valid()
      ensures this.nrx1 == nrx1 && currentWaveDutyPosition == 0
      ensures !isLengthEnable && lengthTimer == 0
    {
      lengthTimer := 0;
      this.nrx1 := nrx1;
      currentWaveDutyPosition := 0;
      isLengthEnable := false;
    }

    /** `restart`: back to the first duty step; the counter loads 64 minus the length. */
    method Restart()
      requires Valid()
      modifies this
      ensures Valid()
      ensures currentWaveDutyPosition == 0 && lengthTimer == 64 - Length()
      ensures 33 <= lengthTimer <= 64
      ensures nrx1 == old(nrx1) && isLengthEnable == old(isLengthEnable)
    {
      currentWaveDutyPosition := 0;
      lengthTimer := 64 - Length();
    }

    /**
     * `clock_length`: when length is enabled, counts down and reports expiry (which
     * also disables length) exactly when the counter reaches 0. The unchecked
     * decrement requires a running counter to be positive.
     */
    method ClockLength() returns (expired: bool)
      requires Valid()
      requires isLengthEnable ==> lengthTimer > 0
      modifies this
      ensures Valid()
      ensures nrx1 == old(nrx1) && currentWaveDutyPosition == old(currentWaveDutyPosition)
      ensures !old(isLengthEnable) ==> !expired && !isLengthEnable && lengthTimer == old(lengthTimer)
      ensures old(isLengthEnable) ==>
        lengthTimer == old(lengthTimer) - 1 && expired == (lengthTimer == 0)
        && isLengthEnable == !expired
    {
      if !isLengthEnable {
        return false;
      }
      lengthTimer := lengthTimer - 1;
      if lengthTimer == 0 {
        isLengthEnable := false;
        return true;
      }
      return false;
    }

    /** `get_amp`: the current step of the selected duty pattern, 0 or 1. */
    function GetAmp(): (amp: nat)
      reads this
      requires Valid()
      ensures amp <= 1
      ensures amp == 1 <==> Wave()[currentWaveDutyPosition] == 1
    {
      Wave()[currentWaveDutyPosition]
    }

    method EnableLength()
      modifies this
      ensures isLengthEnable
      ensures nrx1 == old(nrx1) && lengthTimer == old(lengthTimer)
      ensures currentWaveDutyPosition == old(currentWaveDutyPosition)
    {
      isLengthEnable := true;
    }

    /** `set`: replaces the register only. */
    method Set(nrx1: bv8)
      modifies this
      ensures this.nrx1 == nrx1
      ensures isLengthEnable == old(isLengthEnable) && lengthTimer == old(lengthTimer)
      ensures currentWaveDutyPosition == old(currentWaveDutyPosition)
    {
      this.nrx1 := nrx1;
    }

    /** `next`: advances the duty position around the 8-step pattern. */
    method Next()
      requires Valid()
      modifies this
      ensures Valid()
      ensures currentWaveDutyPosition == (old(currentWaveDutyPosition) + 1) % 8
      ensures nrx1 == old(nrx1) && isLengthEnable == old(isLengthEnable)
      ensures lengthTimer == old(lengthTimer)
    {
      currentWaveDutyPosition := (currentWaveDutyPosition + 1) % 8;
    }

    /** Bits 6-7: which duty pattern plays. */
    function WavePatternDuty(): (d: nat)
      reads this
      ensures d < 4 && d == nrx1 as int / 64
    {
      ((nrx1 >> 6) & 3) as int
    }

    function Wave(): (w: seq<nat>)
      reads this
      ensures |w| == 8 && forall i :: 0 <= i < 8 ==> w[i] <= 1
    {
      SquareWaves[WavePatternDuty()]
    }

    /** Bits 0-4: the length load. */
    function Length(): (l: nat)
      reads this
      ensures l < 32 && l == nrx1 as int % 32
    {
      (nrx1 & 0x1F) as int
    }
  }
}
