/**
 * The timer control register TAC (0xFF07): bit 2 enables TIMA, bits 0-1 choose
 * which bit of the internal 16-bit divider clocks it.
 */
module Tac {

  datatype TAC = TAC(bits: bv8)
  {
    function IsTimerEnable(): (e: bool)
      ensures e <==> bits & 0x04 != 0
    {
      (bits >> 2) & 1 == 1
    }

    /**
     * `clock_select`: the divider bit for each code (00 -> 9, 01 -> 3, 10 -> 5,
     * 11 -> 7). Every code has an arm, so the panic arm is unreachable.
     */
    function ClockSelect(): (k: nat)
      ensures k == 3 || k == 5 || k == 7 || k == 9
      ensures bits & 3 == 0 <==> k == 9
      ensures bits & 3 == 1 <==> k == 3
      ensures bits & 3 == 2 <==> k == 5
      ensures bits & 3 == 3 <==> k == 7
    {
      var b := bits & 3;
      if b == 0 then 9
      else if b == 1 then 3
      else if b == 2 then 5
      else 7
    }
  }

  /** Only bits 0-2 matter to either accessor. */
  lemma OnlyLowBitsMatter(t: TAC, u: TAC)
    requires t.bits & 7 == u.bits & 7
    ensures t.IsTimerEnable() == u.IsTimerEnable()
    ensures t.ClockSelect() == u.ClockSelect()
  {
    assert t.bits & 3 == (t.bits & 7) & 3 && u.bits & 3 == (u.bits & 7) & 3;
  }
}
