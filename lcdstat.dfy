/**
 * The LCD status register STAT (0xFF41): the PPU mode in bits 0-1, the LY = LYC
 * coincidence flag in bit 2 and the four interrupt-source selects in bits 3-6.
 */
module LcdStat {

  datatype Mode = HBlank | VBlank | OAMSearch | LCDTransfer

  /** The two-bit code of a mode. */
  function ModeBits(m: Mode): (b: bv8)
    ensures b <= 3
  {
    match m
    case HBlank => 0
    case VBlank => 1
    case OAMSearch => 2
    case LCDTransfer => 3
  }

  /** `LCDSTAT::new`: a zero byte with the mode set. */
  function NewStat(m: Mode): (s: LCDSTAT)
    ensures s.Mode() == m
    ensures s.bits & 0xFC == 0
  {
    LCDSTAT(0).SetMode(m)
  }

  /** The STAT byte; jimbot wraps and unwraps it around every use. */
  datatype LCDSTAT = LCDSTAT(bits: bv8)
  {
    /** `mode`: decodes bits 0-1 (every code is a mode, so the panic arm is unreachable). */
    function Mode(): (m: Mode)
      ensures ModeBits(m) == bits & 3
    {
      var b := bits & 3;
      if b == 0 then HBlank
      else if b == 1 then VBlank
      else if b == 2 then OAMSearch
      else LCDTransfer
    }

    function LyEqLyc(): (e: bool)
      ensures e <==> bits & 0x40 != 0
    {
      (bits >> 6) & 1 == 1
    }

    function OamInterrupt(): (e: bool)
      ensures e <==> bits & 0x20 != 0
    {
      (bits >> 5) & 1 == 1
    }

    function VBlankInterrupt(): (e: bool)
      ensures e <==> bits & 0x10 != 0
    {
      (bits >> 4) & 1 == 1
    }

    function HBlankInterrupt(): (e: bool)
      ensures e <==> bits & 0x08 != 0
    {
      (bits >> 3) & 1 == 1
    }

    /** `set_coincidence`: bit 2 becomes the flag and no other bit changes. */
    function SetCoincidence(lyEqLyc: bool): (s: LCDSTAT)
      ensures s.Coincidence() == lyEqLyc
      ensures s.bits & 0xFB == bits & 0xFB
    {
      LCDSTAT(if lyEqLyc then bits | 0x04 else bits & 0xFB)
    }

    function Coincidence(): (e: bool)
      ensures e <==> bits & 0x04 != 0
    {
      (bits >> 2) & 1 == 1
    }

    /** `set_mode`: bits 0-1 become the mode's code and no other bit changes. */
    function SetMode(m: Mode): (s: LCDSTAT)
      ensures s.Mode() == m
      ensures s.bits & 0xFC == bits & 0xFC
    {
      LCDSTAT((bits & 0xFC) | ModeBits(m))
    }
  }

  /** Setting the coincidence flag does not disturb the mode or the interrupt selects. */
  lemma SetCoincidenceKeepsMode(s: LCDSTAT, c: bool)
    ensures s.SetCoincidence(c).Mode() == s.Mode()
    ensures s.SetCoincidence(c).bits & 0xF8 == s.bits & 0xF8
  {
    var t := s.SetCoincidence(c);
    assert t.bits & 0xFB == s.bits & 0xFB;
    assert t.bits & 3 == s.bits & 3;
  }

  /** Setting the mode does not disturb the coincidence flag or the interrupt selects. */
  lemma SetModeKeepsFlags(s: LCDSTAT, m: Mode)
    ensures s.SetMode(m).Coincidence() == s.Coincidence()
    ensures s.SetMode(m).LyEqLyc() == s.LyEqLyc()
    ensures s.SetMode(m).OamInterrupt() == s.OamInterrupt()
    ensures s.SetMode(m).VBlankInterrupt() == s.VBlankInterrupt()
    ensures s.SetMode(m).HBlankInterrupt() == s.HBlankInterrupt()
  {
    var t := s.SetMode(m);
    assert t.bits & 0xFC == s.bits & 0xFC;
  }

  /** Setting the mode leaves bits 3-7. */
  lemma SetModeKeepsSelects(s: LCDSTAT, m: Mode)
    ensures s.SetMode(m).bits & 0xF8 == s.bits & 0xF8
  {
    var t := s.SetMode(m);
    assert t.bits & 0xFC == s.bits & 0xFC;
  }
}
