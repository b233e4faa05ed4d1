/**
 * The wave channel 3 (NR30-NR34 at 0xFF1A-0xFF1E, wave RAM at 0xFF30-0xFF3F): 16 bytes
 * of wave RAM unpacked into 32 four-bit samples played in turn.
 */
module ApuChannel3 {
  import opened ApuLength
  import opened ApuFrequency

  /** The register and wave-RAM addresses the channel answers to. */
  predicate IsRegister(address: int)
  {
    0xFF1A <= address <= 0xFF1E || 0xFF30 <= address <= 0xFF3F
  }

  function HighNibble(b: bv8): bv8
  {
    b >> 4
  }

  function LowNibble(b: bv8): bv8
  {
    b & 0xF
  }

  /** Sample `j` of the 32 a wave RAM holds: each byte's high nibble, then its low nibble. */
  function Sample(ram: seq<bv8>, j: nat): bv8
    requires |ram| == 16 && j < 32
  {
    if j % 2 == 0 then HighNibble(ram[j / 2]) else LowNibble(ram[j / 2])
  }

  /** Byte `i` of wave RAM supplies samples `2i` (high nibble) and `2i + 1` (low nibble). */
  lemma SamplesOfByte(ram: seq<bv8>, i: nat)
    requires |ram| == 16 && i < 16
    ensures Sample(ram, 2 * i) == ram[i] >> 4 && Sample(ram, 2 * i + 1) == ram[i] & 0xF
  {
    assert (2 * i) / 2 == i && (2 * i + 1) / 2 == i;
  }

  class Channel3 {
    var enable: bool
    var nr30: bv8
    var nr31: bv8
    var nr32: bv8
    var nr33: bv8
    var nr34: bv8
    const wavePatternRam: array<bv8>
    const wavePattern: array<bv8>
    var waveIndex: nat
    const frequency: Frequency
    const length: Length
    ghost const Repr: set<object>

    /** The channel owns exactly itself, its two wave tables and its sub-units. */
    ghost predicate Owns()
    {
      Repr == {this, wavePatternRam, wavePattern, frequency, length}
      && wavePatternRam.Length == 16 && wavePattern.Length == 32
    }

    /**
     * The sample table is always the unpacked wave RAM (it is rebuilt on every wave
     * RAM write) and the sample index stays inside it.
     */
    ghost predicate Valid()
      reads this, Repr
    {
      Owns()
      && frequency.Valid() && length.Valid()
      && waveIndex < 32
      && forall k :: 0 <= k < 32 ==> wavePattern[k] == Sample(wavePatternRam[..], k)
    }

    /** `Channel3::default`: silent, zeroed wave RAM. */
    constructor ()
      ensures Valid() && fresh(Repr)
      ensures !enable && nr30 == 0 && nr31 == 0 && nr32 == 0 && nr33 == 0 && nr34 == 0
      ensures waveIndex == 0 && forall i :: 0 <= i < 16 ==> wavePatternRam[i] == 0
    {
      enable := false;
      nr30, nr31, nr32, nr33, nr34 := 0, 0, 0, 0, 0;
      var ram := new bv8[16](_ => 0);
      var pattern := new bv8[32](_ => 0);
      wavePatternRam := ram;
      wavePattern := pattern;
      waveIndex := 0;
      frequency := new Frequency();
      length := new Length(0);
      Repr := {this, ram, pattern, frequency, length};
    }

    /** `restart`: the sample index returns to 0; length counter and frequency timer reload. */
    method Restart()
      requires Valid()
      modifies Repr
      ensures Valid()
      ensures waveIndex == 0
      ensures length.lengthTimer == 255 - length.Length()
      ensures length.isLengthEnable == old(length.isLengthEnable) && length.nr31 == old(length.nr31)
      ensures frequency.frequencyTimer == (2048 - frequency.initialFrequency) * 4
      ensures frequency.initialFrequency == old(frequency.initialFrequency)
      ensures frequency.nrx3 == old(frequency.nrx3) && frequency.nrx4 == old(frequency.nrx4)
      ensures enable == old(enable) && nr30 == old(nr30) && nr31 == old(nr31)
      ensures nr32 == old(nr32) && nr33 == old(nr33) && nr34 == old(nr34)
      ensures wavePatternRam[..] == old(wavePatternRam[..])
    {
      waveIndex := 0;
      length.Restart();
      frequency.Restart();
    }

    /**
     * `cycle`: while enabled, a frequency-timer tick advances the sample index modulo
     * 32. NR30 can enable the channel without a restart, so the frequency timer may
     * never have been loaded: its unchecked decrement needs it running.
     */
    method Cycle()
      requires Valid()
      requires enable && frequency.initialFrequency != 0 ==> frequency.frequencyTimer > 0
      modifies Repr
      ensures Valid()
      ensures enable == old(enable) && nr30 == old(nr30)
      ensures !enable ==>
        waveIndex == old(waveIndex) && frequency.frequencyTimer == old(frequency.frequencyTimer)
      ensures enable ==>
        var tick := frequency.initialFrequency != 0 && old(frequency.frequencyTimer) == 1;
        waveIndex == if tick then (old(waveIndex) + 1) % 32 else old(waveIndex)
      ensures enable && frequency.initialFrequency != 0 ==> frequency.frequencyTimer > 0
      ensures frequency.initialFrequency == old(frequency.initialFrequency)
      ensures length.lengthTimer == old(length.lengthTimer)
      ensures length.isLengthEnable == old(length.isLengthEnable)
      ensures wavePatternRam[..] == old(wavePatternRam[..])
    {
      if !enable {
        return;
      }
      var tick := frequency.Cycle();
      if tick {
        waveIndex := (waveIndex + 1) % wavePattern.Length;
      }
    }

    /**
     * The effect of a frame-sequencer clock at `step`: on steps 0, 2, 4 and 6 the length
     * counter counts down, and its expiry disables the channel and zeroes NR30; the
     * other registers, the sample index, the frequency and wave RAM stay.
     */
    twostate predicate Clocked(step: nat)
      reads this, Repr
      requires old(Valid()) && Valid()
    {
      nr31 == old(nr31) && nr32 == old(nr32) && nr33 == old(nr33) && nr34 == old(nr34)
      && (step in {0, 2, 4, 6} ==>
        var expires := old(length.isLengthEnable) && old(length.lengthTimer) == 1;
        (expires ==> !enable && nr30 == 0)
        && (!expires ==> enable == old(enable) && nr30 == old(nr30))
        && (old(length.isLengthEnable) ==> length.lengthTimer == old(length.lengthTimer) - 1))
      && (step !in {0, 2, 4, 6} ==>
        enable == old(enable) && nr30 == old(nr30)
        && length.lengthTimer == old(length.lengthTimer)
        && length.isLengthEnable == old(length.isLengthEnable))
      && waveIndex == old(waveIndex)
      && frequency.initialFrequency == old(frequency.initialFrequency)
      && frequency.frequencyTimer == old(frequency.frequencyTimer)
      && wavePatternRam[..] == old(wavePatternRam[..])
    }

    /**
     * `clock`: steps 0, 2, 4 and 6 clock the length counter, whose expiry disables the
     * channel and zeroes NR30; the enable guard is a no-op. A restart with NR31 = 255,
     * or an NR34 write enabling length without a restart, can leave a running length
     * counter at 0, whose unchecked decrement on one of those steps would panic.
     */
    method Clock(step: nat)
      requires Valid()
      requires step in {0, 2, 4, 6} && length.isLengthEnable ==> length.lengthTimer > 0
      modifies Repr
      ensures Valid()
      ensures step in {0, 2, 4, 6} && length.isLengthEnable ==> length.lengthTimer > 0
      ensures Clocked(step)
    {
      if step == 0 || step == 2 || step == 4 || step == 6 {
        var expired := length.ClockLength();
        if expired {
          enable := false;
          nr30 := 0;
        }
      }
    }

    /** `output_shift`: the right shift of the volume code in NR32 bits 5-6. */
    function OutputShift(): (s: nat)
      reads this
      ensures (nr32 >> 5) & 3 == 0 <==> s == 4
      ensures (nr32 >> 5) & 3 == 1 <==> s == 0
      ensures (nr32 >> 5) & 3 == 2 <==> s == 1
      ensures (nr32 >> 5) & 3 == 3 <==> s == 2
    {
      match (nr32 >> 5) & 3
      case 0 => 4
      case 1 => 0
      case 2 => 1
      case 3 => 2
    }

    /** Rebuilds the 32 samples from the 16 wave-RAM bytes. */
    method RebuildPattern()
      requires wavePatternRam.Length == 16 && wavePattern.Length == 32
      requires wavePatternRam != wavePattern
      modifies wavePattern
      ensures forall k :: 0 <= k < 32 ==> wavePattern[k] == Sample(wavePatternRam[..], k)
    {
      for i := 0 to 16
        invariant forall k :: 0 <= k < 2 * i ==> wavePattern[k] == Sample(wavePatternRam[..], k)
      {
        var w := wavePatternRam[i];
        wavePattern[i * 2] := w >> 4;
        wavePattern[i * 2 + 1] := w & 0xF;
        SamplesOfByte(wavePatternRam[..], i);
      }
    }

    /** The registers and sub-units after `set`: what the addressed register's write does, and nothing else. */
    twostate predicate Stored(address: int, val: bv8)
      requires old(Valid()) && Valid()
      reads this, Repr
    {
      (address != 0xFF1A ==> nr30 == old(nr30) && enable == old(enable))
      && (address != 0xFF1B ==> nr31 == old(nr31) && length.nr31 == old(length.nr31))
      && (address != 0xFF1C ==> nr32 == old(nr32))
      && (address != 0xFF1D ==> nr33 == old(nr33) && frequency.nrx3 == old(frequency.nrx3))
      && (address != 0xFF1E ==>
        nr34 == old(nr34) && frequency.nrx4 == old(frequency.nrx4)
        && waveIndex == old(waveIndex) && length.lengthTimer == old(length.lengthTimer))
      && (address == 0xFF1A ==> enable == ((val >> 7) & 1 == 1))
      && (address == 0xFF1B ==> length.nr31 == val)
      && (address == 0xFF1D ==> frequency.initialFrequency == InitialFrequencyOf(val, frequency.nrx4))
      && (address == 0xFF1E ==>
        frequency.nrx4 == val
        && frequency.initialFrequency == InitialFrequencyOf(frequency.nrx3, val)
        && ((val >> 6) & 1 == 1 ==> length.isLengthEnable)
        && ((val >> 7) & 1 == 1 ==>
              waveIndex == 0 && length.lengthTimer == 255 - length.Length()
              && frequency.frequencyTimer == (2048 - frequency.initialFrequency) * 4)
        && ((val >> 7) & 1 == 0 ==> waveIndex == old(waveIndex)))
      && (0xFF30 <= address <= 0xFF3F ==>
        wavePatternRam[..] == old(wavePatternRam[..])[address - 0xFF30 := val]
        && wavePattern[2 * (address - 0xFF30)] == val >> 4
        && wavePattern[2 * (address - 0xFF30) + 1] == val & 0xF)
      && (!(0xFF30 <= address <= 0xFF3F) ==> wavePatternRam[..] == old(wavePatternRam[..]))
    }

    /**
     * `set`: NR30 enables the channel exactly when bit 7 is set (without a restart);
     * NR31 also loads the length; NR33 and NR34 load the frequency; NR34 bit 6 enables
     * length and bit 7 restarts. A wave-RAM write stores the byte and re-derives the
     * samples. Other addresses panic.
     */
    method Set(address: int, val: bv8)
      requires Valid()
      requires IsRegister(address)
      modifies Repr
      ensures Valid() && Stored(address, val)
      ensures Get(address) == val
    {
      if address == 0xFF1A {
        nr30 := val;
        if (val >> 7) & 1 == 1 {
          enable := true;
        } else {
          enable := false;
        }
      } else if address == 0xFF1B {
        nr31 := val;
        length.Set(val);
      } else if address == 0xFF1C {
        nr32 := val;
      } else if address == 0xFF1D {
        nr33 := val;
        frequency.SetNrx3(val);
      } else if address == 0xFF1E {
        SetNr34(val);
      } else {
        SetWaveRam(address, val);
      }
    }

    /** An NR34 write: the frequency's high bits, the length enable, and a trigger. */
    method SetNr34(val: bv8)
      requires Valid()
      modifies Repr
      ensures Valid() && Stored(0xFF1E, val)
      ensures Get(0xFF1E) == val
    {
      nr34 := val;
      frequency.SetNrx4(val);
      if (val >> 6) & 1 == 1 {
        length.EnableLength();
      }
      if (val >> 7) & 1 == 1 {
        Restart();
      }
    }

    /** A wave RAM write, with the unpacked pattern rebuilt. */
    method SetWaveRam(address: int, val: bv8)
      requires Valid() && 0xFF30 <= address <= 0xFF3F
      modifies Repr
      ensures Valid() && Stored(address, val)
      ensures Get(address) == val
    {
      wavePatternRam[address - 0xFF30] := val;
      RebuildPattern();
    }

    /** `get`: the stored register or wave-RAM byte; other addresses panic. */
    function Get(address: int): bv8
      reads this, wavePatternRam
      requires IsRegister(address)
      requires wavePatternRam.Length == 16
    {
      if address == 0xFF1A then nr30
      else if address == 0xFF1B then nr31
      else if address == 0xFF1C then nr32
      else if address == 0xFF1D then nr33
      else if address == 0xFF1E then nr34
      else wavePatternRam[address - 0xFF30]
    }
  }
}
