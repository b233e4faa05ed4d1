/**
 * The arithmetic and logic helpers of the executor. Each helper takes operand values,
 * writes the flags Z, N, H and C and returns the result byte; every other register keeps
 * its value. The pure functions `...Out` state what each helper computes in terms of
 * the operands' numeric values, and the methods are proved to write exactly that.
 */
module CpuAlu {
  import opened Bits
  import opened CpuRegisters

  /** A result byte with the flags it leaves. */
  datatype Out = Out(value: bv8, flags: Flags)

  /** F holds `fl` and every other register is as before. */
  twostate predicate FlagsWritten(regs: Registers, fl: Flags)
    reads regs
  {
    regs.Valid() && regs.File() == old(regs.File()).WithFlags(fl)
  }

  /** The carry flag as the number added by ADC and subtracted by SBC. */
  function CarryIn(c: bool): (n: bv8)
    ensures n <= 1 && (n == 1 <==> c)
  {
    if c then 1 else 0
  }

  /** The weight `2^k` of bit `k` of a byte. */
  function Weight(k: bv8): bv8
    requires k < 8
  {
    if k == 0 then 1 else if k == 1 then 2 else if k == 2 then 4 else if k == 3 then 8
    else if k == 4 then 16 else if k == 5 then 32 else if k == 6 then 64 else 128
  }

  /** Whether bit `k` of `x` is set, read numerically: `x / 2^k` is odd. */
  predicate IsSet(x: bv8, k: bv8)
    requires k < 8
  {
    (x / Weight(k)) % 2 == 1
  }

  // ---------------------------------------------------------------------------
  // What each helper computes. Sums that could wrap are compared in 16 bits, and
  // byte arithmetic (`+`, `-`, `*`) is modulo 256.

  /** ADD: the sum modulo 256; H when the low nibbles overflow, C when the bytes do. */
  function AddOut(a: bv8, b: bv8): (o: Out)
    ensures o.value == a + b
    ensures o.flags.z <==> o.value == 0
    ensures !o.flags.n
    ensures o.flags.h <==> a % 16 > 15 - b % 16
    ensures o.flags.c <==> a > 0xFF - b
  {
    var res := a as bv16 + b as bv16;
    Out((res & 0xFF) as bv8,
        Flags(res & 0xFF == 0, false, (a & 0x0F) + (b & 0x0F) > 0x0F, res & 0xFF00 != 0))
  }

  /** ADC: as ADD with the incoming carry added as well (`AdcMeaning`). */
  function AdcOut(a: bv8, b: bv8, carry: bool): Out
  {
    if carry then AdcWith(a, b, 1) else AdcWith(a, b, 0)
  }

  /** ADC's sum modulo 256 and its flags, on the operands' values. */
  lemma AdcMeaning(a: bv8, b: bv8, carry: bool)
    ensures var o := AdcOut(a, b, carry);
      && o.value == a + b + CarryIn(carry)
      && (o.flags.z <==> o.value == 0)
      && !o.flags.n
      && (o.flags.h <==> a % 16 + CarryIn(carry) > 15 - b % 16)
      && (o.flags.c <==> a > 0xFF - b || (carry && a == 0xFF - b))
  {
  }

  /** `exe_adc` with the carry already read as the 16-bit number `ci`. */
  function AdcWith(a: bv8, b: bv8, ci: bv16): Out
  {
    var res := a as bv16 + b as bv16 + ci;
    Out((res & 0xFF) as bv8,
        Flags(res & 0xFF == 0, false, (a as bv16 & 0x0F) + (b as bv16 & 0x0F) + ci > 0x0F,
              res & 0xFF00 != 0))
  }

  /** SUB and CP: the difference modulo 256; H on a borrow from bit 4, C from bit 8. */
  function SubOut(a: bv8, b: bv8): (o: Out)
    ensures o.value == a - b
    ensures o.flags.z <==> a == b
    ensures o.flags.n
    ensures o.flags.h <==> a % 16 < b % 16
    ensures o.flags.c <==> a < b
  {
    var res := a - b;
    var overflow := a < b;
    Out(res, Flags(res == 0, true, (a & 0x0F) < (b & 0x0F), overflow))
  }

  /** SBC: as SUB with the incoming carry subtracted as well (`SbcMeaning`). */
  function SbcOut(a: bv8, b: bv8, carry: bool): Out
  {
    if carry then SbcWith(a, b, 1) else SbcWith(a, b, 0)
  }

  /** SBC's difference modulo 256 and its flags, on the operands' values. */
  lemma SbcMeaning(a: bv8, b: bv8, carry: bool)
    ensures var o := SbcOut(a, b, carry);
      && o.value == a - b - CarryIn(carry)
      && (o.flags.z <==> o.value == 0)
      && o.flags.n
      && (o.flags.h <==> a % 16 < b % 16 || (carry && a % 16 == b % 16))
      && (o.flags.c <==> a < b || (carry && a == b))
  {
  }

  /** `exe_sbc` with the carry already read as the 16-bit number `ci`. */
  function SbcWith(a: bv8, b: bv8, ci: bv16): Out
  {
    var res := a as bv16 - b as bv16 - ci;
    Out((res & 0xFF) as bv8,
        Flags(res & 0xFF == 0, true, (a as bv16 & 0x0F) - (b as bv16 & 0x0F) - ci > 0x0F,
              res & 0xFF00 != 0))
  }

  /** AND: H is set and C cleared. */
  function AndOut(a: bv8, b: bv8): (o: Out)
    ensures forall k: bv8 :: k < 8 ==> (IsSet(o.value, k) <==> IsSet(a, k) && IsSet(b, k))
    ensures o.flags == Flags(o.value == 0, false, true, false)
  {
    AndBits(a, b);
    Out(a & b, Flags(a & b == 0, false, true, false))
  }

  /** OR: N, H and C are cleared. */
  function OrOut(a: bv8, b: bv8): (o: Out)
    ensures forall k: bv8 :: k < 8 ==> (IsSet(o.value, k) <==> IsSet(a, k) || IsSet(b, k))
    ensures o.flags == Flags(o.value == 0, false, false, false)
  {
    OrBits(a, b);
    Out(a | b, Flags(a | b == 0, false, false, false))
  }

  /** XOR: N, H and C are cleared. */
  function XorOut(a: bv8, b: bv8): (o: Out)
    ensures forall k: bv8 :: k < 8 ==> (IsSet(o.value, k) <==> IsSet(a, k) != IsSet(b, k))
    ensures o.flags == Flags(o.value == 0, false, false, false)
  {
    XorBits(a, b);
    Out(a ^ b, Flags(a ^ b == 0, false, false, false))
  }

  /** INC: C is kept; H is the carry out of bit 3. */
  function IncOut(x: bv8, carry: bool): (o: Out)
    ensures o.value == x + 1
    ensures o.flags.z <==> x == 0xFF
    ensures !o.flags.n
    ensures o.flags.h <==> x % 16 == 15
    ensures o.flags.c == carry
  {
    var v := x + 1;
    Out(v, Flags(v == 0, false, (x & 0x0F) == 0x0F, carry))
  }

  /** DEC: C is kept; H is the borrow into bit 3. */
  function DecOut(x: bv8, carry: bool): (o: Out)
    ensures o.value == x - 1
    ensures o.flags.z <==> x == 1
    ensures o.flags.n
    ensures o.flags.h <==> x % 16 == 0
    ensures o.flags.c == carry
  {
    var v := x - 1;
    Out(v, Flags(v == 0, true, (x & 0x0F) == 0, carry))
  }

  /** RLC: rotate left, bit 7 goes to bit 0 and to C. */
  function RlcOut(x: bv8): (o: Out)
    ensures o.value == x * 2 + x / 128
    ensures o.flags == Flags(o.value == 0, false, false, x >= 0x80)
  {
    var v := (x << 1) | (x >> 7);
    Out(v, Flags(v == 0, false, false, x >= 0x80))
  }

  /** RRC: rotate right, bit 0 goes to bit 7 and to C. */
  function RrcOut(x: bv8): (o: Out)
    ensures o.value == x / 2 + (x % 2) * 128
    ensures o.flags == Flags(o.value == 0, false, false, x % 2 == 1)
  {
    var v := (x >> 1) | (x << 7);
    Out(v, Flags(v == 0, false, false, x & 1 == 1))
  }

  /** RL: rotate left through the carry. */
  function RlOut(x: bv8, carry: bool): (o: Out)
    ensures o.value == x * 2 + CarryIn(carry)
    ensures o.flags == Flags(o.value == 0, false, false, x >= 0x80)
  {
    var v := (x << 1) | (if carry then 1 else 0);
    Out(v, Flags(v == 0, false, false, x & 0x80 == 0x80))
  }

  /** RR: rotate right through the carry. */
  function RrOut(x: bv8, carry: bool): (o: Out)
    ensures o.value == x / 2 + CarryIn(carry) * 128
    ensures o.flags == Flags(o.value == 0, false, false, x % 2 == 1)
  {
    var v := (x >> 1) | (if carry then 0x80 else 0);
    Out(v, Flags(v == 0, false, false, x & 1 == 1))
  }

  /** SLA: shift left, bit 7 to C, 0 into bit 0. */
  function SlaOut(x: bv8): (o: Out)
    ensures o.value == x * 2
    ensures o.flags == Flags(o.value == 0, false, false, x >= 0x80)
  {
    var v := x << 1;
    Out(v, Flags(v == 0, false, false, x >= 0x80))
  }

  /** SRA: arithmetic shift right, the signed value halved and rounded down. */
  function SraOut(x: bv8): (o: Out)
    ensures AsI8(o.value) as int == AsI8(x) as int / 2
    ensures o.flags == Flags(o.value == 0, false, false, x % 2 == 1)
  {
    var v := (x >> 1) | (x & 0x80);
    Out(v, Flags(v == 0, false, false, x & 1 == 1))
  }

  /** SRL: logical shift right, the unsigned value halved and rounded down. */
  function SrlOut(x: bv8): (o: Out)
    ensures o.value == x / 2
    ensures o.flags == Flags(o.value == 0, false, false, x % 2 == 1)
  {
    var v := x >> 1;
    Out(v, Flags(v == 0, false, false, x & 1 == 1))
  }

  /** SWAP: exchange the two nibbles; all flags but Z cleared. */
  function SwapOut(x: bv8): (o: Out)
    ensures o.value == (x % 16) * 16 + x / 16
    ensures o.flags == Flags(o.value == 0, false, false, false)
  {
    var v := ((x >> 4) & 0x0F) | ((x & 0x0F) << 4);
    Out(v, Flags(v == 0, false, false, false))
  }

  /** BIT n: Z tells whether bit `n` is clear; H is set and C kept. */
  function BitFlags(n: bv8, x: bv8, carry: bool): (fl: Flags)
    requires n < 8
    ensures fl == Flags(!IsSet(x, n), false, true, carry)
  {
    BitOfShift(x, n);
    Flags((x >> n) & 1 == 0, false, true, carry)
  }

  /** `exe_set`: bit `n` set, the others kept. The shift aborts for `n >= 8`. */
  function SetBit(n: bv8, x: bv8): (r: bv8)
    requires n < 8
    ensures forall k: bv8 :: k < 8 ==> (IsSet(r, k) <==> k == n || IsSet(x, k))
  {
    SetBitBits(n, x);
    x | (1 << n)
  }

  /** `exe_res`: bit `n` cleared, the others kept. The shift aborts for `n >= 8`. */
  function ResBit(n: bv8, x: bv8): (r: bv8)
    requires n < 8
    ensures forall k: bv8 :: k < 8 ==> (IsSet(r, k) <==> k != n && IsSet(x, k))
  {
    ResBitBits(n, x);
    x & !(1 << n)
  }

  // ---------------------------------------------------------------------------
  // The helpers themselves: each writes F in the order Z, N, H, C and returns the byte.

  /** Writes the four flags one after another, as every helper ends by doing. */
  method WriteFlags(regs: Registers, fl: Flags)
    requires regs.Valid()
    modifies regs
    ensures FlagsWritten(regs, fl)
  {
    regs.SetF(FFlag.Z, fl.z);
    regs.SetF(FFlag.N, fl.n);
    regs.SetF(FFlag.H, fl.h);
    regs.SetF(FFlag.C, fl.c);
  }

  /** `exe_add`. */
  method Add(regs: Registers, a: bv8, b: bv8) returns (res: bv8)
    requires regs.Valid()
    modifies regs
    ensures res == AddOut(a, b).value && FlagsWritten(regs, AddOut(a, b).flags)
  {
    var o := AddOut(a, b);
    WriteFlags(regs, o.flags);
    res := o.value;
  }

  /** `exe_adc`: the incoming carry is the C flag before the call. */
  method Adc(regs: Registers, a: bv8, b: bv8) returns (res: bv8)
    requires regs.Valid()
    modifies regs
    ensures var o := AdcOut(a, b, old(regs.GetF(FFlag.C)));
      res == o.value && FlagsWritten(regs, o.flags)
  {
    var o := AdcOut(a, b, regs.GetF(FFlag.C));
    WriteFlags(regs, o.flags);
    res := o.value;
  }

  /** `exe_sub`. */
  method Sub(regs: Registers, a: bv8, b: bv8) returns (res: bv8)
    requires regs.Valid()
    modifies regs
    ensures res == SubOut(a, b).value && FlagsWritten(regs, SubOut(a, b).flags)
  {
    var o := SubOut(a, b);
    WriteFlags(regs, o.flags);
    res := o.value;
  }

  /** `exe_cp`: the flags of SUB, the difference itself discarded. */
  method Cp(regs: Registers, a: bv8, b: bv8)
    requires regs.Valid()
    modifies regs
    ensures FlagsWritten(regs, SubOut(a, b).flags)
  {
    WriteFlags(regs, SubOut(a, b).flags);
  }

  /** `exe_sbc`: the incoming carry is the C flag before the call. */
  method Sbc(regs: Registers, a: bv8, b: bv8) returns (res: bv8)
    requires regs.Valid()
    modifies regs
    ensures var o := SbcOut(a, b, old(regs.GetF(FFlag.C)));
      res == o.value && FlagsWritten(regs, o.flags)
  {
    var o := SbcOut(a, b, regs.GetF(FFlag.C));
    WriteFlags(regs, o.flags);
    res := o.value;
  }

  /** `exe_and`. */
  method And(regs: Registers, a: bv8, b: bv8) returns (res: bv8)
    requires regs.Valid()
    modifies regs
    ensures res == AndOut(a, b).value && FlagsWritten(regs, AndOut(a, b).flags)
  {
    var o := AndOut(a, b);
    WriteFlags(regs, o.flags);
    res := o.value;
  }

  /** `exe_or`. */
  method Or(regs: Registers, a: bv8, b: bv8) returns (res: bv8)
    requires regs.Valid()
    modifies regs
    ensures res == OrOut(a, b).value && FlagsWritten(regs, OrOut(a, b).flags)
  {
    var o := OrOut(a, b);
    WriteFlags(regs, o.flags);
    res := o.value;
  }

  /** `exe_xor`. */
  method Xor(regs: Registers, a: bv8, b: bv8) returns (res: bv8)
    requires regs.Valid()
    modifies regs
    ensures res == XorOut(a, b).value && FlagsWritten(regs, XorOut(a, b).flags)
  {
    var o := XorOut(a, b);
    WriteFlags(regs, o.flags);
    res := o.value;
  }

  /** The flag updates of `exe_inc_r8` and `exe_inc_addrr16`: C is left alone. */
  method Inc(regs: Registers, x: bv8) returns (res: bv8)
    requires regs.Valid()
    modifies regs
    ensures var o := IncOut(x, old(regs.GetF(FFlag.C)));
      res == o.value && FlagsWritten(regs, o.flags)
  {
    var o := IncOut(x, regs.GetF(FFlag.C));
    regs.SetF(FFlag.Z, o.flags.z);
    regs.SetF(FFlag.N, o.flags.n);
    regs.SetF(FFlag.H, o.flags.h);
    res := o.value;
  }

  /** `exe_dec_u8`: C is left alone. */
  method Dec(regs: Registers, x: bv8) returns (res: bv8)
    requires regs.Valid()
    modifies regs
    ensures var o := DecOut(x, old(regs.GetF(FFlag.C)));
      res == o.value && FlagsWritten(regs, o.flags)
  {
    var o := DecOut(x, regs.GetF(FFlag.C));
    regs.SetF(FFlag.Z, o.flags.z);
    regs.SetF(FFlag.N, o.flags.n);
    regs.SetF(FFlag.H, o.flags.h);
    res := o.value;
  }

  /** `exe_rlc`. */
  method Rlc(regs: Registers, x: bv8) returns (res: bv8)
    requires regs.Valid()
    modifies regs
    ensures res == RlcOut(x).value && FlagsWritten(regs, RlcOut(x).flags)
  {
    var o := RlcOut(x);
    WriteFlags(regs, o.flags);
    res := o.value;
  }

  /** `exe_rrc`. */
  method Rrc(regs: Registers, x: bv8) returns (res: bv8)
    requires regs.Valid()
    modifies regs
    ensures res == RrcOut(x).value && FlagsWritten(regs, RrcOut(x).flags)
  {
    var o := RrcOut(x);
    WriteFlags(regs, o.flags);
    res := o.value;
  }

  /** `exe_rl`: the bit shifted in is the C flag before the call. */
  method Rl(regs: Registers, x: bv8) returns (res: bv8)
    requires regs.Valid()
    modifies regs
    ensures var o := RlOut(x, old(regs.GetF(FFlag.C)));
      res == o.value && FlagsWritten(regs, o.flags)
  {
    var o := RlOut(x, regs.GetF(FFlag.C));
    WriteFlags(regs, o.flags);
    res := o.value;
  }

  /** `rr`: the bit shifted in is the C flag before the call. */
  method Rr(regs: Registers, x: bv8) returns (res: bv8)
    requires regs.Valid()
    modifies regs
    ensures var o := RrOut(x, old(regs.GetF(FFlag.C)));
      res == o.value && FlagsWritten(regs, o.flags)
  {
    var o := RrOut(x, regs.GetF(FFlag.C));
    WriteFlags(regs, o.flags);
    res := o.value;
  }

  /** `exe_sla`. */
  method Sla(regs: Registers, x: bv8) returns (res: bv8)
    requires regs.Valid()
    modifies regs
    ensures res == SlaOut(x).value && FlagsWritten(regs, SlaOut(x).flags)
  {
    var o := SlaOut(x);
    WriteFlags(regs, o.flags);
    res := o.value;
  }

  /** `exe_sra`. */
  method Sra(regs: Registers, x: bv8) returns (res: bv8)
    requires regs.Valid()
    modifies regs
    ensures res == SraOut(x).value && FlagsWritten(regs, SraOut(x).flags)
  {
    var o := SraOut(x);
    WriteFlags(regs, o.flags);
    res := o.value;
  }

  /** `srl`. */
  method Srl(regs: Registers, x: bv8) returns (res: bv8)
    requires regs.Valid()
    modifies regs
    ensures res == SrlOut(x).value && FlagsWritten(regs, SrlOut(x).flags)
  {
    var o := SrlOut(x);
    WriteFlags(regs, o.flags);
    res := o.value;
  }

  /** `exe_swap`. */
  method Swap(regs: Registers, x: bv8) returns (res: bv8)
    requires regs.Valid()
    modifies regs
    ensures res == SwapOut(x).value && FlagsWritten(regs, SwapOut(x).flags)
  {
    var o := SwapOut(x);
    WriteFlags(regs, o.flags);
    res := o.value;
  }

  /** `bit`: writes Z, N and H; C is left alone. */
  method Bit(regs: Registers, n: bv8, x: bv8)
    requires regs.Valid() && n < 8
    modifies regs
    ensures FlagsWritten(regs, BitFlags(n, x, old(regs.GetF(FFlag.C))))
  {
    var fl := BitFlags(n, x, regs.GetF(FFlag.C));
    regs.SetF(FFlag.Z, fl.z);
    regs.SetF(FFlag.N, fl.n);
    regs.SetF(FFlag.H, fl.h);
  }

  // ---------------------------------------------------------------------------
  // How the helpers relate to one another

  /** ADC with C clear is ADD, and SBC with C clear is SUB. */
  lemma CarryClearIsPlain(a: bv8, b: bv8)
    ensures AdcOut(a, b, false) == AddOut(a, b)
    ensures SbcOut(a, b, false) == SubOut(a, b)
  {
  }

  /** SUB undoes ADD, and borrows exactly where the addition carried. */
  lemma SubUndoesAdd(a: bv8, b: bv8)
    ensures SubOut(AddOut(a, b).value, b).value == a
    ensures SubOut(AddOut(a, b).value, b).flags.c == AddOut(a, b).flags.c
    ensures SubOut(AddOut(a, b).value, b).flags.h == AddOut(a, b).flags.h
  {
  }

  /** SBC with the same carry undoes ADC, and borrows exactly where it carried. */
  lemma SbcUndoesAdc(a: bv8, b: bv8, carry: bool)
    ensures SbcOut(AdcOut(a, b, carry).value, b, carry).value == a
    ensures SbcOut(AdcOut(a, b, carry).value, b, carry).flags.c == AdcOut(a, b, carry).flags.c
  {
    if carry {
      SbcUndoesAdcWithCarry(a, b);
    } else {
      CarryClearIsPlain(a, b);
      CarryClearIsPlain(a + b, b);
      SubUndoesAdd(a, b);
    }
  }

  lemma SbcUndoesAdcWithCarry(a: bv8, b: bv8)
    ensures SbcOut(AdcOut(a, b, true).value, b, true).value == a
    ensures SbcOut(AdcOut(a, b, true).value, b, true).flags.c == AdcOut(a, b, true).flags.c
  {
  }

  /** RRC and RLC undo each other. */
  lemma RotateCircularInverse(x: bv8)
    ensures RrcOut(RlcOut(x).value).value == x
    ensures RlcOut(RrcOut(x).value).value == x
  {
  }

  /** RR fed the carry RL produced undoes RL and gives back the carry it consumed. */
  lemma RotateThroughCarryInverse(x: bv8, carry: bool)
    ensures var l := RlOut(x, carry); RrOut(l.value, l.flags.c) == Out(x, Flags(x == 0, false, false, carry))
    ensures var r := RrOut(x, carry); RlOut(r.value, r.flags.c) == Out(x, Flags(x == 0, false, false, carry))
  {
  }

  /** SWAP is its own inverse. */
  lemma SwapInvolution(x: bv8)
    ensures SwapOut(SwapOut(x).value).value == x
  {
  }

  /** SRL after SLA loses only bit 7; SLA after SRL loses only bit 0. */
  lemma ShiftRoundTrip(x: bv8)
    ensures SrlOut(SlaOut(x).value).value == x % 128
    ensures SlaOut(SrlOut(x).value).value == x - x % 2
  {
  }

  /** BIT reads what SET and RES wrote, and RES clears what SET set. */
  lemma BitSeesSetAndRes(n: bv8, x: bv8, carry: bool)
    requires n < 8
    ensures !BitFlags(n, SetBit(n, x), carry).z
    ensures BitFlags(n, ResBit(n, x), carry).z
    ensures ResBit(n, SetBit(n, x)) == ResBit(n, x)
    ensures SetBit(n, ResBit(n, x)) == SetBit(n, x)
  {
  }

  // ---------------------------------------------------------------------------
  // Bit-level facts behind the logical operations

  /** Bit `k` of a byte, read by shifting, is its numeric bit. */
  lemma BitOfShift(x: bv8, k: bv8)
    requires k < 8
    ensures ((x >> k) & 1 == 1) <==> IsSet(x, k)
  {
  }

  lemma AndBits(a: bv8, b: bv8)
    ensures forall k: bv8 :: k < 8 ==> (IsSet(a & b, k) <==> IsSet(a, k) && IsSet(b, k))
  {
    forall k: bv8 | k < 8
      ensures IsSet(a & b, k) <==> IsSet(a, k) && IsSet(b, k)
    {
      BitOfShift(a & b, k);
      BitOfShift(a, k);
      BitOfShift(b, k);
    }
  }

  lemma OrBits(a: bv8, b: bv8)
    ensures forall k: bv8 :: k < 8 ==> (IsSet(a | b, k) <==> IsSet(a, k) || IsSet(b, k))
  {
    forall k: bv8 | k < 8
      ensures IsSet(a | b, k) <==> IsSet(a, k) || IsSet(b, k)
    {
      BitOfShift(a | b, k);
      BitOfShift(a, k);
      BitOfShift(b, k);
    }
  }

  lemma XorBits(a: bv8, b: bv8)
    ensures forall k: bv8 :: k < 8 ==> (IsSet(a ^ b, k) <==> IsSet(a, k) != IsSet(b, k))
  {
    forall k: bv8 | k < 8
      ensures IsSet(a ^ b, k) <==> IsSet(a, k) != IsSet(b, k)
    {
      BitOfShift(a ^ b, k);
      BitOfShift(a, k);
      BitOfShift(b, k);
    }
  }

  lemma SetBitBits(n: bv8, x: bv8)
    requires n < 8
    ensures forall k: bv8 :: k < 8 ==> (IsSet(x | (1 << n), k) <==> k == n || IsSet(x, k))
  {
    var r := x | (1 << n);
    forall k: bv8 | k < 8
      ensures IsSet(r, k) <==> k == n || IsSet(x, k)
    {
      SetBitBit(n, x, k);
    }
  }

  /** Bit `k` of `x` with bit `n` set. */
  lemma SetBitBit(n: bv8, x: bv8, k: bv8)
    requires n < 8 && k < 8
    ensures IsSet(x | (1 << n), k) <==> k == n || IsSet(x, k)
  {
    BitOfShift(x | (1 << n), k);
    BitOfShift(x, k);
    assert ((x | (1 << n)) >> k) & 1 == 1 <==> k == n || (x >> k) & 1 == 1;
  }

  lemma ResBitBits(n: bv8, x: bv8)
    requires n < 8
    ensures forall k: bv8 :: k < 8 ==> (IsSet(x & !(1 << n), k) <==> k != n && IsSet(x, k))
  {
    var r := x & !(1 << n);
    forall k: bv8 | k < 8
      ensures IsSet(r, k) <==> k != n && IsSet(x, k)
    {
      ResBitBit(n, x, k);
    }
  }

  /** Bit `k` of `x` with bit `n` cleared. */
  lemma ResBitBit(n: bv8, x: bv8, k: bv8)
    requires n < 8 && k < 8
    ensures IsSet(x & !(1 << n), k) <==> k != n && IsSet(x, k)
  {
    BitOfShift(x & !(1 << n), k);
    BitOfShift(x, k);
    assert ((x & !(1 << n)) >> k) & 1 == 1 <==> k != n && (x >> k) & 1 == 1;
  }
}
