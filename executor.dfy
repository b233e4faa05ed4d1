/**
 * The executor's handlers: what one step does to the registers and the memory bus,
 * and the chain of further steps it hands back. Handlers that only compute take the
 * operand values; those that read or write memory take the bus. A read-modify-write
 * on `(HL)` never writes the bus itself: it returns a one-step chain that stores the
 * result on the next cycle.
 *
 * Jimbot keeps one handler per operand form (`exe_add_r8_r8`, `exe_add_r8_u8`,
 * `exe_add_r8_addrr16`, ...). They differ only in where the second byte comes from,
 * so here one handler per operation takes that byte, and the dispatcher reads it.
 */
module CpuExecutor {
  import opened Wrappers
  import opened Bits
  import opened CpuRegisters
  import opened CpuInstruction
  import opened CpuAlu
  import Mmu

  // ---------------------------------------------------------------------------
  // Steps the handlers hand back

  /** A chain of one step. */
  function Single(op: Op, p1: OpArg, p2: OpArg): (i: Instruction)
    ensures Length(i) == 1
  {
    Instruction(Triple(op, p1, p2), None)
  }

  /** The step that stores a read-modify-write result back at `addr`. */
  function StoreBack(addr: bv16, v: bv8): Instruction
  {
    Single(Ld, AddrU16(addr), U8(v))
  }

  /** `exe_push_u16`: two pre-decrement stores through SP, high byte first. */
  function PushChain(hi: bv8, lo: bv8): (i: Instruction)
    ensures Length(i) == 2
    ensures i.ins == Triple(Ld, AddrRegd16(R16.SP), U8(hi))
    ensures i.next == Some(Single(Ld, AddrRegd16(R16.SP), U8(lo)))
  {
    Instruction(Triple(Ld, AddrRegd16(R16.SP), U8(hi)), Some(Single(Ld, AddrRegd16(R16.SP), U8(lo))))
  }

  /** The return chain of `exe_ret_c`: pop PCl, pop PCh, one internal cycle. */
  function ReturnChain(): (i: Instruction)
    ensures Length(i) == 3
  {
    Instruction(Triple(Ld, Reg8(R8.PCl), AddrReg16i(R16.SP)),
      Some(Instruction(Triple(Ld, Reg8(R8.PCh), AddrReg16i(R16.SP)),
        Some(Single(Internal, Non, Non)))))
  }

  /** `check_cc`: whether a branch condition holds for the flags. */
  function CheckCc(fl: Flags, c: Condition): bool
  {
    match c
    case NZ => !fl.z
    case Z => fl.z
    case NC => !fl.c
    case C => fl.c
  }

  /** The target of a relative jump: PC plus the sign-extended offset, modulo 2^16. */
  function JumpTarget(pc: bv16, e: bv8): bv16
  {
    pc + SignExtend(e)
  }

  /** A relative jump moves PC forward by offsets below 0x80, and back by 0x100 minus the others. */
  lemma JumpDistance(pc: bv16, e: bv8)
    ensures e < 0x80 ==> JumpTarget(pc, e) - pc == e as bv16
    ensures e >= 0x80 ==> pc - JumpTarget(pc, e) == 0x100 - e as bv16
  {
    if e < 0x80 {
      assert SignExtend(e) == e as bv16;
    } else {
      assert SignExtend(e) == e as bv16 + 0xFF00;
    }
  }

  // ---------------------------------------------------------------------------
  // What the register-only handlers leave in the registers

  /** The eight operations on the accumulator with a byte operand. */
  predicate IsArith(op: Op)
  {
    op == Adc || op == Add || op == And || op == Cp || op == Or || op == Sbc || op == Sub || op == Xor
  }

  /** Their results; CP computes what SUB does. */
  function ArithOut(op: Op, a: bv8, b: bv8, carry: bool): Out
    requires IsArith(op)
  {
    match op
    case Adc => AdcOut(a, b, carry)
    case Add => AddOut(a, b)
    case And => AndOut(a, b)
    case Or => OrOut(a, b)
    case Sbc => SbcOut(a, b, carry)
    case Xor => XorOut(a, b)
    case _ => SubOut(a, b)
  }

  // Proof steps for the byte helpers below: `ArithOut` and `ShiftOut` at one known
  // operation. Stating them once per operation keeps each helper's proof small.

  lemma ArithOutIsAdc(a: bv8, b: bv8, c: bool)
    ensures ArithOut(Adc, a, b, c) == AdcOut(a, b, c)
  {
  }

  lemma ArithOutIsAdd(a: bv8, b: bv8, c: bool)
    ensures ArithOut(Add, a, b, c) == AddOut(a, b)
  {
  }

  lemma ArithOutIsSbc(a: bv8, b: bv8, c: bool)
    ensures ArithOut(Sbc, a, b, c) == SbcOut(a, b, c)
  {
  }

  lemma ArithOutIsSub(a: bv8, b: bv8, c: bool)
    ensures ArithOut(Sub, a, b, c) == SubOut(a, b)
  {
  }

  lemma ArithOutIsAnd(a: bv8, b: bv8, c: bool)
    ensures ArithOut(And, a, b, c) == AndOut(a, b)
  {
  }

  lemma ArithOutIsOr(a: bv8, b: bv8, c: bool)
    ensures ArithOut(Or, a, b, c) == OrOut(a, b)
  {
  }

  lemma ArithOutIsXor(a: bv8, b: bv8, c: bool)
    ensures ArithOut(Xor, a, b, c) == XorOut(a, b)
  {
  }

  /** The eight CB rotate and shift operations on one byte. */
  predicate IsShift(op: Op)
  {
    op == Rlc || op == Rrc || op == Rl || op == Rr || op == Sla || op == Sra || op == Srl || op == Swap
  }

  function ShiftOut(op: Op, x: bv8, carry: bool): Out
    requires IsShift(op)
  {
    match op
    case Rlc => RlcOut(x)
    case Rrc => RrcOut(x)
    case Rl => RlOut(x, carry)
    case Rr => RrOut(x, carry)
    case Sla => SlaOut(x)
    case Sra => SraOut(x)
    case Srl => SrlOut(x)
    case _ => SwapOut(x)
  }

  lemma ShiftOutIsRlc(x: bv8, c: bool)
    ensures ShiftOut(Rlc, x, c) == RlcOut(x)
  {
  }

  lemma ShiftOutIsRrc(x: bv8, c: bool)
    ensures ShiftOut(Rrc, x, c) == RrcOut(x)
  {
  }

  lemma ShiftOutIsRl(x: bv8, c: bool)
    ensures ShiftOut(Rl, x, c) == RlOut(x, c)
  {
  }

  lemma ShiftOutIsRr(x: bv8, c: bool)
    ensures ShiftOut(Rr, x, c) == RrOut(x, c)
  {
  }

  lemma ShiftOutIsSla(x: bv8, c: bool)
    ensures ShiftOut(Sla, x, c) == SlaOut(x)
  {
  }

  lemma ShiftOutIsSra(x: bv8, c: bool)
    ensures ShiftOut(Sra, x, c) == SraOut(x)
  {
  }

  lemma ShiftOutIsSrl(x: bv8, c: bool)
    ensures ShiftOut(Srl, x, c) == SrlOut(x)
  {
  }

  lemma ShiftOutIsSwap(x: bv8, c: bool)
    ensures ShiftOut(Swap, x, c) == SwapOut(x)
  {
  }

  /** The one-byte accumulator rotates RLCA, RRCA, RLA and RRA. */
  predicate IsAccRotate(op: Op)
  {
    op == Rlca || op == Rrca || op == Rla || op == Rra
  }

  /**
   * They compute what RLC, RRC, RL and RR compute on A, except that Z is always
   * cleared.
   */
  function AccRotateOut(op: Op, a: bv8, carry: bool): (o: Out)
    requires IsAccRotate(op)
    ensures !o.flags.z && !o.flags.n && !o.flags.h
  {
    var cb := match op
      case Rlca => RlcOut(a)
      case Rrca => RrcOut(a)
      case Rla => RlOut(a, carry)
      case _ => RrOut(a, carry);
    cb.(flags := cb.flags.(z := false))
  }

  /** The accumulator rotates' results, and C takes the bit shifted out. */
  lemma AccRotateValues(op: Op, a: bv8, carry: bool)
    requires IsAccRotate(op)
    ensures var o := AccRotateOut(op, a, carry);
      && (op == Rlca ==> o.value == a * 2 + a / 128 && (o.flags.c <==> a >= 0x80))
      && (op == Rrca ==> o.value == a / 2 + (a % 2) * 128 && (o.flags.c <==> a % 2 == 1))
      && (op == Rla ==> o.value == a * 2 + CarryIn(carry) && (o.flags.c <==> a >= 0x80))
      && (op == Rra ==> o.value == a / 2 + CarryIn(carry) * 128 && (o.flags.c <==> a % 2 == 1))
  {
    match op
    case Rlca => var o := RlcOut(a);
    case Rrca => var o := RrcOut(a);
    case Rla => var o := RlOut(a, carry);
    case Rra => var o := RrOut(a, carry);
  }

  /**
   * `exe_daa`: the BCD correction of A after an addition (N clear) or a subtraction
   * (N set), using H and C from that operation. N is kept, H cleared, C set when the
   * correction carried past 99 and otherwise kept.
   */
  function DaaOut(a: bv8, fl: Flags): (o: Out)
    ensures o.flags.z <==> o.value == 0
    ensures o.flags.n == fl.n && !o.flags.h
    ensures fl.c ==> o.flags.c
    ensures !fl.n && a > 0x99 ==> o.flags.c
  {
    if !fl.n then
      var low: bv8 := if fl.h || a & 0xF > 0x9 then 0x06 else 0;
      var correction: bv8 := if fl.c || a > 0x99 then low | 0x60 else low;
      var v := a + correction;
      Out(v, Flags(v == 0, fl.n, false, fl.c || a > 0x99))
    else if fl.c then
      var v := a + (if fl.h then 0x9A else 0xA0);
      Out(v, Flags(v == 0, fl.n, false, true))
    else if fl.h then
      var v := a + 0xFA;
      Out(v, Flags(v == 0, fl.n, false, fl.c))
    else
      Out(a, Flags(a == 0, fl.n, false, fl.c))
  }

  /** A byte holding two decimal digits, one per nibble. */
  predicate IsBcd(x: bv8)
  {
    x & 0x0F <= 9 && x >> 4 <= 9
  }

  /** Schoolbook decimal addition of two BCD bytes: the two-digit sum and the carry out of the tens. */
  function BcdAdd(a: bv8, b: bv8): (bv8, bool)
    requires IsBcd(a) && IsBcd(b)
  {
    var lo := (a & 0x0F) + (b & 0x0F);
    var hi := (a >> 4) + (b >> 4) + (if lo >= 10 then 1 else 0);
    var loDigit := if lo >= 10 then lo - 10 else lo;
    var hiDigit := if hi >= 10 then hi - 10 else hi;
    (hiDigit * 16 + loDigit, hi >= 10)
  }

  /** Schoolbook decimal subtraction of two BCD bytes: the two-digit difference and the borrow out of the tens. */
  function BcdSub(a: bv8, b: bv8): (bv8, bool)
    requires IsBcd(a) && IsBcd(b)
  {
    var borrowLo := a & 0x0F < b & 0x0F;
    var loDigit := if borrowLo then (a & 0x0F) + 10 - (b & 0x0F) else (a & 0x0F) - (b & 0x0F);
    var bh := (b >> 4) + (if borrowLo then 1 else 0);
    var borrowHi := a >> 4 < bh;
    var hiDigit := if borrowHi then (a >> 4) + 10 - bh else (a >> 4) - bh;
    (hiDigit * 16 + loDigit, borrowHi)
  }

  /** DAA after ADD of two BCD bytes is decimal addition: the two-digit sum, with C the carry out of the tens. */
  lemma DaaAfterAdd(a: bv8, b: bv8)
    requires IsBcd(a) && IsBcd(b)
    ensures var s := AddOut(a, b); var d := DaaOut(s.value, s.flags);
      d.value == BcdAdd(a, b).0 && d.flags.c == BcdAdd(a, b).1
  {
    var s := AddOut(a, b);
    assert s.flags.h == ((a & 0x0F) + (b & 0x0F) > 0x0F);
    DecimalCorrection(a, b, s.value, s.flags);
    DaaAfterAddition(s.value, s.flags);
  }

  /** What DAA does after an addition: 0x06 for a low digit past 9 or a half carry, 0x60 for a sum past 0x99 or a carry. */
  function AddCorrected(v: bv8, fl: Flags): (bv8, bool)
  {
    (v + (if fl.h || v & 0x0F > 9 then 0x06 else 0) + (if fl.c || v > 0x99 then 0x60 else 0),
     fl.c || v > 0x99)
  }

  lemma DaaAfterAddition(v: bv8, fl: Flags)
    requires !fl.n
    ensures DaaOut(v, fl).value == AddCorrected(v, fl).0
    ensures DaaOut(v, fl).flags.c == AddCorrected(v, fl).1
  {
  }

  /** The correction turns the binary sum `v` of two BCD bytes, with its H and C, into their decimal sum. */
  lemma DecimalCorrection(a: bv8, b: bv8, v: bv8, fl: Flags)
    requires IsBcd(a) && IsBcd(b)
    requires v == a + b && fl.h == ((a & 0x0F) + (b & 0x0F) > 0x0F) && fl.c == (a > 0xFF - b)
    ensures AddCorrected(v, fl) == BcdAdd(a, b)
  {
    var lo := (a & 0x0F) + (b & 0x0F);
    var hi := (a >> 4) + (b >> 4);
    if lo < 10 && hi < 10 {
      NoDecimalCarry(a, b, v, fl);
    } else if lo < 10 {
      TensCarry(a, b, v, fl);
    } else if hi < 9 {
      UnitsCarry(a, b, v, fl);
    } else {
      UnitsAndTensCarry(a, b, v, fl);
    }
  }

  /** Neither digit sum reaches ten: no correction. */
  lemma NoDecimalCarry(a: bv8, b: bv8, v: bv8, fl: Flags)
    requires IsBcd(a) && IsBcd(b)
    requires v == a + b && fl.h == ((a & 0x0F) + (b & 0x0F) > 0x0F) && fl.c == (a > 0xFF - b)
    requires (a & 0x0F) + (b & 0x0F) < 10 && (a >> 4) + (b >> 4) < 10
    ensures AddCorrected(v, fl) == BcdAdd(a, b)
  {
  }

  /** Only the tens reach ten: 0x60 is added and C set. */
  lemma TensCarry(a: bv8, b: bv8, v: bv8, fl: Flags)
    requires IsBcd(a) && IsBcd(b)
    requires v == a + b && fl.h == ((a & 0x0F) + (b & 0x0F) > 0x0F) && fl.c == (a > 0xFF - b)
    requires (a & 0x0F) + (b & 0x0F) < 10 && (a >> 4) + (b >> 4) >= 10
    ensures AddCorrected(v, fl) == BcdAdd(a, b)
  {
  }

  /** Only the units reach ten: 0x06 is added. */
  lemma UnitsCarry(a: bv8, b: bv8, v: bv8, fl: Flags)
    requires IsBcd(a) && IsBcd(b)
    requires v == a + b && fl.h == ((a & 0x0F) + (b & 0x0F) > 0x0F) && fl.c == (a > 0xFF - b)
    requires (a & 0x0F) + (b & 0x0F) >= 10 && (a >> 4) + (b >> 4) < 9
    ensures AddCorrected(v, fl) == BcdAdd(a, b)
  {
  }

  /** Both digits carry: 0x66 is added and C set. */
  lemma UnitsAndTensCarry(a: bv8, b: bv8, v: bv8, fl: Flags)
    requires IsBcd(a) && IsBcd(b)
    requires v == a + b && fl.h == ((a & 0x0F) + (b & 0x0F) > 0x0F) && fl.c == (a > 0xFF - b)
    requires (a & 0x0F) + (b & 0x0F) >= 10 && (a >> 4) + (b >> 4) >= 9
    ensures AddCorrected(v, fl) == BcdAdd(a, b)
  {
  }

  /** DAA after SUB of two BCD bytes is decimal subtraction: the two-digit difference, with C the borrow. */
  lemma DaaAfterSub(a: bv8, b: bv8)
    requires IsBcd(a) && IsBcd(b)
    ensures var s := SubOut(a, b); var d := DaaOut(s.value, s.flags);
      d.value == BcdSub(a, b).0 && d.flags.c == BcdSub(a, b).1
  {
    var s := SubOut(a, b);
    assert s.flags.h == (a & 0x0F < b & 0x0F);
    DecimalBorrow(a, b, s.value, s.flags);
    DaaAfterSubtraction(s.value, s.flags);
  }

  /** What DAA does after a subtraction: 0x06 off for a half borrow, 0x60 off for a borrow. */
  function SubCorrected(v: bv8, fl: Flags): (bv8, bool)
  {
    (v - (if fl.h then 0x06 else 0) - (if fl.c then 0x60 else 0), fl.c)
  }

  lemma DaaAfterSubtraction(v: bv8, fl: Flags)
    requires fl.n
    ensures DaaOut(v, fl).value == SubCorrected(v, fl).0
    ensures DaaOut(v, fl).flags.c == SubCorrected(v, fl).1
  {
  }

  /** The correction turns the binary difference `v` of two BCD bytes, with its H and C, into their decimal difference. */
  lemma DecimalBorrow(a: bv8, b: bv8, v: bv8, fl: Flags)
    requires IsBcd(a) && IsBcd(b)
    requires v == a - b && fl.h == (a & 0x0F < b & 0x0F) && fl.c == (a < b)
    ensures SubCorrected(v, fl) == BcdSub(a, b)
  {
    var borrowLo := a & 0x0F < b & 0x0F;
    LessByDigits(a, b);
    if !borrowLo && a >> 4 >= b >> 4 {
      NoDecimalBorrow(a, b, v, fl);
    } else if !borrowLo {
      TensBorrow(a, b, v, fl);
    } else if a >> 4 >= (b >> 4) + 1 {
      UnitsBorrow(a, b, v, fl);
    } else {
      UnitsAndTensBorrow(a, b, v, fl);
    }
  }

  /** Bytes compare as their high nibbles, then their low nibbles. */
  lemma LessByDigits(a: bv8, b: bv8)
    ensures a < b <==> a >> 4 < b >> 4 || (a >> 4 == b >> 4 && a & 0x0F < b & 0x0F)
  {
  }

  /** A difference of bytes taken nibble by nibble, after each correction DAA can subtract. */
  lemma SubNibbles(a: bv8, b: bv8)
    ensures a - b == ((a >> 4) - (b >> 4)) * 16 + ((a & 0x0F) - (b & 0x0F))
    ensures a - b - 0x60 == ((a >> 4) + 10 - (b >> 4)) * 16 + ((a & 0x0F) - (b & 0x0F))
    ensures a - b - 0x06 == ((a >> 4) - ((b >> 4) + 1)) * 16 + ((a & 0x0F) + 10 - (b & 0x0F))
    ensures a - b - 0x06 - 0x60 == ((a >> 4) + 10 - ((b >> 4) + 1)) * 16 + ((a & 0x0F) + 10 - (b & 0x0F))
  {
  }

  /** BcdSub's digits in each of the four borrow cases. */
  lemma NoDecimalBorrowDigits(a: bv8, b: bv8)
    requires IsBcd(a) && IsBcd(b)
    requires a & 0x0F >= b & 0x0F && a >> 4 >= b >> 4
    ensures BcdSub(a, b) == (a - b, false)
  {
    SubNibbles(a, b);
  }

  lemma TensBorrowDigits(a: bv8, b: bv8)
    requires IsBcd(a) && IsBcd(b)
    requires a & 0x0F >= b & 0x0F && a >> 4 < b >> 4
    ensures BcdSub(a, b) == (a - b - 0x60, true)
  {
    SubNibbles(a, b);
  }

  lemma UnitsBorrowDigits(a: bv8, b: bv8)
    requires IsBcd(a) && IsBcd(b)
    requires a & 0x0F < b & 0x0F && a >> 4 >= (b >> 4) + 1
    ensures BcdSub(a, b) == (a - b - 0x06, false)
  {
    SubNibbles(a, b);
  }

  lemma UnitsAndTensBorrowDigits(a: bv8, b: bv8)
    requires IsBcd(a) && IsBcd(b)
    requires a & 0x0F < b & 0x0F && a >> 4 < (b >> 4) + 1
    ensures BcdSub(a, b) == (a - b - 0x06 - 0x60, true)
  {
    SubNibbles(a, b);
  }

  /** Neither digit borrows: no correction. */
  lemma NoDecimalBorrow(a: bv8, b: bv8, v: bv8, fl: Flags)
    requires IsBcd(a) && IsBcd(b)
    requires v == a - b && !fl.h && !fl.c
    requires a & 0x0F >= b & 0x0F && a >> 4 >= b >> 4
    ensures SubCorrected(v, fl) == BcdSub(a, b)
  {
    NoDecimalBorrowDigits(a, b);
  }

  /** Only the tens borrow: 0x60 is taken off and C set. */
  lemma TensBorrow(a: bv8, b: bv8, v: bv8, fl: Flags)
    requires IsBcd(a) && IsBcd(b)
    requires v == a - b && !fl.h && fl.c
    requires a & 0x0F >= b & 0x0F && a >> 4 < b >> 4
    ensures SubCorrected(v, fl) == BcdSub(a, b)
  {
    TensBorrowDigits(a, b);
  }

  /** Only the units borrow: 0x06 is taken off. */
  lemma UnitsBorrow(a: bv8, b: bv8, v: bv8, fl: Flags)
    requires IsBcd(a) && IsBcd(b)
    requires v == a - b && fl.h && !fl.c
    requires a & 0x0F < b & 0x0F && a >> 4 >= (b >> 4) + 1
    ensures SubCorrected(v, fl) == BcdSub(a, b)
  {
    UnitsBorrowDigits(a, b);
  }

  /** Both digits borrow: 0x66 is taken off and C set. */
  lemma UnitsAndTensBorrow(a: bv8, b: bv8, v: bv8, fl: Flags)
    requires IsBcd(a) && IsBcd(b)
    requires v == a - b && fl.h && fl.c
    requires a & 0x0F < b & 0x0F && a >> 4 < (b >> 4) + 1
    ensures SubCorrected(v, fl) == BcdSub(a, b)
  {
    UnitsAndTensBorrowDigits(a, b);
  }

  /**
   * The flags of `ADD SP,e` and `LD HL,SP+e`: Z and N clear, H and C the carries out of
   * bits 3 and 7 when the low byte of the word and the offset byte are added unsigned.
   */
  function SpOffsetFlags(w: bv16, e: bv8): (fl: Flags)
    ensures fl == AddOut(Lo(w), e).flags.(z := false)
  {
    var u := SignExtend(e);
    Flags(false, false, (w & 0x0F) + (u & 0x0F) > 0x0F, (w & 0xFF) + (u & 0xFF) > 0xFF)
  }

  /**
   * The flags of `ADD rr,rr` computed in 32 bits: Z kept, N clear, H the carry out of
   * bit 11 and C the carry out of bit 15.
   */
  function AddWordFlags(a: bv16, b: bv16, z: bool): Flags
  {
    Flags(z, false, (a & 0x0FFF) + (b & 0x0FFF) > 0xFFF, a > 0xFFFF - b)
  }

  /** The flags of `ADD rr,rr` as carries: H when the low 12 bits overflow, C when the 16-bit sum does. */
  lemma AddWordCarries(a: bv16, b: bv16, z: bool)
    ensures var fl := AddWordFlags(a, b, z);
      fl.z == z && !fl.n
      && (fl.h <==> a % 0x1000 > 0xFFF - b % 0x1000)
      && (fl.c <==> a > 0xFFFF - b)
  {
  }

  // ---------------------------------------------------------------------------
  // Register-only handlers

  /** `exe_<op>_r8_*`: flags first, then the result into `r8`; CP only writes the flags. */
  method Arith(regs: Registers, op: Op, r8: R8, b: bv8)
    requires regs.Valid() && IsArith(op)
    modifies regs
    ensures regs.Valid()
    ensures var rf := old(regs.File());
      var o := ArithOut(op, rf.Get8(r8), b, rf.GetF(FFlag.C));
      regs.File() == if op == Cp then rf.WithFlags(o.flags) else rf.WithFlags(o.flags).With8(r8, o.value)
  {
    var a := regs.Get8(r8);
    if op == Cp {
      CpuAlu.Cp(regs, a, b);
      return;
    }
    var res;
    if op == And || op == Or || op == Xor {
      res := LogicByte(regs, op, a, b);
    } else {
      res := ArithByte(regs, op, a, b);
    }
    regs.Set8(r8, res);
  }

  /** The helper ADD, ADC, SUB or SBC calls: it writes the flags and returns the byte. */
  method ArithByte(regs: Registers, op: Op, a: bv8, b: bv8) returns (res: bv8)
    requires regs.Valid() && (op == Adc || op == Add || op == Sbc || op == Sub)
    modifies regs
    ensures var o := ArithOut(op, a, b, old(regs.GetF(FFlag.C)));
      res == o.value && FlagsWritten(regs, o.flags)
  {
    if op == Adc {
      ArithOutIsAdc(a, b, regs.GetF(FFlag.C));
      res := CpuAlu.Adc(regs, a, b);
    } else if op == Add {
      ArithOutIsAdd(a, b, regs.GetF(FFlag.C));
      res := CpuAlu.Add(regs, a, b);
    } else if op == Sbc {
      ArithOutIsSbc(a, b, regs.GetF(FFlag.C));
      res := CpuAlu.Sbc(regs, a, b);
    } else {
      ArithOutIsSub(a, b, regs.GetF(FFlag.C));
      res := CpuAlu.Sub(regs, a, b);
    }
  }

  /** The helper AND, OR or XOR calls: it writes the flags and returns the byte. */
  method LogicByte(regs: Registers, op: Op, a: bv8, b: bv8) returns (res: bv8)
    requires regs.Valid() && (op == And || op == Or || op == Xor)
    modifies regs
    ensures var o := ArithOut(op, a, b, old(regs.GetF(FFlag.C)));
      res == o.value && FlagsWritten(regs, o.flags)
  {
    if op == And {
      ArithOutIsAnd(a, b, regs.GetF(FFlag.C));
      res := CpuAlu.And(regs, a, b);
    } else if op == Or {
      ArithOutIsOr(a, b, regs.GetF(FFlag.C));
      res := CpuAlu.Or(regs, a, b);
    } else {
      ArithOutIsXor(a, b, regs.GetF(FFlag.C));
      res := CpuAlu.Xor(regs, a, b);
    }
  }

  /** The CB rotates and shifts on a register: flags, then the result into `r8`. */
  method Shift(regs: Registers, op: Op, r8: R8)
    requires regs.Valid() && IsShift(op)
    modifies regs
    ensures regs.Valid()
    ensures var rf := old(regs.File());
      var o := ShiftOut(op, rf.Get8(r8), rf.GetF(FFlag.C));
      regs.File() == rf.WithFlags(o.flags).With8(r8, o.value)
  {
    var res := ShiftByte(regs, op, regs.Get8(r8));
    regs.Set8(r8, res);
  }

  /** The helper a CB rotate or shift calls: it writes the flags and returns the byte. */
  method ShiftByte(regs: Registers, op: Op, x: bv8) returns (res: bv8)
    requires regs.Valid() && IsShift(op)
    modifies regs
    ensures var o := ShiftOut(op, x, old(regs.GetF(FFlag.C)));
      res == o.value && FlagsWritten(regs, o.flags)
  {
    if op == Rlc || op == Rrc || op == Rl || op == Rr {
      res := RotateByte(regs, op, x);
    } else {
      res := ShiftBitsByte(regs, op, x);
    }
  }

  /** RLC, RRC, RL and RR on one byte. */
  method RotateByte(regs: Registers, op: Op, x: bv8) returns (res: bv8)
    requires regs.Valid() && (op == Rlc || op == Rrc || op == Rl || op == Rr)
    modifies regs
    ensures var o := ShiftOut(op, x, old(regs.GetF(FFlag.C)));
      res == o.value && FlagsWritten(regs, o.flags)
  {
    if op == Rlc {
      ShiftOutIsRlc(x, regs.GetF(FFlag.C));
      res := CpuAlu.Rlc(regs, x);
    } else if op == Rrc {
      ShiftOutIsRrc(x, regs.GetF(FFlag.C));
      res := CpuAlu.Rrc(regs, x);
    } else if op == Rl {
      ShiftOutIsRl(x, regs.GetF(FFlag.C));
      res := CpuAlu.Rl(regs, x);
    } else {
      ShiftOutIsRr(x, regs.GetF(FFlag.C));
      res := CpuAlu.Rr(regs, x);
    }
  }

  /** SLA, SRA, SRL and SWAP on one byte. */
  method ShiftBitsByte(regs: Registers, op: Op, x: bv8) returns (res: bv8)
    requires regs.Valid() && (op == Sla || op == Sra || op == Srl || op == Swap)
    modifies regs
    ensures var o := ShiftOut(op, x, old(regs.GetF(FFlag.C)));
      res == o.value && FlagsWritten(regs, o.flags)
  {
    if op == Sla {
      ShiftOutIsSla(x, regs.GetF(FFlag.C));
      res := CpuAlu.Sla(regs, x);
    } else if op == Sra {
      ShiftOutIsSra(x, regs.GetF(FFlag.C));
      res := CpuAlu.Sra(regs, x);
    } else if op == Srl {
      ShiftOutIsSrl(x, regs.GetF(FFlag.C));
      res := CpuAlu.Srl(regs, x);
    } else {
      ShiftOutIsSwap(x, regs.GetF(FFlag.C));
      res := CpuAlu.Swap(regs, x);
    }
  }

  /** `exe_inc_r8`: Z, N and H, then the incremented byte; C is kept. */
  method IncR8(regs: Registers, r8: R8)
    requires regs.Valid()
    modifies regs
    ensures regs.Valid()
    ensures var rf := old(regs.File());
      var o := IncOut(rf.Get8(r8), rf.GetF(FFlag.C));
      regs.File() == rf.WithFlags(o.flags).With8(r8, o.value)
  {
    var x := regs.Get8(r8);
    var inced := x + 1;
    regs.SetF(FFlag.Z, inced == 0);
    regs.SetF(FFlag.N, false);
    regs.SetF(FFlag.H, (x & 0x0F) + 1 > 0x0F);
    regs.Set8(r8, inced);
  }

  /** `exe_dec_r8`. */
  method DecR8(regs: Registers, r8: R8)
    requires regs.Valid()
    modifies regs
    ensures regs.Valid()
    ensures var rf := old(regs.File());
      var o := DecOut(rf.Get8(r8), rf.GetF(FFlag.C));
      regs.File() == rf.WithFlags(o.flags).With8(r8, o.value)
  {
    var res := CpuAlu.Dec(regs, regs.Get8(r8));
    regs.Set8(r8, res);
  }

  /** The registers with the pair `r16` moved up by one, modulo 2^16. */
  function PairInc(rf: RegFile, r16: R16): RegFile
  {
    rf.With16(r16, rf.Get16(r16) + 1)
  }

  /** The registers with the pair `r16` moved down by one, modulo 2^16. */
  function PairDec(rf: RegFile, r16: R16): RegFile
  {
    rf.With16(r16, rf.Get16(r16) - 1)
  }

  /** `PairInc` and `PairDec` given the pair's word `v`. */
  lemma PairMoves(rf: RegFile, r16: R16, v: bv16)
    requires v == rf.Get16(r16)
    ensures PairInc(rf, r16) == rf.With16(r16, v + 1)
    ensures PairDec(rf, r16) == rf.With16(r16, v - 1)
  {
  }

  /** `exe_inc_r16`: the pair plus one; the addition is unchecked, so it must not pass 0xFFFF. */
  method IncR16(regs: Registers, r16: R16)
    requires regs.Valid() && regs.Get16(r16) < 0xFFFF
    modifies regs
    ensures regs.Valid()
    ensures regs.File() == PairInc(old(regs.File()), r16)
  {
    PairMoves(regs.File(), r16, regs.Get16(r16));
    regs.Inc16(r16, 1);
  }

  /** `exe_dec_r16`: the pair minus one; the subtraction is unchecked, so it must not pass 0. */
  method DecR16(regs: Registers, r16: R16)
    requires regs.Valid() && regs.Get16(r16) > 0
    modifies regs
    ensures regs.Valid()
    ensures regs.File() == PairDec(old(regs.File()), r16)
  {
    PairMoves(regs.File(), r16, regs.Get16(r16));
    regs.Dec16(r16, 1);
  }

  /** `exe_bit_u8_r8` and `exe_bit_u8_addrr16` once the byte is read. */
  method BitOf(regs: Registers, n: bv8, x: bv8)
    requires regs.Valid() && n < 8
    modifies regs
    ensures FlagsWritten(regs, BitFlags(n, x, old(regs.GetF(FFlag.C))))
  {
    CpuAlu.Bit(regs, n, x);
  }

  /** `exe_set_u8_r8`. */
  method SetR8(regs: Registers, n: bv8, r8: R8)
    requires regs.Valid() && n < 8
    modifies regs
    ensures regs.Valid()
    ensures regs.File() == old(regs.File()).With8(r8, SetBit(n, old(regs.Get8(r8))))
  {
    regs.Set8(r8, SetBit(n, regs.Get8(r8)));
  }

  /** `exe_res_u8_r8`. */
  method ResR8(regs: Registers, n: bv8, r8: R8)
    requires regs.Valid() && n < 8
    modifies regs
    ensures regs.Valid()
    ensures regs.File() == old(regs.File()).With8(r8, ResBit(n, old(regs.Get8(r8))))
  {
    regs.Set8(r8, ResBit(n, regs.Get8(r8)));
  }

  /** `exe_rlca`, `exe_rrca`, `exe_rla` and `exe_rra`. */
  method AccRotate(regs: Registers, op: Op)
    requires regs.Valid() && IsAccRotate(op)
    modifies regs
    ensures regs.Valid()
    ensures var rf := old(regs.File());
      var o := AccRotateOut(op, rf.Get8(R8.A), rf.GetF(FFlag.C));
      regs.File() == rf.WithFlags(o.flags).With8(R8.A, o.value)
  {
    var o := AccRotateOut(op, regs.Get8(R8.A), regs.GetF(FFlag.C));
    if op == Rlca {
      regs.Set8(R8.A, o.value);
      WriteFlags(regs, o.flags);
    } else {
      WriteFlags(regs, o.flags);
      regs.Set8(R8.A, o.value);
    }
  }

  /** `exe_cpl`: A complemented, N and H set, Z and C kept. */
  method Cpl(regs: Registers)
    requires regs.Valid()
    modifies regs
    ensures regs.Valid()
    ensures var rf := old(regs.File());
      regs.File() == rf.WithFlags(rf.FlagsHeld().(n := true, h := true)).With8(R8.A, !rf.Get8(R8.A))
  {
    var a := !regs.Get8(R8.A);
    regs.SetF(FFlag.N, true);
    regs.SetF(FFlag.H, true);
    regs.Set8(R8.A, a);
  }

  /** `exe_ccf`: C complemented, N and H cleared, Z kept. */
  method Ccf(regs: Registers)
    requires regs.Valid()
    modifies regs
    ensures regs.Valid()
    ensures var rf := old(regs.File());
      regs.File() == rf.WithFlags(rf.FlagsHeld().(n := false, h := false, c := !rf.GetF(FFlag.C)))
  {
    regs.SetF(FFlag.N, false);
    regs.SetF(FFlag.H, false);
    regs.SetF(FFlag.C, !regs.GetF(FFlag.C));
  }

  /** `exe_scf`: C set, N and H cleared, Z kept. */
  method Scf(regs: Registers)
    requires regs.Valid()
    modifies regs
    ensures regs.Valid()
    ensures var rf := old(regs.File());
      regs.File() == rf.WithFlags(rf.FlagsHeld().(n := false, h := false, c := true))
  {
    regs.SetF(FFlag.N, false);
    regs.SetF(FFlag.H, false);
    regs.SetF(FFlag.C, true);
  }

  /** `exe_daa`. */
  method Daa(regs: Registers)
    requires regs.Valid()
    modifies regs
    ensures regs.Valid()
    ensures var rf := old(regs.File());
      var o := DaaOut(rf.Get8(R8.A), rf.FlagsHeld());
      regs.File() == rf.With8(R8.A, o.value).WithFlags(o.flags)
  {
    var o := DaaOut(regs.Get8(R8.A), regs.File().FlagsHeld());
    regs.Set8(R8.A, o.value);
    WriteFlags(regs, o.flags);
  }

  /** The registers after ADD SP,e on the word `w` of `r16`: the moved pair, then the offset flags. */
  function AddOffset(rf: RegFile, r16: R16, w: bv16, e: bv8): RegFile
  {
    rf.With16(r16, w + SignExtend(e)).WithFlags(SpOffsetFlags(w, e))
  }

  /** The registers after LD HL,SP+e with `sp` the stack pointer: the offset flags, then `r16`. */
  function LoadOffset(rf: RegFile, r16: R16, sp: bv16, e: bv8): RegFile
  {
    rf.WithFlags(SpOffsetFlags(sp, e)).With16(r16, sp + SignExtend(e))
  }

  /** `exe_add_r16_i8` (ADD SP,e): the pair first, then the flags; two internal cycles follow. */
  method AddR16I8(regs: Registers, r16: R16, e: bv8) returns (next: Instruction)
    requires regs.Valid()
    modifies regs
    ensures regs.Valid()
    ensures regs.File() == AddOffset(old(regs.File()), r16, old(regs.Get16(r16)), e)
    ensures next == Instruction(Triple(Internal, Non, Non), Some(Single(Internal, Non, Non)))
  {
    var w := regs.Get16(r16);
    AddOffsetInto(regs, r16, w, e);
    next := Instruction(Triple(Internal, Non, Non), Some(Single(Internal, Non, Non)));
  }

  method AddOffsetInto(regs: Registers, r16: R16, w: bv16, e: bv8)
    requires regs.Valid()
    modifies regs
    ensures regs.Valid()
    ensures regs.File() == AddOffset(old(regs.File()), r16, w, e)
  {
    regs.Set16(r16, w + SignExtend(e));
    WriteFlags(regs, SpOffsetFlags(w, e));
  }

  /** `exe_ld_r16_spi8` (LD HL,SP+e): the flags first, then the pair; one internal cycle follows. */
  method LdR16Spi8(regs: Registers, r16: R16, e: bv8) returns (next: Instruction)
    requires regs.Valid()
    modifies regs
    ensures regs.Valid()
    ensures regs.File() == LoadOffset(old(regs.File()), r16, old(regs.Get16(R16.SP)), e)
    ensures next == Single(Internal, Non, Non)
  {
    var sp := regs.Get16(R16.SP);
    LoadOffsetInto(regs, r16, sp, e);
    next := Single(Internal, Non, Non);
  }

  method LoadOffsetInto(regs: Registers, r16: R16, sp: bv16, e: bv8)
    requires regs.Valid()
    modifies regs
    ensures regs.Valid()
    ensures regs.File() == LoadOffset(old(regs.File()), r16, sp, e)
  {
    WriteFlags(regs, SpOffsetFlags(sp, e));
    regs.Set16(r16, sp + SignExtend(e));
  }

  /** The registers after `ADD rr,rr`: the flags of the word addition, then the sum in the first pair. */
  function AddPairs(rf: RegFile, r1: R16, r2: R16): RegFile
  {
    AddWords(rf, r1, rf.Get16(r1), rf.Get16(r2))
  }

  /** The registers after adding the words `a` and `b` into `r1`, with their flags. */
  function AddWords(rf: RegFile, r1: R16, a: bv16, b: bv16): RegFile
  {
    rf.WithFlags(AddWordFlags(a, b, rf.GetF(FFlag.Z))).With16(r1, a + b)
  }

  /** `exe_add_r16_r16`: N, H and C first (Z kept), then the 16-bit sum into the first pair. */
  method AddR16R16(regs: Registers, r1: R16, r2: R16)
    requires regs.Valid()
    modifies regs
    ensures regs.Valid()
    ensures regs.File() == AddPairs(old(regs.File()), r1, r2)
  {
    var a := regs.Get16(r1);
    var b := regs.Get16(r2);
    AddWordsInto(regs, r1, a, b);
  }

  /** The flags of `a + b`, then the sum into `r1`. */
  method AddWordsInto(regs: Registers, r1: R16, a: bv16, b: bv16)
    requires regs.Valid()
    modifies regs
    ensures regs.Valid()
    ensures regs.File() == AddWords(old(regs.File()), r1, a, b)
  {
    WriteFlags(regs, AddWordFlags(a, b, regs.GetF(FFlag.Z)));
    regs.Set16(r1, a + b);
  }

  // ---------------------------------------------------------------------------
  // Jumps, calls and returns

  /** `exe_jp_u16`: PC takes the address; one internal cycle follows. */
  method JpU16(regs: Registers, addr: bv16) returns (next: Instruction)
    requires regs.Valid()
    modifies regs
    ensures regs.Valid()
    ensures regs.File() == old(regs.File()).With16(R16.PC, addr)
    ensures next == Single(Internal, Non, Non)
  {
    regs.Set16(R16.PC, addr);
    next := Single(Internal, Non, Non);
  }

  /** `exe_jp_r16`: PC takes the pair's value, with no extra cycle. */
  method JpR16(regs: Registers, r16: R16)
    requires regs.Valid()
    modifies regs
    ensures regs.Valid()
    ensures regs.File() == old(regs.File()).With16(R16.PC, old(regs.Get16(r16)))
  {
    regs.Set16(R16.PC, regs.Get16(r16));
  }

  /**
   * `exe_call_u16`: PC takes the address, and the chain is an internal cycle followed
   * by pushing the old PC, high byte first.
   */
  method CallU16(regs: Registers, addr: bv16) returns (next: Instruction)
    requires regs.Valid()
    modifies regs
    ensures regs.Valid()
    ensures regs.File() == old(regs.File()).With16(R16.PC, addr)
    ensures var pc := old(regs.Get16(R16.PC));
      next == Instruction(Triple(Internal, Non, Non), Some(PushChain(Hi(pc), Lo(pc))))
  {
    var pc := regs.Get16(R16.PC);
    regs.Set16(R16.PC, addr);
    next := Instruction(Triple(Internal, Non, Non), Some(PushChain(Hi(pc), Lo(pc))));
  }

  /** `exe_rst_u16`: as CALL, without the internal cycle. */
  method RstU16(regs: Registers, addr: bv16) returns (next: Instruction)
    requires regs.Valid()
    modifies regs
    ensures regs.Valid()
    ensures regs.File() == old(regs.File()).With16(R16.PC, addr)
    ensures var pc := old(regs.Get16(R16.PC)); next == PushChain(Hi(pc), Lo(pc))
  {
    var pc := regs.Get16(R16.PC);
    regs.Set16(R16.PC, addr);
    next := PushChain(Hi(pc), Lo(pc));
  }

  // ---------------------------------------------------------------------------
  // Loads between registers

  /** `exe_ld_r8_u8` and `exe_ld_r8_r8` once the byte is known. */
  method LdR8(regs: Registers, r8: R8, v: bv8)
    requires regs.Valid()
    modifies regs
    ensures regs.Valid()
    ensures regs.File() == old(regs.File()).With8(r8, v)
  {
    regs.Set8(r8, v);
  }

  /** `exe_ld_r16_u16` and `exe_ld_r16_r16` once the word is known. */
  method LdR16(regs: Registers, r16: R16, v: bv16)
    requires regs.Valid()
    modifies regs
    ensures regs.Valid()
    ensures regs.File() == old(regs.File()).With16(r16, v)
  {
    regs.Set16(r16, v);
  }

  // Handlers around a memory access. The byte a handler reads is taken as an argument
  // (the dispatcher reads it at the address given), and a byte it writes is returned
  // with its address (the dispatcher writes it).

  /** `exe_ld_r8_addrr16i` (also POP and RET): `x` read at the pair, then the pair plus one, then `r8`. */
  method LdR8FromPairInc(regs: Registers, r8: R8, r16: R16, x: bv8)
    requires regs.Valid() && regs.Get16(r16) < 0xFFFF
    modifies regs
    ensures regs.Valid()
    ensures var rf := old(regs.File());
      regs.File() == PairInc(rf, r16).With8(r8, x)
  {
    PairMoves(regs.File(), r16, regs.Get16(r16));
    var _ := regs.Get16I(r16, 1);
    regs.Set8(r8, x);
  }

  /** `exe_ld_r8_addrr16d`: `x` read at the pair, then the pair minus one, then `r8`. */
  method LdR8FromPairDec(regs: Registers, r8: R8, r16: R16, x: bv8)
    requires regs.Valid() && regs.Get16(r16) > 0
    modifies regs
    ensures regs.Valid()
    ensures var rf := old(regs.File());
      regs.File() == PairDec(rf, r16).With8(r8, x)
  {
    PairMoves(regs.File(), r16, regs.Get16(r16));
    var _ := regs.Get16D(r16, 1);
    regs.Set8(r8, x);
  }

  /**
   * `exe_inc_addrr16`, `exe_dec_addrr16` and the CB rotates and shifts on `(HL)`, given
   * the byte `x` at `addr`: the flags are written now and the result is stored back by
   * the returned step.
   */
  method ModifyInMemory(regs: Registers, op: Op, addr: bv16, x: bv8) returns (next: Instruction)
    requires regs.Valid() && (IsShift(op) || op == Inc || op == Dec)
    modifies regs
    ensures var carry := old(regs.GetF(FFlag.C));
      var o := if op == Inc then IncOut(x, carry) else if op == Dec then DecOut(x, carry) else ShiftOut(op, x, carry);
      FlagsWritten(regs, o.flags) && next == StoreBack(addr, o.value)
  {
    var res: bv8;
    if op == Inc {
      res := x + 1;
      var fl := regs.File().FlagsHeld().(z := res == 0, n := false, h := res & 0x0F == 0);
      regs.SetF(FFlag.Z, fl.z);
      regs.SetF(FFlag.N, fl.n);
      regs.SetF(FFlag.H, fl.h);
    } else if op == Dec {
      res := CpuAlu.Dec(regs, x);
    } else {
      res := ShiftByte(regs, op, x);
    }
    next := StoreBack(addr, res);
  }

  /** The byte `exe_set` or `exe_res` makes of `x`: bit `n` set or cleared, every other bit kept. */
  function SetResByte(setting: bool, n: bv8, x: bv8): (v: bv8)
    requires n < 8
    ensures forall k: bv8 :: k < 8 ==> (IsSet(v, k) <==> if k == n then setting else IsSet(x, k))
  {
    SetBitBits(n, x);
    ResBitBits(n, x);
    if setting then SetBit(n, x) else ResBit(n, x)
  }

  /** `exe_set_u8_addrr16` and `exe_res_u8_addrr16` given the byte `x` at `addr`: the new byte is written by the returned step. */
  function SetResStep(setting: bool, n: bv8, addr: bv16, x: bv8): Instruction
    requires n < 8
  {
    Single(Write, AddrU16(addr), U8(SetResByte(setting, n, x)))
  }

  /** `exe_ld_addrr16i_r8`: the pair plus one, then the register (read after that) to be written at the old pair. */
  method StoreAtPairInc(regs: Registers, r16: R16, r8: R8) returns (addr: bv16, v: bv8)
    requires regs.Valid() && regs.Get16(r16) < 0xFFFF
    modifies regs
    ensures regs.Valid()
    ensures var rf := old(regs.File());
      addr == rf.Get16(r16) && regs.File() == PairInc(rf, r16) && v == regs.File().Get8(r8)
  {
    PairMoves(regs.File(), r16, regs.Get16(r16));
    addr := regs.Get16I(r16, 1);
    v := regs.Get8(r8);
  }

  /** `exe_ld_addrr16d_r8`: as above with the pair minus one. */
  method StoreAtPairDec(regs: Registers, r16: R16, r8: R8) returns (addr: bv16, v: bv8)
    requires regs.Valid() && regs.Get16(r16) > 0
    modifies regs
    ensures regs.Valid()
    ensures var rf := old(regs.File());
      addr == rf.Get16(r16) && regs.File() == PairDec(rf, r16) && v == regs.File().Get8(r8)
  {
    PairMoves(regs.File(), r16, regs.Get16(r16));
    addr := regs.Get16D(r16, 1);
    v := regs.Get8(r8);
  }

  /**
   * `exe_ld_addrdr16_r8` and `exe_ld_addrdr16_u8` (PUSH and CALL): the pair minus one,
   * then the byte to be written at the new pair: the immediate, or the register read
   * after the update.
   */
  method StoreAtPairPreDec(regs: Registers, r16: R16, src: OpArg) returns (addr: bv16, v: bv8)
    requires regs.Valid() && regs.Get16(r16) > 0 && (src.Reg8? || src.U8?)
    modifies regs
    ensures regs.Valid()
    ensures var rf := old(regs.File());
      addr == rf.Get16(r16) - 1 && regs.File() == PairDec(rf, r16)
      && v == if src.Reg8? then regs.File().Get8(src.r8) else src.value8
  {
    addr := PreDecrement(regs, r16);
    v := if src.Reg8? then regs.Get8(src.r8) else src.value8;
  }

  /** The pair minus one, handing back the decremented word. */
  method PreDecrement(regs: Registers, r16: R16) returns (addr: bv16)
    requires regs.Valid() && regs.Get16(r16) > 0
    modifies regs
    ensures regs.Valid()
    ensures addr == old(regs.File()).Get16(r16) - 1 && regs.File() == PairDec(old(regs.File()), r16)
  {
    var w := regs.Get16(r16);
    PairMoves(regs.File(), r16, w);
    regs.Set16(r16, w - 1);
    addr := w - 1;
  }

  // ---------------------------------------------------------------------------
  // Handlers that only hand back steps

  /** `exe_ld_r8_addru16`: the read itself happens on the next cycle. */
  function ReadStep(r8: R8, addr: bv16): Instruction
  {
    Single(Read, Reg8(r8), AddrU16(addr))
  }

  /** `exe_ld_addru16_r8`: the register's byte is written at `addr` on the next cycle. */
  function WriteStep(addr: bv16, v: bv8): Instruction
  {
    Single(Write, AddrU16(addr), U8(v))
  }

  /**
   * `exe_ld_addru16_r16` (LD (a16),SP): the low byte at `addr`, then the high byte at
   * `addr + 1`; jimbot's addition is unchecked, so `addr` must be below 0xFFFF.
   */
  function StoreWordChain(addr: bv16, w: bv16): (i: Instruction)
    requires addr < 0xFFFF
    ensures Length(i) == 2
    ensures i.ins == Triple(Ld, AddrU16(addr), U8(Lo(w)))
    ensures i.next.Some? && i.next.value.ins.op == Ld
    ensures i.next.value.ins.p1 == AddrU16(addr + 1) && i.next.value.ins.p2.U8?
    ensures Word(i.next.value.ins.p2.value8, i.ins.p2.value8) == w
  {
    WordOfHalves(w);
    Instruction(Triple(Ld, AddrU16(addr), U8(Lo(w))), Some(Single(Ld, AddrU16(addr + 1), U8(Hi(w)))))
  }

  /** `exe_jr_i8` and `exe_jr_c_i8` when taken: PC is loaded with the target on the next cycle. */
  function JumpRelativeStep(pc: bv16, e: bv8): Instruction
  {
    Single(Ld, Reg16(R16.PC), U16(JumpTarget(pc, e)))
  }

  /** `exe_ret_c`: the return chain when the condition holds, nothing otherwise. */
  function ReturnIf(fl: Flags, c: Condition): (next: Option<Instruction>)
    ensures next.Some? <==> CheckCc(fl, c)
    ensures next.Some? ==> next.value == ReturnChain()
  {
    if CheckCc(fl, c) then Some(ReturnChain()) else None
  }
}
