/**
 * The operand fetcher: one call per CPU cycle resolves at most one `Fetch*` operand of
 * the current step by reading one byte at PC and advancing PC. Sixteen-bit operands
 * take two calls (low byte, then high byte), and an `(a8)` operand reports one extra
 * cycle. The arms are tried in jimbot's order: all one-byte forms (first operand
 * before second) before the 16-bit forms.
 */
module CpuFetcher {
  import opened Wrappers
  import opened Bits
  import opened CpuRegisters
  import opened CpuInstruction
  import Mmu

  /** An operand that one byte resolves completely. */
  predicate IsByteFetch(arg: OpArg)
  {
    arg.FetchU8? || arg.FetchI8? || arg.FetchSPI8? || arg.FetchInAddrU8?
  }

  /** A 16-bit operand in a state the fetcher accepts: nothing read yet, or the low byte read. */
  predicate IsWordFetch(arg: OpArg)
  {
    (arg.FetchU16? && arg.spare.None?) || (arg.FetchAddrU16? && arg.aspare.None?)
  }

  /** The bytes an operand still needs from the instruction stream. */
  function Pending(arg: OpArg): (n: nat)
    ensures n <= 2
    ensures n > 0 <==> IsByteFetch(arg) || IsWordFetch(arg)
  {
    if IsByteFetch(arg) then 1
    else if arg.FetchU16? && arg.spare.None? then (if arg.low.None? then 2 else 1)
    else if arg.FetchAddrU16? && arg.aspare.None? then (if arg.alow.None? then 2 else 1)
    else 0
  }

  /** Whether `fetch` reads a byte for this step (every arm but the last). */
  predicate Reads(t: Triple)
  {
    IsByteFetch(t.p1) || IsByteFetch(t.p2) || IsWordFetch(t.p1) || IsWordFetch(t.p2)
  }

  /** One more byte for a one-byte operand: `(done, resolved operand)`. */
  function ResolveByte(arg: OpArg, byte: bv8): (r: (bool, OpArg))
    requires IsByteFetch(arg)
    ensures Pending(r.1) == 0
  {
    match arg
    case FetchU8 => (true, U8(byte))
    case FetchI8 => (true, I8(byte))
    case FetchSPI8 => (true, SPI8(byte))
    case FetchInAddrU8 => (false, InAddrU8(byte))
  }

  /** One more byte for a 16-bit operand: the low byte is kept, the high byte completes it. */
  function ResolveWord(arg: OpArg, byte: bv8): (r: (bool, OpArg))
    requires IsWordFetch(arg)
    ensures Pending(r.1) == Pending(arg) - 1
  {
    if arg.FetchU16? then
      match arg.low
      case None => (false, FetchU16(None, Some(byte)))
      case Some(low) => (true, U16(Word(byte, low)))
    else
      match arg.alow
      case None => (false, FetchAddrU16(None, Some(byte)))
      case Some(low) => (true, AddrU16(Word(byte, low)))
  }

  /**
   * The match of `fetch` given the byte at PC: the first arm that applies resolves one
   * operand; a step with nothing to fetch comes back unchanged and done.
   */
  function Resolve(t: Triple, byte: bv8): (r: (bool, Triple))
    ensures r.1.op == t.op
    ensures r.1.p1 == t.p1 || r.1.p2 == t.p2
    ensures Reads(t) ==> Pending(r.1.p1) + Pending(r.1.p2) + 1 == Pending(t.p1) + Pending(t.p2)
    ensures !Reads(t) ==> r == (true, t)
  {
    if t.p1.FetchU8? then Resolved1(t, ResolveByte(t.p1, byte))
    else if t.p2.FetchU8? then Resolved2(t, ResolveByte(t.p2, byte))
    else if t.p1.FetchI8? then Resolved1(t, ResolveByte(t.p1, byte))
    else if t.p2.FetchI8? then Resolved2(t, ResolveByte(t.p2, byte))
    else if t.p1.FetchSPI8? then Resolved1(t, ResolveByte(t.p1, byte))
    else if t.p2.FetchSPI8? then Resolved2(t, ResolveByte(t.p2, byte))
    else if t.p1.FetchInAddrU8? then Resolved1(t, ResolveByte(t.p1, byte))
    else if t.p2.FetchInAddrU8? then Resolved2(t, ResolveByte(t.p2, byte))
    else if t.p1.FetchU16? && t.p1.spare.None? then Resolved1(t, ResolveWord(t.p1, byte))
    else if t.p2.FetchU16? && t.p2.spare.None? then Resolved2(t, ResolveWord(t.p2, byte))
    else if t.p1.FetchAddrU16? && t.p1.aspare.None? then Resolved1(t, ResolveWord(t.p1, byte))
    else if t.p2.FetchAddrU16? && t.p2.aspare.None? then Resolved2(t, ResolveWord(t.p2, byte))
    else (true, t)
  }

  /** The step with its first operand replaced. */
  function Resolved1(t: Triple, r: (bool, OpArg)): (bool, Triple)
  {
    (r.0, t.(p1 := r.1))
  }

  /** The step with its second operand replaced. */
  function Resolved2(t: Triple, r: (bool, OpArg)): (bool, Triple)
  {
    (r.0, t.(p2 := r.1))
  }

  /**
   * `mmu.get(registers.get16i(PC, 1))`, the read every fetching arm makes: the byte at
   * PC, with PC advanced past it. The increment is unchecked in jimbot, so PC must
   * not be 0xFFFF. The bus read does not depend on the registers, so reading before
   * the increment is the same as jimbot's increment-then-read of the old PC.
   */
  method FetchByte(regs: Registers, mmu: Mmu.MMU) returns (byte: bv8)
    requires regs.Valid() && mmu.Valid()
    requires regs.Get16(PC) < 0xFFFF && mmu.CanGet(Address(regs.Get16(PC)))
    modifies regs
    ensures regs.Valid()
    ensures byte == old(mmu.Get(Address(regs.Get16(PC))))
    ensures regs.File() == old(regs.File()).With16(PC, old(regs.Get16(PC)) + 1)
  {
    byte := mmu.Get(Address(regs.Get16(PC)));
    AdvancePc(regs);
  }

  /** `registers.get16i(PC, 1)` with the returned old PC unused: PC moves one byte on. */
  method AdvancePc(regs: Registers)
    requires regs.Valid() && regs.Get16(PC) < 0xFFFF
    modifies regs
    ensures regs.Valid()
    ensures regs.File() == old(regs.File()).With16(PC, old(regs.Get16(PC)) + 1)
  {
    var _ := regs.Get16I(PC, 1);
  }

  /**
   * `fetch`: when the step has an operand to fetch, reads the byte at PC (advancing PC)
   * and resolves the first operand the match selects; otherwise the step is done as is.
   */
  method Fetch(t: Triple, regs: Registers, mmu: Mmu.MMU) returns (done: bool, r: Triple)
    requires regs.Valid() && mmu.Valid()
    requires Reads(t) ==> regs.Get16(PC) < 0xFFFF && mmu.CanGet(Address(regs.Get16(PC)))
    modifies regs
    ensures regs.Valid()
    ensures Reads(t) ==> (done, r) == Resolve(t, old(mmu.Get(Address(regs.Get16(PC)))))
    ensures Reads(t) ==> regs.File() == old(regs.File()).With16(PC, old(regs.Get16(PC)) + 1)
    ensures !Reads(t) ==> done && r == t && regs.File() == old(regs.File())
  {
    if Reads(t) {
      var byte := FetchByte(regs, mmu);
      done, r := Resolve(t, byte).0, Resolve(t, byte).1;
    } else {
      done, r := true, t;
    }
  }

  /** A step without `Fetch*` operands is done at once and unchanged. */
  lemma NothingToFetch(t: Triple, byte: bv8)
    requires !IsFetch(t.p1) && !IsFetch(t.p2)
    ensures Resolve(t, byte) == (true, t)
  {
  }

  /**
   * A 16-bit immediate takes two calls: the first keeps the low byte and is not done,
   * the second is done with the little-endian word.
   */
  lemma U16TakesTwoBytes(t: Triple, low: bv8, high: bv8)
    requires t.p1 == FetchU16(None, None) && !IsByteFetch(t.p2)
    ensures Resolve(t, low) == (false, t.(p1 := FetchU16(None, Some(low))))
    ensures Resolve(Resolve(t, low).1, high) == (true, t.(p1 := U16(Word(high, low))))
    ensures Word(high, low) == (high as bv16) * 0x100 + low as bv16
  {
    WordValue(high, low);
  }

  /** The same two-call rule for a 16-bit address operand in either position. */
  lemma AddrU16TakesTwoBytes(t: Triple, low: bv8, high: bv8)
    requires t.p2 == FetchAddrU16(None, None) && !Reads(t.(p2 := Non))
    ensures Resolve(t, low) == (false, t.(p2 := FetchAddrU16(None, Some(low))))
    ensures Resolve(Resolve(t, low).1, high) == (true, t.(p2 := AddrU16(Word(high, low))))
  {
  }

  /** `(a8)` is resolved in one call but reports not done, costing one more cycle. */
  lemma InAddrU8CostsACycle(t: Triple, byte: bv8)
    requires t.p1 == FetchInAddrU8 && !t.p2.FetchU8? && !t.p2.FetchI8? && !t.p2.FetchSPI8?
    ensures Resolve(t, byte) == (false, t.(p1 := InAddrU8(byte)))
  {
  }

  /** One-byte operands are resolved in one call; the signed forms keep the raw byte. */
  lemma ByteFetchIsDone(t: Triple, byte: bv8)
    requires t.p1.FetchU8? || t.p1.FetchI8? || t.p1.FetchSPI8?
    requires !t.p2.FetchU8? && (t.p1.FetchSPI8? ==> !t.p2.FetchI8?)
    ensures Resolve(t, byte).0
    ensures Pending(Resolve(t, byte).1.p1) == 0
  {
  }

  /** When both operands fetch the same kind, the first operand is resolved first. */
  lemma FirstOperandFirst(t: Triple, byte: bv8)
    requires t.p1 == t.p2 && Reads(t)
    ensures Resolve(t, byte).1.p2 == t.p2
    ensures Resolve(t, byte).1.p1 != t.p1
  {
  }
}
