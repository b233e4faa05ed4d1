/**
 * The CPU: the register file, the interrupt master enable and its one-instruction
 * delay, the halt latch, and the chain of steps being worked through. One `Cycle`
 * fetches at most one operand byte, or executes the current step once its operands
 * are all known, and then looks for an interrupt to service at an instruction
 * boundary (when the step waiting is the opcode decode).
 *
 * A step touches the bus at most once to read and at most once to write. The model
 * reads first, at an address computed from the registers before the step, then runs
 * the step on the registers, then makes the write the step asks for. The registers
 * are not part of the bus, so jimbot's interleaving gives the same result.
 */
module CpuCore {
  import opened Wrappers
  import opened Bits
  import opened CpuRegisters
  import opened CpuInstruction
  import opened CpuDecoder
  import opened CpuFetcher
  import opened InterruptFlag
  import CpuExecutor
  import CpuAlu
  import Mmu

  /** A byte the step writes to the bus. */
  datatype BusWrite = BusWrite(address: u16, value: bv8)

  /** The step waiting at an instruction boundary: decode the opcode at PC. */
  function DecodeStep(): (i: Instruction)
    ensures i.ins.op == Dcd && i.ins.p1.FetchU8? && i.next.None?
  {
    Instruction(Triple(Dcd, FetchU8, Non), None)
  }

  /**
   * What the CPU works on after a step: the chain the executor handed back, else the
   * rest of the current chain, else the next opcode's decode.
   */
  function Following(current: Instruction, handedBack: Option<Instruction>): (i: Instruction)
    ensures handedBack.Some? ==> i == handedBack.value
    ensures handedBack.None? && current.next.Some? ==> i == current.next.value
    ensures handedBack.None? && current.next.None? ==> i == DecodeStep()
  {
    match handedBack
    case Some(n) => n
    case None => match TakeNext(current).0 { case Some(c) => c case None => DecodeStep() }
  }

  // ---------------------------------------------------------------------------
  // Which steps the executor handles, and what they read and write

  predicate IsBitOp(op: Op)
  {
    op == Bit || op == Res || op == Set
  }

  /** The arms of `execute` for the arithmetic operations and ADD. */
  predicate HandlesArith(t: Triple)
  {
    (CpuExecutor.IsArith(t.op) && t.p1.Reg8? && (t.p2.AddrReg16? || t.p2.U8? || t.p2.Reg8?))
    || (t.op == Add && t.p1.Reg16? && (t.p2.I8? || t.p2.Reg16?))
  }

  /** The arms for BIT, RES and SET. */
  predicate HandlesBitOp(t: Triple)
  {
    IsBitOp(t.op) && t.p1.U8? && (t.p2.AddrReg16? || t.p2.Reg8?)
  }

  /** The arms for the CB rotates and shifts, INC and DEC. */
  predicate HandlesUnary(t: Triple)
  {
    t.p2.Non?
    && ((CpuExecutor.IsShift(t.op) && (t.p1.AddrReg16? || t.p1.Reg8?))
        || ((t.op == Inc || t.op == Dec) && (t.p1.AddrReg16? || t.p1.Reg16? || t.p1.Reg8?)))
  }

  /** The arms for LD. */
  predicate HandlesLd(t: Triple)
  {
    t.op == Ld &&
    match t.p1
    case AddrReg16(_) => t.p2.Reg8? || t.p2.U8?
    case AddrReg16d(_) => t.p2.Reg8?
    case AddrReg16i(_) => t.p2.Reg8?
    case AddrRegd16(_) => t.p2.Reg8? || t.p2.U8?
    case AddrU16(_) => t.p2.Reg16? || t.p2.Reg8? || t.p2.U8?
    case InAddrReg8(_) => t.p2.Reg8?
    case InAddrU8(_) => t.p2.Reg8?
    case Reg16(_) => t.p2.SPI8? || t.p2.U16? || t.p2.Reg16?
    case Reg8(_) =>
      t.p2.AddrReg16? || t.p2.AddrReg16d? || t.p2.AddrReg16i? || t.p2.AddrU16?
      || t.p2.InAddrU8? || t.p2.U8? || t.p2.InAddrReg8? || t.p2.Reg8?
    case _ => false
  }

  /** The arms for jumps, calls, returns and restarts. */
  predicate HandlesControl(t: Triple)
  {
    (t.op == Call && ((t.p1.CC? && t.p2.U16?) || (t.p1.U16? && t.p2.Non?)))
    || (t.op == Jp && ((t.p1.CC? && t.p2.U16?) || ((t.p1.Reg16? || t.p1.U16?) && t.p2.Non?)))
    || (t.op == Jr && ((t.p1.CC? && t.p2.I8?) || (t.p1.I8? && t.p2.Non?)))
    || (t.op == Ret && t.p1.CC? && t.p2.Non?)
    || (t.op == Rst && t.p1.U16? && t.p2.Non?)
  }

  /** The operations without operands. */
  predicate IsPlain(op: Op)
  {
    op == Ccf || op == Cpl || op == Daa || op == Di || op == Ei || op == EiImm || op == Halt
    || op == Internal || op == Nop || op == Rla || op == Rlca || op == Rra || op == Rrca || op == Scf
  }

  /** DI, EI, the immediate EI and HALT: the operations on the interrupt and halt latches. */
  predicate IsLatch(op: Op)
  {
    op == Di || op == Ei || op == EiImm || op == Halt
  }

  /** The arms for the operations without operands and for the deferred READ and WRITE. */
  predicate HandlesMisc(t: Triple)
  {
    (IsPlain(t.op) && t.p1.Non? && t.p2.Non?)
    || (t.op == Read && t.p1.Reg8? && t.p2.AddrU16?)
    || (t.op == Write && t.p1.AddrU16? && t.p2.U8?)
  }

  /** Whether a step other than a decode matches an arm of `execute`. */
  predicate HandlesStep(t: Triple)
  {
    HandlesArith(t) || HandlesBitOp(t) || HandlesUnary(t) || HandlesLd(t) || HandlesControl(t) || HandlesMisc(t)
  }

  /** The decoder's answer for a decode step. */
  function DecodeOf(t: Triple): Decoded
    requires (t.op == Dcd || t.op == DcdCB) && t.p1.U8?
  {
    if t.op == Dcd then Decode(t.p1.value8) else DecodeCB(t.p1.value8)
  }

  /** An immediate decode runs its single step at once. */
  predicate Immediate(d: Decoded)
  {
    d.0 && d.1.Ok? && d.1.value.Some?
  }

  /**
   * Whether `execute` succeeds on a step: a decode succeeds when its table entry does
   * (and, for an immediate entry, when the decoded step is handled).
   */
  predicate Handles(t: Triple)
  {
    if t.op == Dcd || t.op == DcdCB then
      t.p1.U8? && t.p2.Non? &&
      var d := DecodeOf(t);
      if Immediate(d) then HandlesStep(d.1.value.value.ins) else d.1.Ok?
    else HandlesStep(t)
  }

  /** The step `execute` runs for `t`: the decoded step of an immediate decode, else `t` itself. */
  function Runs(t: Triple): (u: Triple)
    ensures u.op != Dcd && u.op != DcdCB ==> (Handles(t) ==> HandlesStep(u))
    ensures HandlesStep(u) ==> Handles(t)
  {
    if (t.op == Dcd || t.op == DcdCB) && t.p1.U8? && t.p2.Non? && Immediate(DecodeOf(t)) then
      DecodeOf(t).1.value.value.ins
    else t
  }

  /**
   * What `execute` does to the registers, and what it hands back, for a step it handles
   * given the byte its read yields: the step it runs takes its `StepEffect`; a decode
   * that is not immediate leaves the registers and hands back its table entry.
   */
  function Executed(t: Triple, x: bv8, rf: RegFile): (RegFile, Option<Instruction>)
    requires Handles(t) && (HandlesStep(Runs(t)) ==> RegistersAllow(rf, Runs(t)))
  {
    if HandlesStep(Runs(t)) then StepEffect(Runs(t), x, rf) else (rf, DecodeOf(t).1.value)
  }

  /** An immediate decode succeeds, and changes the registers, exactly as the step it runs. */
  lemma ImmediateRuns(t: Triple, x: bv8, rf: RegFile)
    requires (t.op == Dcd || t.op == DcdCB) && t.p1.U8? && t.p2.Non? && Immediate(DecodeOf(t))
    ensures Runs(t) == DecodeOf(t).1.value.value.ins
    ensures Handles(t) == HandlesStep(Runs(t))
    ensures Handles(t) && RegistersAllow(rf, Runs(t)) ==> Executed(t, x, rf) == StepEffect(Runs(t), x, rf)
  {
    DecodeImmediateIsSingle(t.p1.value8);
  }

  /** A decode step runs itself only when it is not immediate, and then it reads, writes and latches nothing. */
  lemma NotAStep(t: Triple)
    requires t.op == Dcd || t.op == DcdCB
    requires !(t.p1.U8? && t.p2.Non? && Immediate(DecodeOf(t)))
    ensures Runs(t) == t && !HandlesStep(t)
    ensures forall rf :: ReadAddress(rf, t) == None && WriteRequest(rf, t) == None
    ensures forall l :: StepLatches(t, l) == l
  {
  }

  /** The high page address of `LDH`: 0xFF00 plus the byte. */
  function HighPage(b: bv8): (a: u16)
    ensures 0xFF00 <= a
  {
    0xFF00 + b as int
  }

  /** The bus address a step reads, given the registers before it. */
  function ReadAddress(rf: RegFile, t: Triple): Option<u16>
  {
    if HandlesArith(t) && t.p2.AddrReg16? then Some(Address(rf.Get16(t.p2.ar16)))
    else if HandlesBitOp(t) && t.p2.AddrReg16? then Some(Address(rf.Get16(t.p2.ar16)))
    else if HandlesUnary(t) && t.p1.AddrReg16? then Some(Address(rf.Get16(t.p1.ar16)))
    else if t.op == Ld && t.p1.Reg8? then
      match t.p2
      case AddrReg16(r16) => Some(Address(rf.Get16(r16)))
      case AddrReg16d(r16) => Some(Address(rf.Get16(r16)))
      case AddrReg16i(r16) => Some(Address(rf.Get16(r16)))
      case InAddrU8(b) => Some(HighPage(b))
      case InAddrReg8(r8) => Some(HighPage(rf.Get8(r8)))
      case _ => None
    else if t.op == Read && t.p1.Reg8? && t.p2.AddrU16? then Some(Address(t.p2.addr))
    else None
  }

  /**
   * The bus write a step makes, given the registers before it. A register source is
   * read after the step's own update of the address pair.
   */
  function WriteRequest(rf: RegFile, t: Triple): (w: Option<BusWrite>)
    ensures w.Some? ==> (t.op == Ld && HandlesLd(t)) || (t.op == Write && HandlesMisc(t))
  {
    var p1, p2 := t.p1, t.p2;
    if !((t.op == Ld && HandlesLd(t)) || (t.op == Write && HandlesMisc(t))) then None
    else if t.op == Write then Some(BusWrite(Address(p1.addr), p2.value8))
    else if p2.Reg8? then
      var v := rf.Get8(p2.r8);
      if p1.AddrReg16? then Some(BusWrite(Address(rf.Get16(p1.ar16)), v))
      else if p1.AddrReg16d? || p1.AddrReg16i? || p1.AddrRegd16? then Some(PairWrite(rf, p1, p2))
      else if p1.InAddrReg8? then Some(BusWrite(HighPage(rf.Get8(p1.ir8)), v))
      else if p1.InAddrU8? then Some(BusWrite(HighPage(p1.u8), v))
      else None
    else if p2.U8? then
      if p1.AddrRegd16? then Some(PairWrite(rf, p1, p2))
      else if p1.AddrU16? then Some(BusWrite(Address(p1.addr), p2.value8))
      else None
    else None
  }

  /**
   * The write of an LD through a register pair that the step moves: at the pair
   * (post-increment and post-decrement) or at the pair minus one (pre-decrement, as
   * PUSH does), of the immediate or of the register read after the pair's update.
   */
  function PairWrite(rf: RegFile, p1: OpArg, p2: OpArg): BusWrite
    requires p1.AddrReg16d? || p1.AddrReg16i? || p1.AddrRegd16?
    requires p2.Reg8? || p2.U8?
  {
    var w := rf.Get16(MovedPair(p1));
    var address := if p1.AddrRegd16? then w - 1 else w;
    BusWrite(Address(address), if p2.Reg8? then MovePair(rf, p1).Get8(p2.r8) else p2.value8)
  }

  /** The pair an LD through HL+, HL- or a pre-decremented SP moves. */
  function MovedPair(p1: OpArg): R16
    requires p1.AddrReg16d? || p1.AddrReg16i? || p1.AddrRegd16?
  {
    if p1.AddrReg16d? then p1.dr16 else if p1.AddrReg16i? then p1.ir16 else p1.pr16
  }

  /** The registers after that pair moves: up by one for HL+, down by one otherwise. */
  function MovePair(rf: RegFile, p1: OpArg): RegFile
    requires p1.AddrReg16d? || p1.AddrReg16i? || p1.AddrRegd16?
  {
    if p1.AddrReg16i? then CpuExecutor.PairInc(rf, MovedPair(p1)) else CpuExecutor.PairDec(rf, MovedPair(p1))
  }

  /**
   * What a step needs of the registers not to abort: a bit index below 8 (the shift
   * `1 << n` overflows otherwise), and no unchecked 16-bit increment or decrement
   * passing 0xFFFF or 0.
   */
  predicate RegistersAllow(rf: RegFile, t: Triple)
  {
    && (HandlesBitOp(t) ==> t.p1.value8 < 8)
    && (t.op == Inc && t.p1.Reg16? && t.p2.Non? ==> rf.Get16(t.p1.r16) < 0xFFFF)
    && (t.op == Dec && t.p1.Reg16? && t.p2.Non? ==> rf.Get16(t.p1.r16) > 0)
    && (t.op == Ld ==>
          && (t.p1.AddrReg16d? && t.p2.Reg8? ==> rf.Get16(t.p1.dr16) > 0)
          && (t.p1.AddrReg16i? && t.p2.Reg8? ==> rf.Get16(t.p1.ir16) < 0xFFFF)
          && (t.p1.AddrRegd16? && (t.p2.Reg8? || t.p2.U8?) ==> rf.Get16(t.p1.pr16) > 0)
          && (t.p1.AddrU16? && t.p2.Reg16? ==> t.p1.addr < 0xFFFF)
          && (t.p1.Reg8? && t.p2.AddrReg16d? ==> rf.Get16(t.p2.dr16) > 0)
          && (t.p1.Reg8? && t.p2.AddrReg16i? ==> rf.Get16(t.p2.ir16) < 0xFFFF))
  }

  // ---------------------------------------------------------------------------
  // What a step does to the registers and which chain it hands back

  /** What INC, DEC or a CB rotate or shift makes of a byte. */
  function UnaryOut(op: Op, v: bv8, carry: bool): CpuAlu.Out
    requires CpuExecutor.IsShift(op) || op == Inc || op == Dec
  {
    if op == Inc then CpuAlu.IncOut(v, carry)
    else if op == Dec then CpuAlu.DecOut(v, carry)
    else CpuExecutor.ShiftOut(op, v, carry)
  }

  /**
   * The arithmetic arms: the operation on the register and the byte (read at the pair,
   * immediate, or from a register) sets the flags and, except for CP, the register;
   * ADD SP,e moves SP by the sign-extended offset and two internal cycles follow;
   * ADD rr,rr adds the pairs, keeping Z.
   */
  function ArithEffect(t: Triple, x: bv8, rf: RegFile): (RegFile, Option<Instruction>)
    requires HandlesArith(t)
  {
    if t.p1.Reg8? then
      var b := if t.p2.AddrReg16? then x else if t.p2.U8? then t.p2.value8 else rf.Get8(t.p2.r8);
      var o := CpuExecutor.ArithOut(t.op, rf.Get8(t.p1.r8), b, rf.GetF(FFlag.C));
      (if t.op == Cp then rf.WithFlags(o.flags) else rf.WithFlags(o.flags).With8(t.p1.r8, o.value), None)
    else if t.p2.I8? then
      (CpuExecutor.AddOffset(rf, t.p1.r16, rf.Get16(t.p1.r16), t.p2.i8),
       Some(Instruction(Triple(Internal, Non, Non), Some(CpuExecutor.Single(Internal, Non, Non)))))
    else (CpuExecutor.AddPairs(rf, t.p1.r16, t.p2.r16), None)
  }

  /**
   * BIT writes Z, N and H from the examined bit; SET and RES change one bit of a
   * register, or hand back the write of the changed byte at the pair.
   */
  function BitOpEffect(t: Triple, x: bv8, rf: RegFile): (RegFile, Option<Instruction>)
    requires HandlesBitOp(t) && t.p1.value8 < 8
  {
    var n := t.p1.value8;
    var v := if t.p2.AddrReg16? then x else rf.Get8(t.p2.r8);
    if t.op == Bit then (rf.WithFlags(CpuAlu.BitFlags(n, v, rf.GetF(FFlag.C))), None)
    else if t.p2.AddrReg16? then (rf, Some(CpuExecutor.SetResStep(t.op == Set, n, rf.Get16(t.p2.ar16), x)))
    else if t.op == Set then (rf.With8(t.p2.r8, CpuAlu.SetBit(n, v)), None)
    else (rf.With8(t.p2.r8, CpuAlu.ResBit(n, v)), None)
  }

  /**
   * INC, DEC and the CB rotates and shifts: on a register, the flags and the new byte;
   * on `(HL)`, the flags now and the store of the new byte as the next step; INC and
   * DEC on a pair move it by one.
   */
  function UnaryEffect(t: Triple, x: bv8, rf: RegFile): (RegFile, Option<Instruction>)
    requires HandlesUnary(t)
  {
    match t.p1
    case AddrReg16(r16) =>
      var o := UnaryOut(t.op, x, rf.GetF(FFlag.C));
      (rf.WithFlags(o.flags), Some(CpuExecutor.StoreBack(rf.Get16(r16), o.value)))
    case Reg8(r8) =>
      var o := UnaryOut(t.op, rf.Get8(r8), rf.GetF(FFlag.C));
      (rf.WithFlags(o.flags).With8(r8, o.value), None)
    case Reg16(r16) =>
      (if t.op == Inc then CpuExecutor.PairInc(rf, r16) else CpuExecutor.PairDec(rf, r16), None)
  }

  /**
   * LD: a register takes the byte or word; a load or store through HL+ or HL-, or a
   * push through SP, moves the pair by one; loads and stores at an immediate address,
   * and a store of an immediate at a pair, hand the memory access back as the next step.
   */
  function LdEffect(t: Triple, x: bv8, rf: RegFile): (RegFile, Option<Instruction>)
    requires HandlesLd(t) && RegistersAllow(rf, t)
  {
    match t.p1
    case Reg16(r16) => LoadWordEffect(r16, t.p2, rf)
    case Reg8(r8) => LoadByteEffect(r8, t.p2, x, rf)
    case AddrReg16d(_) => (MovePair(rf, t.p1), None)
    case AddrReg16i(_) => (MovePair(rf, t.p1), None)
    case AddrRegd16(_) => (MovePair(rf, t.p1), None)
    case AddrReg16(r16) =>
      (rf, if t.p2.U8? then Some(CpuExecutor.StoreBack(rf.Get16(r16), t.p2.value8)) else None)
    case AddrU16(addr) =>
      (rf, if t.p2.Reg16? then Some(CpuExecutor.StoreWordChain(addr, rf.Get16(t.p2.r16)))
           else if t.p2.Reg8? then Some(CpuExecutor.WriteStep(addr, rf.Get8(t.p2.r8)))
           else None)
    case _ => (rf, None)
  }

  /** LD into a pair: the immediate word or another pair; LD HL,SP+e writes the SP offset flags, and one internal cycle follows. */
  function LoadWordEffect(r16: R16, p2: OpArg, rf: RegFile): (RegFile, Option<Instruction>)
  {
    if p2.SPI8? then
      (CpuExecutor.LoadOffset(rf, r16, rf.Get16(R16.SP), p2.spi8), Some(CpuExecutor.Single(Internal, Non, Non)))
    else (rf.With16(r16, if p2.U16? then p2.value16 else if p2.Reg16? then rf.Get16(p2.r16) else 0), None)
  }

  /**
   * LD into a register: the immediate, another register, or the byte `x` read from
   * memory (moving HL for HL+ and HL-); a load from an immediate address is handed
   * back as the next step.
   */
  function LoadByteEffect(r8: R8, p2: OpArg, x: bv8, rf: RegFile): (RegFile, Option<Instruction>)
  {
    match p2
    case AddrReg16d(r16) => (CpuExecutor.PairDec(rf, r16).With8(r8, x), None)
    case AddrReg16i(r16) => (CpuExecutor.PairInc(rf, r16).With8(r8, x), None)
    case AddrU16(addr) => (rf, Some(CpuExecutor.ReadStep(r8, addr)))
    case U8(v) => (rf.With8(r8, v), None)
    case Reg8(r2) => (rf.With8(r8, rf.Get8(r2)), None)
    case _ => (rf.With8(r8, x), None)
  }

  /** LD r,(HL-) and LD r,(HL+) load the byte read after moving the pair. */
  lemma LoadThroughPairDec(r8: R8, r16: R16, x: bv8, rf: RegFile)
    ensures LoadByteEffect(r8, AddrReg16d(r16), x, rf).0 == CpuExecutor.PairDec(rf, r16).With8(r8, x)
  {
  }

  lemma LoadThroughPairInc(r8: R8, r16: R16, x: bv8, rf: RegFile)
    ensures LoadByteEffect(r8, AddrReg16i(r16), x, rf).0 == CpuExecutor.PairInc(rf, r16).With8(r8, x)
  {
  }

  /**
   * Jumps, calls, returns and restarts: RET hands back the return chain when its
   * condition holds; RST loads PC and pushes the old one; a condition that fails
   * does nothing; JR hands back the load of the target; JP (HL) loads PC at once;
   * JP and CALL to an address load PC, with an internal cycle after, and CALL then
   * pushes the old PC.
   */
  function ControlEffect(t: Triple, rf: RegFile): (RegFile, Option<Instruction>)
    requires HandlesControl(t)
  {
    var fl, pc := rf.FlagsHeld(), rf.Get16(R16.PC);
    if t.op == Ret then (rf, CpuExecutor.ReturnIf(fl, t.p1.cond))
    else if t.op == Rst then (rf.With16(R16.PC, t.p1.value16), Some(CpuExecutor.PushChain(Hi(pc), Lo(pc))))
    else if t.p1.CC? && !CpuExecutor.CheckCc(fl, t.p1.cond) then (rf, None)
    else if t.op == Jr then (rf, Some(CpuExecutor.JumpRelativeStep(pc, if t.p1.CC? then t.p2.i8 else t.p1.i8)))
    else if t.op == Jp && t.p1.Reg16? then (rf.With16(R16.PC, rf.Get16(t.p1.r16)), None)
    else
      var addr := if t.p1.CC? then t.p2.value16 else t.p1.value16;
      (rf.With16(R16.PC, addr),
       Some(if t.op == Jp then CpuExecutor.Single(Internal, Non, Non)
            else Instruction(Triple(Internal, Non, Non), Some(CpuExecutor.PushChain(Hi(pc), Lo(pc))))))
  }

  /**
   * The operations without operands, READ and WRITE: CCF, CPL, SCF and DAA as the
   * flag and accumulator operations, the accumulator rotates, READ loading the byte
   * read; WRITE, NOP, the internal cycle and the latch operations leave the registers.
   */
  function PlainEffect(t: Triple, x: bv8, rf: RegFile): RegFile
    requires HandlesMisc(t)
  {
    if IsLatch(t.op) || t.op == Write || t.op == Nop || t.op == Internal then rf
    else if t.op == Read then rf.With8(t.p1.r8, x)
    else AccEffect(t.op, rf)
  }

  /** CCF, CPL, SCF, DAA and the accumulator rotates on the accumulator and the flags. */
  function AccEffect(op: Op, rf: RegFile): RegFile
  {
    var fl, a := rf.FlagsHeld(), rf.Get8(R8.A);
    if op == Ccf then rf.WithFlags(fl.(n := false, h := false, c := !rf.GetF(FFlag.C)))
    else if op == Cpl then rf.WithFlags(fl.(n := true, h := true)).With8(R8.A, !a)
    else if op == Scf then rf.WithFlags(fl.(n := false, h := false, c := true))
    else if op == Daa then
      var o := CpuExecutor.DaaOut(a, fl);
      rf.With8(R8.A, o.value).WithFlags(o.flags)
    else if CpuExecutor.IsAccRotate(op) then
      var o := CpuExecutor.AccRotateOut(op, a, rf.GetF(FFlag.C));
      rf.WithFlags(o.flags).With8(R8.A, o.value)
    else rf
  }

  /**
   * `execute` on the registers, given the byte the step reads: the register file
   * after the step and the chain it hands back, by the arm that matches.
   */
  function StepEffect(t: Triple, x: bv8, rf: RegFile): (RegFile, Option<Instruction>)
    requires HandlesStep(t) && RegistersAllow(rf, t)
  {
    if HandlesArith(t) then ArithEffect(t, x, rf)
    else if HandlesBitOp(t) then BitOpEffect(t, x, rf)
    else if HandlesUnary(t) then UnaryEffect(t, x, rf)
    else if HandlesLd(t) then LdEffect(t, x, rf)
    else if HandlesControl(t) then ControlEffect(t, rf)
    else (PlainEffect(t, x, rf), None)
  }

  /** The ALU arms and LD keep the latches, and only LD writes. */
  lemma DataArms(t: Triple, l: Latches, rf: RegFile)
    requires HandlesArith(t) || HandlesBitOp(t) || HandlesUnary(t) || HandlesLd(t)
    ensures StepLatches(t, l) == l
    ensures !HandlesLd(t) ==> WriteRequest(rf, t) == None
  {
  }

  /** Control steps are steps of `ControlEffect` that neither write nor touch the latches. */
  lemma ControlArms(t: Triple, x: bv8, l: Latches, rf: RegFile)
    requires RegistersAllow(rf, t) && HandlesControl(t)
    requires !(HandlesArith(t) || HandlesBitOp(t) || HandlesUnary(t) || HandlesLd(t))
    ensures HandlesStep(t) && StepEffect(t, x, rf) == ControlEffect(t, rf)
    ensures WriteRequest(rf, t) == None && StepLatches(t, l) == l
  {
  }

  /** The plain operations, READ and WRITE are steps of `PlainEffect`. */
  lemma MiscArm(t: Triple, x: bv8, rf: RegFile)
    requires RegistersAllow(rf, t) && HandlesMisc(t) && !HandlesControl(t)
    requires !(HandlesArith(t) || HandlesBitOp(t) || HandlesUnary(t) || HandlesLd(t))
    ensures HandlesStep(t) && StepEffect(t, x, rf) == (PlainEffect(t, x, rf), None)
  {
  }

  /** The latch operations leave the registers and write nothing. */
  lemma LatchArm(t: Triple, x: bv8, rf: RegFile)
    requires HandlesMisc(t) && IsLatch(t.op)
    ensures PlainEffect(t, x, rf) == rf && WriteRequest(rf, t) == None
  {
  }

  /** A triple no arm matches is no step and writes nothing. */
  lemma NoArm(t: Triple, rf: RegFile)
    requires !HandlesMisc(t) && !HandlesControl(t)
    requires !(HandlesArith(t) || HandlesBitOp(t) || HandlesUnary(t) || HandlesLd(t))
    ensures !HandlesStep(t) && WriteRequest(rf, t) == None
  {
  }

  /** The bus's invariant, taken as one fact by the CPU's contracts. */
  ghost predicate BusValid(mmu: Mmu.MMU)
    reads mmu, mmu.timer, mmu.Repr
  {
    mmu.Valid()
  }

  /** The bus accepts a step's read and its write. */
  predicate BusAccepts(mmu: Mmu.MMU, read: Option<u16>, write: Option<BusWrite>)
    reads mmu, mmu.CartRepr()
  {
    && (read.Some? ==> mmu.CanGet(read.value))
    && (write.Some? ==> mmu.CanSet(write.value.address, write.value.value))
  }

  /** What a step other than a decode needs not to abort: the registers allow it, and the bus accepts its read and its write. */
  predicate CanExecuteStep(rf: RegFile, t: Triple, mmu: Mmu.MMU)
    reads mmu, mmu.CartRepr()
  {
    RegistersAllow(rf, t) && BusAccepts(mmu, ReadAddress(rf, t), WriteRequest(rf, t))
  }

  /** What any step needs not to abort: what the step it runs needs (nothing, for a decode that is not immediate). */
  predicate CanExecute(rf: RegFile, t: Triple, mmu: Mmu.MMU)
    reads mmu, mmu.CartRepr()
  {
    CanExecuteStep(rf, Runs(t), mmu)
  }

  /** The registers after `fetch`: PC one byte on for a step that reads, else as they were. */
  function AfterFetch(rf: RegFile, t: Triple): (after: RegFile)
    ensures !Reads(t) ==> after == rf
    ensures Reads(t) ==> after.Get16(PC) == rf.Get16(PC) + 1
  {
    if Reads(t) then rf.With16(PC, rf.Get16(PC) + 1) else rf
  }

  // ---------------------------------------------------------------------------
  // Interrupts

  /** The first request of `rs` that `ie` enables. */
  function FirstEnabled(rs: seq<InterruptRequest>, ie: Interrupts): Option<InterruptRequest>
  {
    if |rs| == 0 then None
    else if ie.IsEnable(rs[0]) then Some(rs[0])
    else FirstEnabled(rs[1..], ie)
  }

  /** The request `handle_interrupt` services, if any: IME must be set. */
  function Serviced(ime: bool, flags: bv8, enables: bv8): Option<InterruptRequest>
  {
    if ime then FirstEnabled(Interrupts(flags).GetRequestByPriority(), Interrupts(enables)) else None
  }

  /**
   * The interrupt dispatch: two idle cycles, PC pushed high byte first, then PC loaded
   * with the routine's address.
   */
  function InterruptChain(pch: bv8, pcl: bv8, r: InterruptRequest): (i: Instruction)
    ensures Length(i) == 5
  {
    var jump := Instruction(Triple(Ld, Reg16(R16.PC), U16(RoutineLocation(r))), None);
    var pushLow := Instruction(Triple(Ld, AddrRegd16(R16.SP), U8(pcl)), Some(jump));
    var pushHigh := Instruction(Triple(Ld, AddrRegd16(R16.SP), U8(pch)), Some(pushLow));
    var idle := Instruction(Triple(Nop, Non, Non), Some(pushHigh));
    assert Length(jump) == 1 && Length(pushLow) == 2 && Length(pushHigh) == 3;
    Instruction(Triple(Nop, Non, Non), Some(idle))
  }


  /** A request both raised in IF and enabled in IE. */
  predicate Requested(flags: bv8, enables: bv8, r: InterruptRequest)
  {
    Interrupts(flags).IsEnable(r) && Interrupts(enables).IsEnable(r)
  }

  /**
   * The first enabled request is in the sequence and enabled, there is none exactly
   * when no request of the sequence is enabled, and, in a sequence sorted by priority,
   * it comes before every other enabled one.
   */
  lemma {:induction false} FirstEnabledIsFirst(rs: seq<InterruptRequest>, ie: Interrupts)
    requires forall i, j :: 0 <= i < j < |rs| ==> Priority(rs[i]) < Priority(rs[j])
    ensures FirstEnabled(rs, ie).Some? ==> FirstEnabled(rs, ie).value in rs && ie.IsEnable(FirstEnabled(rs, ie).value)
    ensures FirstEnabled(rs, ie).None? <==> forall q :: q in rs ==> !ie.IsEnable(q)
    ensures FirstEnabled(rs, ie).Some? ==>
      forall q :: q in rs && ie.IsEnable(q) ==> Priority(FirstEnabled(rs, ie).value) <= Priority(q)
  {
    if |rs| > 0 && !ie.IsEnable(rs[0]) {
      FirstEnabledIsFirst(rs[1..], ie);
      forall q | q in rs && ie.IsEnable(q)
        ensures q in rs[1..]
      {
        assert q != rs[0];
      }
    } else if |rs| > 0 {
      forall q | q in rs
        ensures Priority(rs[0]) <= Priority(q)
      {
        var j :| 0 <= j < |rs| && rs[j] == q;
      }
    }
  }

  /**
   * `handle_interrupt` services a request exactly when IME is set and some request is
   * raised and enabled, and then the one of highest priority (lowest bit).
   */
  lemma ServicedIsHighestPriority(ime: bool, flags: bv8, enables: bv8)
    ensures Serviced(ime, flags, enables).Some? <==> ime && exists r :: Requested(flags, enables, r)
    ensures Serviced(ime, flags, enables).Some? ==>
      var r := Serviced(ime, flags, enables).value;
      Requested(flags, enables, r) && forall q :: Requested(flags, enables, q) ==> Priority(r) <= Priority(q)
  {
    if ime {
      var rs := Interrupts(flags).GetRequestByPriority();
      var ie := Interrupts(enables);
      FirstEnabledIsFirst(rs, ie);
      var first := FirstEnabled(rs, ie);
      if first.Some? {
        assert first.value in rs;
        assert Requested(flags, enables, first.value);
        forall q | Requested(flags, enables, q)
          ensures Priority(first.value) <= Priority(q)
        {
          assert q in rs;
        }
      } else {
        forall q
          ensures !Requested(flags, enables, q)
        {
          if Interrupts(flags).IsEnable(q) {
            assert q in rs;
          }
        }
        assert !exists r :: Requested(flags, enables, r);
      }
    }
  }

  /** IE and IF share a set bit: a halted CPU wakes, whether or not IME is set. */
  predicate Wakes(flags: bv8, enables: bv8)
  {
    enables & flags != 0
  }

  /** Some request is raised and enabled only if IE and IF share a set bit, which also wakes a halted CPU. */
  lemma RequestedWakes(flags: bv8, enables: bv8, r: InterruptRequest)
    requires Requested(flags, enables, r)
    ensures Wakes(flags, enables)
  {
    var k := Priority(r);
    assert (flags >> k) & 1 == 1 && (enables >> k) & 1 == 1;
    assert ((enables & flags) >> k) & 1 == ((enables >> k) & 1) & ((flags >> k) & 1);
  }

  /** The CPU state `handle_interrupt` reads and writes, and the interrupt flags register. */
  datatype InterruptState = InterruptState(
    halted: bool, imeRequested: bool, ime: bool, instruction: Instruction, flags: bv8)

  /**
   * `handle_interrupt` as a function: only at a decode step, a pending enabled request
   * wakes a halted CPU; with IME set the highest-priority pending enabled request is
   * serviced (its flag cleared, IME cleared, the dispatch chain installed); with IME
   * clear a pending EI takes effect.
   */
  function InterruptStep(s: InterruptState, enables: bv8, pch: bv8, pcl: bv8): InterruptState
  {
    if s.instruction.ins.op != Dcd then s
    else
      var halted := s.halted && !Wakes(s.flags, enables);
      var serviced := Serviced(s.ime, s.flags, enables);
      if serviced.Some? then
        InterruptState(halted, s.imeRequested, false, InterruptChain(pch, pcl, serviced.value),
                       Interrupts(s.flags).DisableRequest(serviced.value).bits)
      else if !s.ime && s.imeRequested then
        InterruptState(halted, false, true, s.instruction, s.flags)
      else
        s.(halted := halted)
  }

  /** The CPU's halt latch, its pending EI and its interrupt master enable. */
  datatype Latches = Latches(halted: bool, imeRequested: bool, ime: bool)

  /**
   * The latches after a step: DI clears IME and a pending EI, EI requests IME for
   * after the next instruction, the immediate EI sets IME, HALT halts; every other
   * step, and a step no arm matches, keeps them.
   */
  function StepLatches(t: Triple, l: Latches): (after: Latches)
    ensures !HandlesStep(t) || !(IsLatch(t.op)) ==> after == l
    ensures HandlesStep(t) && t.op == Di ==> !after.ime && !after.imeRequested && after.halted == l.halted
    ensures HandlesStep(t) && t.op == Ei ==> after == l.(imeRequested := true)
    ensures HandlesStep(t) && t.op == EiImm ==> after == l.(ime := true)
    ensures HandlesStep(t) && t.op == Halt ==> after == l.(halted := true)
  {
    if !HandlesStep(t) then l
    else match t.op
      case Di => l.(imeRequested := false, ime := false)
      case Ei => l.(imeRequested := true)
      case EiImm => l.(ime := true)
      case Halt => l.(halted := true)
      case _ => l
  }

  /**
   * At a decode step with IME set and a request raised and enabled, the request of
   * highest priority is serviced: its IF bit alone is cleared, IME is cleared, a
   * halted CPU wakes, and the dispatch chain to its routine is installed.
   */
  lemma InterruptServicesHighest(s: InterruptState, enables: bv8, pch: bv8, pcl: bv8, r: InterruptRequest)
    requires s.instruction.ins.op == Dcd && s.ime
    requires Requested(s.flags, enables, r)
    requires forall q :: Requested(s.flags, enables, q) ==> Priority(r) <= Priority(q)
    ensures var n := InterruptStep(s, enables, pch, pcl);
      && n.instruction == InterruptChain(pch, pcl, r)
      && !n.ime && !n.halted && n.imeRequested == s.imeRequested
      && !Interrupts(n.flags).IsEnable(r)
      && (forall q :: q != r ==> Interrupts(n.flags).IsEnable(q) == Interrupts(s.flags).IsEnable(q))
      && n.flags & !Mask(r) == s.flags & !Mask(r)
  {
    ServicedIsHighestPriority(s.ime, s.flags, enables);
    var f := Serviced(s.ime, s.flags, enables).value;
    assert Priority(f) <= Priority(r) && Priority(r) <= Priority(f);
    PriorityDistinguishes(f, r);
    RequestedWakes(s.flags, enables, r);
  }

  /**
   * At a decode step with nothing to service (IME clear, or no request raised and
   * enabled), the chain and IF stay; a pending EI sets IME, and a halted CPU wakes
   * only if IE and IF share a set bit.
   */
  lemma InterruptIdle(s: InterruptState, enables: bv8, pch: bv8, pcl: bv8)
    requires s.instruction.ins.op == Dcd
    requires !s.ime || forall q :: !Requested(s.flags, enables, q)
    ensures var n := InterruptStep(s, enables, pch, pcl);
      && n.instruction == s.instruction && n.flags == s.flags
      && n.ime == (s.ime || s.imeRequested)
      && n.imeRequested == (s.imeRequested && s.ime)
      && n.halted == (s.halted && !Wakes(s.flags, enables))
  {
    if s.ime {
      ServicedIsHighestPriority(s.ime, s.flags, enables);
    }
    assert Serviced(s.ime, s.flags, enables).None?;
  }

  /** Two requests of the same priority are the same request. */
  lemma PriorityDistinguishes(a: InterruptRequest, b: InterruptRequest)
    requires Priority(a) == Priority(b)
    ensures a == b
  {
  }

  /** `InterruptStep` when a request is serviced. */
  lemma ServicedStep(s: InterruptState, enables: bv8, pch: bv8, pcl: bv8, r: InterruptRequest)
    requires s.instruction.ins.op == Dcd && Serviced(s.ime, s.flags, enables) == Some(r)
    ensures InterruptStep(s, enables, pch, pcl)
      == InterruptState(s.halted && !Wakes(s.flags, enables), s.imeRequested, false,
                        InterruptChain(pch, pcl, r), Interrupts(s.flags).DisableRequest(r).bits)
  {
  }

  /** `InterruptStep` at a decode step when no request is serviced. */
  lemma UnservicedStep(s: InterruptState, enables: bv8, pch: bv8, pcl: bv8)
    requires s.instruction.ins.op == Dcd && Serviced(s.ime, s.flags, enables).None?
    ensures InterruptStep(s, enables, pch, pcl)
      == if !s.ime && s.imeRequested
         then s.(halted := s.halted && !Wakes(s.flags, enables), imeRequested := false, ime := true)
         else s.(halted := s.halted && !Wakes(s.flags, enables))
  {
  }

  /** A twostate view of the bus: with its objects untouched it is still valid. */
  twostate lemma BusUntouched(mmu: Mmu.MMU)
    requires old(BusValid(mmu)) && unchanged(mmu.Repr)
    ensures BusValid(mmu)
  {
  }


  /** The bus after a step's write: what the write does when the step asks for one, untouched otherwise. */
  twostate predicate BusWrote(mmu: Mmu.MMU, write: Option<BusWrite>)
    reads mmu, mmu.Repr
    requires old(BusValid(mmu)) && BusValid(mmu)
    requires write.Some? ==> old(mmu.CanSet(write.value.address, write.value.value))
  {
    (write.Some? ==> mmu.Written(write.value.address, write.value.value))
    && (write.None? ==> unchanged(mmu.Repr))
  }

  /** One of the bus's own registers after a step's write: the byte written when the step writes `address`, else `before`. */
  function RegisterAfter(address: u16, before: bv8, write: Option<BusWrite>): (after: bv8)
    ensures write.None? ==> after == before
  {
    if write.Some? && write.value.address == address then write.value.value else before
  }

  /** The bus's write leaves IF and IE as `RegisterAfter` says: only a write to 0xFF0F or 0xFFFF changes them. */
  twostate lemma WroteInterruptRegisters(new mmu: Mmu.MMU, write: Option<BusWrite>)
    requires old(allocated(mmu))
    requires old(BusValid(mmu)) && BusValid(mmu)
    requires write.Some? ==> old(mmu.CanSet(write.value.address, write.value.value))
    requires BusWrote(mmu, write)
    ensures mmu.interruptFlags == RegisterAfter(0xFF0F, old(mmu.interruptFlags), write)
    ensures mmu.interruptEnables == RegisterAfter(0xFFFF, old(mmu.interruptEnables), write)
  {
  }

  /**
   * What `execute` did, from registers `rf`: for a step it handles, the registers `regs`
   * and the result are `Executed` with the byte the step read from the bus before, and
   * the bus took the step's write; for a step it does not handle, the registers are
   * `rf` and the bus is untouched.
   */
  twostate predicate Ran(t: Triple, new rf: RegFile, new regs: Registers, mmu: Mmu.MMU, new r: Result<Option<Instruction>>)
    reads regs, mmu, mmu.Repr
    requires old(BusValid(mmu)) && BusValid(mmu)
    requires Handles(t) ==> old(CanExecute(rf, t, mmu))
  {
    (Handles(t) ==>
       var e := Executed(t, old(ReadByte(mmu, ReadAddress(rf, Runs(t)))), rf);
       regs.File() == e.0 && r == Ok(e.1))
    && (!Handles(t) ==> regs.File() == rf)
    && BusWrote(mmu, WriteRequest(rf, Runs(t)))
  }

  /** The byte a step's read yields: the bus at its address, or zero when the step reads nothing. */
  ghost function ReadByte(mmu: Mmu.MMU, read: Option<u16>): bv8
    reads mmu.Repr
    requires mmu.Valid() && (read.Some? ==> mmu.CanGet(read.value))
  {
    if read.Some? then mmu.Get(read.value) else 0
  }

  /** The step's bus read, then its bus write; the byte read, or zero when there is none. */
  method Access(mmu: Mmu.MMU, read: Option<u16>, write: Option<BusWrite>) returns (x: bv8)
    requires BusValid(mmu)
    requires BusAccepts(mmu, read, write)
    modifies mmu.Repr
    ensures BusValid(mmu)
    ensures x == old(ReadByte(mmu, read))
    ensures BusWrote(mmu, write)
  {
    x := 0;
    if read.Some? {
      x := mmu.Get(read.value);
    }
    if write.Some? {
      mmu.Set(write.value.address, write.value.value);
    }
  }

  /** The loop of `handle_interrupt`: the first request of `requests` that `ie` enables. */
  method FirstRequest(requests: seq<InterruptRequest>, ie: Interrupts) returns (found: Option<InterruptRequest>)
    ensures found == FirstEnabled(requests, ie)
  {
    found := None;
    var i := 0;
    while i < |requests|
      invariant 0 <= i <= |requests|
      invariant FirstEnabled(requests, ie) == FirstEnabled(requests[i..], ie)
    {
      if ie.IsEnable(requests[i]) {
        found := Some(requests[i]);
        break;
      }
      i := i + 1;
    }
  }

  /** With only the bus object's own fields changed, the bus is still valid. */
  twostate lemma BusFieldsOnly(mmu: Mmu.MMU)
    requires old(BusValid(mmu)) && unchanged(mmu.Repr - {mmu})
    ensures BusValid(mmu)
  {
  }

  /**
   * What a `cycle` that did not panic did to the registers and what it returned: a
   * halted CPU keeps its registers and succeeds; otherwise a step still missing bytes
   * succeeds with the fetch's register effect, and a completed step fails exactly when
   * the executor does not handle it, and otherwise leaves the registers `Executed` says
   * from the registers after the fetch and the byte its read found on the bus.
   */
  twostate predicate CycleEffect(cpu: Cpu, mmu: Mmu.MMU, new r: Result<()>)
    reads cpu, cpu.registers
    requires old(cpu.Valid() && BusValid(mmu) && cpu.Apart(mmu)) && !old(!cpu.halted && cpu.Panics(mmu))
  {
    if old(cpu.halted) then r.Ok? && cpu.registers.File() == old(cpu.registers.File())
    else
      var (done, t) := old(Resolve(cpu.instruction.ins, cpu.NextByte(mmu)));
      var rf := AfterFetch(old(cpu.registers.File()), old(cpu.instruction.ins));
      (!done ==> r.Ok? && cpu.registers.File() == rf)
      && (done ==> (r.Err? <==> !Handles(t)))
      && (done && Handles(t) ==>
            cpu.registers.File() == Executed(t, old(ReadByte(mmu, ReadAddress(rf, Runs(t)))), rf).0)
  }

  class Cpu {
    var halted: bool
    var imeRequested: bool
    var ime: bool
    const registers: Registers
    var instruction: Instruction

    ghost predicate Valid()
      reads this, registers
    {
      registers.Valid()
    }

    /** The CPU and its registers are not objects of the bus. */
    ghost predicate Apart(mmu: Mmu.MMU)
      reads this
    {
      this !in mmu.Repr && registers !in mmu.Repr
    }

    /** `CPU::default()`: zeroed registers, everything off, and the first opcode's decode waiting. */
    constructor ()
      ensures Valid() && fresh(registers)
      ensures !halted && !imeRequested && !ime
      ensures instruction == DecodeStep()
      ensures forall r: R8 :: registers.Get8(r) == 0
    {
      halted := false;
      imeRequested := false;
      ime := false;
      instruction := DecodeStep();
      registers := new Registers();
    }

    function LatchState(): Latches
      reads this
    {
      Latches(halted, imeRequested, ime)
    }

    /** The part of the state `handle_interrupt` works on. */
    function InterruptView(mmu: Mmu.MMU): InterruptState
      reads this, mmu
    {
      InterruptState(halted, imeRequested, ime, instruction, mmu.interruptFlags)
    }

    // -------------------------------------------------------------------------
    // Executing one step on the registers

    /** `execute` for the arithmetic arms; `x` is the byte read for an `(HL)` operand. */
    method ExecArith(t: Triple, x: bv8) returns (r: Result<Option<Instruction>>)
      requires Valid() && HandlesArith(t) && RegistersAllow(registers.File(), t)
      modifies registers
      ensures Valid()
      ensures var e := ArithEffect(t, x, old(registers.File())); registers.File() == e.0 && r == Ok(e.1)
    {
      if t.p1.Reg8? {
        var b := if t.p2.AddrReg16? then x else if t.p2.U8? then t.p2.value8 else registers.Get8(t.p2.r8);
        CpuExecutor.Arith(registers, t.op, t.p1.r8, b);
        r := Ok(None);
      } else if t.p2.I8? {
        var next := CpuExecutor.AddR16I8(registers, t.p1.r16, t.p2.i8);
        r := Ok(Some(next));
      } else {
        CpuExecutor.AddR16R16(registers, t.p1.r16, t.p2.r16);
        r := Ok(None);
      }
    }

    /** `execute` for BIT, RES and SET; `x` is the byte read for `(HL)`. */
    method ExecBitOp(t: Triple, x: bv8) returns (r: Result<Option<Instruction>>)
      requires Valid() && HandlesBitOp(t) && RegistersAllow(registers.File(), t)
      modifies registers
      ensures Valid()
      ensures var e := BitOpEffect(t, x, old(registers.File())); registers.File() == e.0 && r == Ok(e.1)
    {
      var n := t.p1.value8;
      match t.p2 {
        case AddrReg16(r16) =>
          if t.op == Bit {
            CpuExecutor.BitOf(registers, n, x);
            r := Ok(None);
          } else {
            r := Ok(Some(CpuExecutor.SetResStep(t.op == Set, n, registers.Get16(r16), x)));
          }
        case Reg8(r8) =>
          if t.op == Bit {
            CpuExecutor.BitOf(registers, n, registers.Get8(r8));
          } else if t.op == Set {
            CpuExecutor.SetR8(registers, n, r8);
          } else {
            CpuExecutor.ResR8(registers, n, r8);
          }
          r := Ok(None);
      }
    }

    /** `execute` for the CB rotates and shifts, INC and DEC; `x` is the byte read for `(HL)`. */
    method ExecUnary(t: Triple, x: bv8) returns (r: Result<Option<Instruction>>)
      requires Valid() && HandlesUnary(t) && RegistersAllow(registers.File(), t)
      modifies registers
      ensures Valid()
      ensures var e := UnaryEffect(t, x, old(registers.File())); registers.File() == e.0 && r == Ok(e.1)
    {
      match t.p1 {
        case AddrReg16(r16) =>
          var next := CpuExecutor.ModifyInMemory(registers, t.op, registers.Get16(r16), x);
          r := Ok(Some(next));
        case Reg8(r8) =>
          if t.op == Inc {
            CpuExecutor.IncR8(registers, r8);
          } else if t.op == Dec {
            CpuExecutor.DecR8(registers, r8);
          } else {
            CpuExecutor.Shift(registers, t.op, r8);
          }
          r := Ok(None);
        case Reg16(r16) =>
          if t.op == Inc {
            CpuExecutor.IncR16(registers, r16);
          } else {
            CpuExecutor.DecR16(registers, r16);
          }
          r := Ok(None);
      }
    }

    /** `execute` for LD to memory through a register pair that the step moves. */
    method ExecStorePair(t: Triple) returns (write: Option<BusWrite>)
      requires Valid() && t.op == Ld && RegistersAllow(registers.File(), t)
      requires ((t.p1.AddrReg16d? || t.p1.AddrReg16i?) && t.p2.Reg8?) || (t.p1.AddrRegd16? && (t.p2.Reg8? || t.p2.U8?))
      modifies registers
      ensures Valid()
      ensures write == Some(PairWrite(old(registers.File()), t.p1, t.p2))
      ensures registers.File() == MovePair(old(registers.File()), t.p1)
    {
      var p1, p2 := t.p1, t.p2;
      var addr, v;
      if p1.AddrReg16d? {
        addr, v := CpuExecutor.StoreAtPairDec(registers, p1.dr16, p2.r8);
      } else if p1.AddrReg16i? {
        addr, v := CpuExecutor.StoreAtPairInc(registers, p1.ir16, p2.r8);
      } else {
        addr, v := CpuExecutor.StoreAtPairPreDec(registers, p1.pr16, p2);
      }
      write := Some(BusWrite(Address(addr), v));
    }

    /** `execute` for the other LDs to memory, which leave the registers as they are. */
    method ExecStore(t: Triple) returns (r: Result<Option<Instruction>>, write: Option<BusWrite>)
      requires HandlesLd(t) && (t.p1.AddrReg16? || t.p1.AddrU16? || t.p1.InAddrReg8? || t.p1.InAddrU8?)
      requires RegistersAllow(registers.File(), t)
      ensures r == Ok(LdEffect(t, 0, registers.File()).1)
      ensures LdEffect(t, 0, registers.File()).0 == registers.File()
      ensures write == WriteRequest(registers.File(), t)
    {
      r := Ok(None);
      write := WriteRequest(registers.File(), t);
      var p1, p2 := t.p1, t.p2;
      if p1.AddrReg16? && p2.U8? {
        r := Ok(Some(CpuExecutor.StoreBack(registers.Get16(p1.ar16), p2.value8)));
      } else if p1.AddrU16? && p2.Reg16? {
        r := Ok(Some(CpuExecutor.StoreWordChain(p1.addr, registers.Get16(p2.r16))));
      } else if p1.AddrU16? && p2.Reg8? {
        r := Ok(Some(CpuExecutor.WriteStep(p1.addr, registers.Get8(p2.r8))));
      }
    }

    /** `execute` for LD to a pair. */
    method ExecLoadWord(r16: R16, p2: OpArg) returns (r: Result<Option<Instruction>>)
      requires Valid() && (p2.SPI8? || p2.U16? || p2.Reg16?)
      modifies registers
      ensures Valid()
      ensures var e := LoadWordEffect(r16, p2, old(registers.File())); registers.File() == e.0 && r == Ok(e.1)
    {
      r := Ok(None);
      if p2.SPI8? {
        var next := CpuExecutor.LdR16Spi8(registers, r16, p2.spi8);
        r := Ok(Some(next));
      } else if p2.U16? {
        CpuExecutor.LdR16(registers, r16, p2.value16);
      } else {
        CpuExecutor.LdR16(registers, r16, registers.Get16(p2.r16));
      }
    }

    /** `execute` for LD to a register; `x` is the byte read for a load from memory. */
    method ExecLoadByte(r8: R8, p2: OpArg, x: bv8) returns (r: Result<Option<Instruction>>)
      requires Valid()
      requires p2.AddrReg16d? ==> registers.Get16(p2.dr16) > 0
      requires p2.AddrReg16i? ==> registers.Get16(p2.ir16) < 0xFFFF
      modifies registers
      ensures Valid()
      ensures var e := LoadByteEffect(r8, p2, x, old(registers.File())); registers.File() == e.0 && r == Ok(e.1)
    {
      r := Ok(None);
      if p2.AddrReg16d? || p2.AddrReg16i? {
        ExecLoadThroughPair(r8, p2, x);
      } else if p2.AddrU16? {
        r := Ok(Some(CpuExecutor.ReadStep(r8, p2.addr)));
      } else if p2.U8? {
        CpuExecutor.LdR8(registers, r8, p2.value8);
      } else if p2.Reg8? {
        CpuExecutor.LdR8(registers, r8, registers.Get8(p2.r8));
      } else {
        CpuExecutor.LdR8(registers, r8, x);
      }
    }

    /** LD r,(HL-) and LD r,(HL+): the byte read, and the pair moved. */
    method ExecLoadThroughPair(r8: R8, p2: OpArg, x: bv8)
      requires Valid() && (p2.AddrReg16d? || p2.AddrReg16i?)
      requires p2.AddrReg16d? ==> registers.Get16(p2.dr16) > 0
      requires p2.AddrReg16i? ==> registers.Get16(p2.ir16) < 0xFFFF
      modifies registers
      ensures Valid()
      ensures registers.File() == LoadByteEffect(r8, p2, x, old(registers.File())).0
    {
      if p2.AddrReg16d? {
        LoadThroughPairDec(r8, p2.dr16, x, registers.File());
        CpuExecutor.LdR8FromPairDec(registers, r8, p2.dr16, x);
      } else {
        LoadThroughPairInc(r8, p2.ir16, x, registers.File());
        CpuExecutor.LdR8FromPairInc(registers, r8, p2.ir16, x);
      }
    }

    /** `execute` for jumps, calls, returns and restarts. */
    method ExecControl(t: Triple) returns (r: Result<Option<Instruction>>)
      requires Valid() && HandlesControl(t)
      modifies registers
      ensures Valid()
      ensures var e := ControlEffect(t, old(registers.File())); registers.File() == e.0 && r == Ok(e.1)
    {
      var fl := registers.File().FlagsHeld();
      var p1, p2 := t.p1, t.p2;
      if t.op == Ret {
        r := Ok(CpuExecutor.ReturnIf(fl, p1.cond));
      } else if t.op == Rst {
        var next := CpuExecutor.RstU16(registers, p1.value16);
        r := Ok(Some(next));
      } else if p1.CC? && !CpuExecutor.CheckCc(fl, p1.cond) {
        r := Ok(None);
      } else if t.op == Jr {
        var e := if p1.CC? then p2.i8 else p1.i8;
        r := Ok(Some(CpuExecutor.JumpRelativeStep(registers.Get16(R16.PC), e)));
      } else if t.op == Jp && p1.Reg16? {
        CpuExecutor.JpR16(registers, p1.r16);
        r := Ok(None);
      } else {
        var addr := if p1.CC? then p2.value16 else p1.value16;
        var next;
        if t.op == Jp {
          next := CpuExecutor.JpU16(registers, addr);
        } else {
          next := CpuExecutor.CallU16(registers, addr);
        }
        r := Ok(Some(next));
      }
    }

    /** `execute` for the register operations without operands, READ and WRITE; `x` is the byte READ reads. */
    method ExecPlain(t: Triple, x: bv8) returns (write: Option<BusWrite>)
      requires Valid() && HandlesMisc(t) && !IsLatch(t.op)
      modifies registers
      ensures Valid()
      ensures write == WriteRequest(old(registers.File()), t)
      ensures registers.File() == PlainEffect(t, x, old(registers.File()))
    {
      write := None;
      var op := t.op;
      if op == Write {
        write := Some(BusWrite(Address(t.p1.addr), t.p2.value8));
      } else if op == Read {
        CpuExecutor.LdR8(registers, t.p1.r8, x);
      } else if op != Nop && op != Internal {
        ExecAcc(op);
      }
    }

    /** CCF, CPL, SCF, DAA and the accumulator rotates. */
    method ExecAcc(op: Op)
      requires Valid()
      modifies registers
      ensures Valid()
      ensures registers.File() == AccEffect(op, old(registers.File()))
    {
      if op == Ccf {
        CpuExecutor.Ccf(registers);
      } else if op == Cpl {
        CpuExecutor.Cpl(registers);
      } else if op == Daa {
        CpuExecutor.Daa(registers);
      } else if op == Scf {
        CpuExecutor.Scf(registers);
      } else if CpuExecutor.IsAccRotate(op) {
        CpuExecutor.AccRotate(registers, op);
      }
    }

    /** `execute` for the arithmetic, bit, rotate, shift, INC and DEC arms. */
    method ExecAlu(t: Triple, x: bv8) returns (r: Result<Option<Instruction>>)
      requires Valid() && (HandlesArith(t) || HandlesBitOp(t) || HandlesUnary(t))
      requires RegistersAllow(registers.File(), t)
      modifies registers
      ensures Valid()
      ensures var e := StepEffect(t, x, old(registers.File())); registers.File() == e.0 && r == Ok(e.1)
    {
      if HandlesArith(t) {
        r := ExecArith(t, x);
      } else if HandlesBitOp(t) {
        r := ExecBitOp(t, x);
      } else {
        r := ExecUnary(t, x);
      }
    }

    /** `execute` for LD. */
    method ExecLd(t: Triple, x: bv8) returns (r: Result<Option<Instruction>>, write: Option<BusWrite>)
      requires Valid() && HandlesLd(t) && RegistersAllow(registers.File(), t)
      modifies registers
      ensures Valid()
      ensures write == WriteRequest(old(registers.File()), t)
      ensures var e := LdEffect(t, x, old(registers.File())); registers.File() == e.0 && r == Ok(e.1)
    {
      r := Ok(None);
      write := None;
      if t.p1.Reg16? {
        r := ExecLoadWord(t.p1.r16, t.p2);
      } else if t.p1.Reg8? {
        r := ExecLoadByte(t.p1.r8, t.p2, x);
      } else if t.p1.AddrReg16d? || t.p1.AddrReg16i? || t.p1.AddrRegd16? {
        assert WriteRequest(registers.File(), t) == Some(PairWrite(registers.File(), t.p1, t.p2));
        write := ExecStorePair(t);
      } else {
        r, write := ExecStore(t);
      }
    }

    /**
     * DI clears IME and a pending EI, EI requests IME for after the next instruction,
     * the immediate EI sets it, and HALT sets the halt latch.
     */
    method ExecLatch(t: Triple)
      requires HandlesMisc(t) && IsLatch(t.op)
      modifies this
      ensures LatchState() == StepLatches(t, old(LatchState()))
      ensures instruction == old(instruction)
    {
      var op := t.op;
      if op == Di {
        imeRequested := false;
        ime := false;
      } else if op == Ei {
        imeRequested := true;
      } else if op == EiImm {
        ime := true;
      } else {
        halted := true;
      }
    }

    /**
     * `execute` on the registers for a step other than a decode, given the byte the
     * step reads: an error for a step no arm matches, and the write the step asks for.
     */
    method ExecuteOnRegisters(t: Triple, x: bv8) returns (r: Result<Option<Instruction>>, write: Option<BusWrite>)
      requires Valid() && RegistersAllow(registers.File(), t)
      modifies this, registers
      ensures Valid() && instruction == old(instruction)
      ensures r.Err? <==> !HandlesStep(t)
      ensures !HandlesStep(t) ==> registers.File() == old(registers.File())
      ensures HandlesStep(t) ==>
        var e := StepEffect(t, x, old(registers.File())); registers.File() == e.0 && r == Ok(e.1)
      ensures write == WriteRequest(old(registers.File()), t)
      ensures LatchState() == StepLatches(t, old(LatchState()))
    {
      if HandlesArith(t) || HandlesBitOp(t) || HandlesUnary(t) || HandlesLd(t) {
        r, write := ExecData(t, x);
      } else {
        r, write := ExecOther(t, x);
      }
    }

    /** The arms that compute on registers and memory operands: the ALU arms and LD. */
    method ExecData(t: Triple, x: bv8) returns (r: Result<Option<Instruction>>, write: Option<BusWrite>)
      requires Valid() && RegistersAllow(registers.File(), t)
      requires HandlesArith(t) || HandlesBitOp(t) || HandlesUnary(t) || HandlesLd(t)
      modifies registers
      ensures Valid()
      ensures var e := StepEffect(t, x, old(registers.File())); registers.File() == e.0 && r == Ok(e.1)
      ensures write == WriteRequest(old(registers.File()), t)
      ensures LatchState() == StepLatches(t, LatchState())
    {
      DataArms(t, LatchState(), registers.File());
      write := None;
      if HandlesArith(t) || HandlesBitOp(t) || HandlesUnary(t) {
        r := ExecAlu(t, x);
      } else {
        r, write := ExecLd(t, x);
      }
    }

    /** The control arms, the plain operations, READ and WRITE, and the error for a step no arm matches. */
    method ExecOther(t: Triple, x: bv8) returns (r: Result<Option<Instruction>>, write: Option<BusWrite>)
      requires Valid() && RegistersAllow(registers.File(), t)
      requires !(HandlesArith(t) || HandlesBitOp(t) || HandlesUnary(t) || HandlesLd(t))
      modifies this, registers
      ensures Valid() && instruction == old(instruction)
      ensures r.Err? <==> !HandlesStep(t)
      ensures !HandlesStep(t) ==> registers.File() == old(registers.File())
      ensures HandlesStep(t) ==>
        var e := StepEffect(t, x, old(registers.File())); registers.File() == e.0 && r == Ok(e.1)
      ensures write == WriteRequest(old(registers.File()), t)
      ensures LatchState() == StepLatches(t, old(LatchState()))
    {
      if HandlesControl(t) {
        r, write := ExecControlArm(t, x);
      } else {
        r, write := ExecMiscArm(t, x);
      }
    }

    /** The control arms as steps: they neither write nor touch the latches. */
    method ExecControlArm(t: Triple, x: bv8) returns (r: Result<Option<Instruction>>, write: Option<BusWrite>)
      requires Valid() && RegistersAllow(registers.File(), t) && HandlesControl(t)
      requires !(HandlesArith(t) || HandlesBitOp(t) || HandlesUnary(t) || HandlesLd(t))
      modifies registers
      ensures Valid() && HandlesStep(t)
      ensures var e := StepEffect(t, x, old(registers.File())); registers.File() == e.0 && r == Ok(e.1)
      ensures write == WriteRequest(old(registers.File()), t)
      ensures LatchState() == StepLatches(t, LatchState())
    {
      ControlArms(t, x, LatchState(), registers.File());
      r := ExecControl(t);
      write := None;
    }

    /** The plain operations, READ and WRITE, and the error for a step no arm matches. */
    method ExecMiscArm(t: Triple, x: bv8) returns (r: Result<Option<Instruction>>, write: Option<BusWrite>)
      requires Valid() && RegistersAllow(registers.File(), t) && !HandlesControl(t)
      requires !(HandlesArith(t) || HandlesBitOp(t) || HandlesUnary(t) || HandlesLd(t))
      modifies this, registers
      ensures Valid() && instruction == old(instruction)
      ensures r.Err? <==> !HandlesStep(t)
      ensures !HandlesStep(t) ==> registers.File() == old(registers.File())
      ensures HandlesStep(t) ==>
        var e := StepEffect(t, x, old(registers.File())); registers.File() == e.0 && r == Ok(e.1)
      ensures write == WriteRequest(old(registers.File()), t)
      ensures LatchState() == StepLatches(t, old(LatchState()))
    {
      write := None;
      r := Ok(None);
      if !HandlesMisc(t) {
        NoArm(t, registers.File());
        r := Err("[EXE] Unknown instruction");
      } else if IsLatch(t.op) {
        MiscArm(t, x, registers.File());
        LatchArm(t, x, registers.File());
        ExecLatch(t);
      } else {
        MiscArm(t, x, registers.File());
        write := ExecPlain(t, x);
      }
    }

    /**
     * `execute` for a step other than a decode: the read the step makes, the step on
     * the registers with the byte read, then the write it asks for.
     */
    method ExecuteStep(t: Triple, mmu: Mmu.MMU) returns (r: Result<Option<Instruction>>)
      requires Valid() && BusValid(mmu) && Apart(mmu)
      requires HandlesStep(t) ==> CanExecuteStep(registers.File(), t, mmu)
      modifies this, registers, mmu.Repr
      ensures Valid() && BusValid(mmu) && instruction == old(instruction)
      ensures r.Err? <==> !HandlesStep(t)
      ensures HandlesStep(t) ==>
        var e := StepEffect(t, old(ReadByte(mmu, ReadAddress(registers.File(), t))), old(registers.File()));
        registers.File() == e.0 && r == Ok(e.1)
      ensures !HandlesStep(t) ==> registers.File() == old(registers.File())
      ensures BusWrote(mmu, old(WriteRequest(registers.File(), t)))
      ensures LatchState() == StepLatches(t, old(LatchState()))
    {
      if !HandlesStep(t) {
        return Err("[EXE] Unknown instruction");
      }
      r := RunStep(t, mmu);
    }

    /** A step an arm matches: its bus read, its arm on the byte read, then its bus write. */
    method RunStep(t: Triple, mmu: Mmu.MMU) returns (r: Result<Option<Instruction>>)
      requires Valid() && BusValid(mmu) && Apart(mmu)
      requires HandlesStep(t) && CanExecuteStep(registers.File(), t, mmu)
      modifies this, registers, mmu.Repr
      ensures Valid() && BusValid(mmu) && instruction == old(instruction)
      ensures var e := StepEffect(t, old(ReadByte(mmu, ReadAddress(registers.File(), t))), old(registers.File()));
        registers.File() == e.0 && r == Ok(e.1)
      ensures BusWrote(mmu, old(WriteRequest(registers.File(), t)))
      ensures LatchState() == StepLatches(t, old(LatchState()))
    {
      var rf := registers.File();
      var x := Access(mmu, ReadAddress(rf, t), WriteRequest(rf, t));
      assert registers.File() == rf;
      label accessed:
      var requested;
      r, requested := ExecuteOnRegisters(t, x);
      BusUntouched@accessed(mmu);
    }

    /**
     * `execute`: a decode step asks the decoder, and runs an immediate entry's single
     * step at once; any other step goes to its arm. A step no arm matches, or an
     * opcode without an entry, is an error.
     */
    method Execute(t: Triple, mmu: Mmu.MMU) returns (r: Result<Option<Instruction>>)
      requires Valid() && BusValid(mmu) && Apart(mmu)
      requires Handles(t) ==> CanExecute(registers.File(), t, mmu)
      modifies this, registers, mmu.Repr
      ensures Valid() && BusValid(mmu) && instruction == old(instruction)
      ensures r.Err? <==> !Handles(t)
      ensures Handles(t) ==>
        var e := Executed(t, old(ReadByte(mmu, ReadAddress(registers.File(), Runs(t)))), old(registers.File()));
        registers.File() == e.0 && r == Ok(e.1)
      ensures !Handles(t) ==> registers.File() == old(registers.File())
      ensures BusWrote(mmu, old(WriteRequest(registers.File(), Runs(t))))
      ensures LatchState() == StepLatches(Runs(t), old(LatchState()))
    {
      if (t.op == Dcd || t.op == DcdCB) && t.p1.U8? && t.p2.Non? {
        r := ExecuteDecode(t, mmu);
      } else if t.op == Dcd || t.op == DcdCB {
        NotAStep(t);
        r := Err("[EXE] Unknown instruction");
      } else {
        r := ExecuteStep(t, mmu);
      }
    }

    /** `execute` on a decode step: an immediate entry's step runs at once, any other entry is handed back. */
    method ExecuteDecode(t: Triple, mmu: Mmu.MMU) returns (r: Result<Option<Instruction>>)
      requires Valid() && BusValid(mmu) && Apart(mmu)
      requires (t.op == Dcd || t.op == DcdCB) && t.p1.U8? && t.p2.Non?
      requires Handles(t) ==> CanExecute(registers.File(), t, mmu)
      modifies this, registers, mmu.Repr
      ensures Valid() && BusValid(mmu) && instruction == old(instruction)
      ensures r.Err? <==> !Handles(t)
      ensures Handles(t) ==>
        var e := Executed(t, old(ReadByte(mmu, ReadAddress(registers.File(), Runs(t)))), old(registers.File()));
        registers.File() == e.0 && r == Ok(e.1)
      ensures !Handles(t) ==> registers.File() == old(registers.File())
      ensures BusWrote(mmu, old(WriteRequest(registers.File(), Runs(t))))
      ensures LatchState() == StepLatches(Runs(t), old(LatchState()))
    {
      if Immediate(DecodeOf(t)) {
        r := ExecuteImmediate(t, mmu);
      } else {
        NotAStep(t);
        r := DecodeOf(t).1;
      }
    }

    /** `execute` on an immediate decode: the decoded step runs at once. */
    method ExecuteImmediate(t: Triple, mmu: Mmu.MMU) returns (r: Result<Option<Instruction>>)
      requires Valid() && BusValid(mmu) && Apart(mmu)
      requires (t.op == Dcd || t.op == DcdCB) && t.p1.U8? && t.p2.Non? && Immediate(DecodeOf(t))
      requires Handles(t) ==> CanExecute(registers.File(), t, mmu)
      modifies this, registers, mmu.Repr
      ensures Valid() && BusValid(mmu) && instruction == old(instruction)
      ensures r.Err? <==> !Handles(t)
      ensures Handles(t) ==>
        var e := Executed(t, old(ReadByte(mmu, ReadAddress(registers.File(), Runs(t)))), old(registers.File()));
        registers.File() == e.0 && r == Ok(e.1)
      ensures !Handles(t) ==> registers.File() == old(registers.File())
      ensures BusWrote(mmu, old(WriteRequest(registers.File(), Runs(t))))
      ensures LatchState() == StepLatches(Runs(t), old(LatchState()))
    {
      ImmediateRuns(t, old(ReadByte(mmu, ReadAddress(registers.File(), Runs(t)))), registers.File());
      r := ExecuteStep(Runs(t), mmu);
    }

    // -------------------------------------------------------------------------
    // Interrupts and the cycle

    /** A raised request that IE enables ends a halt. */
    method Wake(mmu: Mmu.MMU)
      modifies this
      ensures halted == (old(halted) && !Wakes(mmu.interruptFlags, mmu.interruptEnables))
      ensures imeRequested == old(imeRequested) && ime == old(ime) && instruction == old(instruction)
    {
      if mmu.interruptEnables & mmu.interruptFlags != 0 {
        halted := false;
      }
    }

    /** Servicing request `r`: its IF bit cleared, IME cleared, the dispatch chain installed. */
    method Service(mmu: Mmu.MMU, r: InterruptRequest)
      modifies this, mmu
      ensures mmu.Kept(0xFF0F)
      ensures mmu.interruptFlags == Interrupts(old(mmu.interruptFlags)).DisableRequest(r).bits
      ensures halted == old(halted) && imeRequested == old(imeRequested) && !ime
      ensures instruction == InterruptChain(registers.Get8(PCh), registers.Get8(PCl), r)
    {
      var iflag := Interrupts(mmu.interruptFlags).DisableRequest(r);
      mmu.SetInterruptFlags(iflag);
      ime := false;
      instruction := InterruptChain(registers.Get8(PCh), registers.Get8(PCl), r);
    }

    /**
     * `handle_interrupt`: at a decode step, wake on a raised and enabled request; with
     * IME set, service the first raised request in priority order that IE enables;
     * with IME clear, let a pending EI take effect. IE and IF are the bus's own
     * registers, which its `get` returns at 0xFFFF and 0xFF0F.
     */
    method HandleInterrupt(mmu: Mmu.MMU)
      requires BusValid(mmu) && Apart(mmu)
      modifies this, mmu
      ensures BusValid(mmu)
      ensures mmu.Kept(0xFF0F)
      ensures InterruptView(mmu)
        == InterruptStep(old(InterruptView(mmu)), old(mmu.interruptEnables), registers.Get8(PCh), registers.Get8(PCl))
    {
      if instruction.ins.op == Dcd {
        InterruptAtDecode(mmu);
      }
      BusFieldsOnly(mmu);
    }

    /** `handle_interrupt` at a decode step: wake, then service a request or let a pending EI take effect. */
    method InterruptAtDecode(mmu: Mmu.MMU)
      requires instruction.ins.op == Dcd
      modifies this, mmu
      ensures mmu.Kept(0xFF0F)
      ensures InterruptView(mmu)
        == InterruptStep(old(InterruptView(mmu)), old(mmu.interruptEnables), registers.Get8(PCh), registers.Get8(PCl))
    {
      ghost var before := InterruptView(mmu);
      ghost var enables, pch, pcl := mmu.interruptEnables, registers.Get8(PCh), registers.Get8(PCl);
      Wake(mmu);
      if ime {
        ServiceFirst(mmu, before, pch, pcl);
      } else {
        if imeRequested {
          imeRequested := false;
          ime := true;
        }
        UnservicedStep(before, enables, pch, pcl);
      }
    }

    /** With IME set: service the first raised request in priority order that IE enables, if any. */
    method ServiceFirst(mmu: Mmu.MMU, ghost before: InterruptState, ghost pch: bv8, ghost pcl: bv8)
      requires ime && before.instruction.ins.op == Dcd && before.ime
      requires before.flags == mmu.interruptFlags
      requires InterruptView(mmu) == before.(halted := before.halted && !Wakes(before.flags, mmu.interruptEnables))
      requires pch == registers.Get8(PCh) && pcl == registers.Get8(PCl)
      modifies this, mmu
      ensures mmu.Kept(0xFF0F)
      ensures InterruptView(mmu) == InterruptStep(before, old(mmu.interruptEnables), pch, pcl)
    {
      var iflag := Interrupts(mmu.interruptFlags);
      var request := FirstRequest(iflag.GetRequestByPriority(), Interrupts(mmu.interruptEnables));
      assert request == Serviced(before.ime, before.flags, mmu.interruptEnables);
      if request.Some? {
        Service(mmu, request.value);
        ServicedStep(before, old(mmu.interruptEnables), pch, pcl, request.value);
      } else {
        UnservicedStep(before, mmu.interruptEnables, pch, pcl);
      }
    }

    /** Whether `fetch` can run: a step that reads needs PC to advance and the bus to serve the byte at PC. */
    predicate Fetchable(mmu: Mmu.MMU)
      reads this, registers, mmu, mmu.CartRepr()
    {
      Reads(instruction.ins) ==> registers.Get16(PC) < 0xFFFF && mmu.CanGet(Address(registers.Get16(PC)))
    }

    /** The byte `fetch` reads: the one at PC, when PC can advance and the bus serves it. */
    ghost function NextByte(mmu: Mmu.MMU): bv8
      reads registers, mmu, mmu.timer, mmu.Repr
    {
      var pc := registers.Get16(PC);
      if BusValid(mmu) && pc < 0xFFFF && mmu.CanGet(Address(pc)) then mmu.Get(Address(pc)) else 0
    }

    /** `fetch` on the current step. */
    method FetchStep(mmu: Mmu.MMU) returns (done: bool, fetched: Triple)
      requires Valid() && BusValid(mmu) && Apart(mmu)
      requires Reads(instruction.ins) ==> registers.Get16(PC) < 0xFFFF && mmu.CanGet(Address(registers.Get16(PC)))
      modifies registers
      ensures Valid() && BusValid(mmu)
      ensures (done, fetched) == Resolve(old(instruction.ins), old(NextByte(mmu)))
      ensures registers.File() == AfterFetch(old(registers.File()), old(instruction.ins))
      ensures var rf := registers.File(); CanExecute(rf, fetched, mmu) == old(CanExecute(rf, fetched, mmu))
      ensures var rf := registers.File(); CanExecute(rf, fetched, mmu) ==>
        ReadByte(mmu, ReadAddress(rf, Runs(fetched))) == old(ReadByte(mmu, ReadAddress(rf, Runs(fetched))))
    {
      done, fetched := Fetch(instruction.ins, registers, mmu);
      BusUntouched(mmu);
    }

    /** `set_ins` on the chain: a step still missing bytes is stored back, its chain kept. */
    method Hold(t: Triple, ghost mmu: Mmu.MMU)
      requires Valid() && BusValid(mmu) && Apart(mmu)
      modifies this
      ensures Valid() && BusValid(mmu)
      ensures instruction == SetIns(old(instruction), t)
      ensures LatchState() == old(LatchState())
    {
      instruction := SetIns(instruction, t);
    }

    /** The chain moves on after a step: to the instruction handed back, else to its next step, else to a fresh decode. */
    method MoveOn(handedBack: Option<Instruction>, ghost mmu: Mmu.MMU)
      requires Valid() && BusValid(mmu) && Apart(mmu)
      modifies this
      ensures Valid() && BusValid(mmu)
      ensures instruction == Following(old(instruction), handedBack)
      ensures LatchState() == old(LatchState())
    {
      instruction := Following(instruction, handedBack);
    }

    /**
     * A fetched step run to completion: a step jimbot would panic on (a register
     * or bus access `execute` cannot make) is not run and sets `panicked`; otherwise
     * `execute` runs, and on success the chain moves on to the instruction it hands
     * back, else to the chain's next step, else to a fresh decode.
     */
    method Complete(t: Triple, mmu: Mmu.MMU) returns (panicked: bool, r: Result<Option<Instruction>>)
      requires Valid() && BusValid(mmu) && Apart(mmu)
      modifies this, registers, mmu.Repr
      ensures Valid() && BusValid(mmu)
      ensures panicked <==> Handles(t) && !old(CanExecute(registers.File(), t, mmu))
      ensures !panicked ==> (r.Err? <==> !Handles(t)) && LatchState() == StepLatches(Runs(t), old(LatchState()))
      ensures !panicked ==> Ran(t, old(registers.File()), registers, mmu, r)
      ensures panicked ==> registers.File() == old(registers.File()) && unchanged(mmu.Repr)
      ensures !panicked ==>
        mmu.interruptFlags == RegisterAfter(0xFF0F, old(mmu.interruptFlags), old(WriteRequest(registers.File(), Runs(t))))
        && mmu.interruptEnables == RegisterAfter(0xFFFF, old(mmu.interruptEnables), old(WriteRequest(registers.File(), Runs(t))))
      ensures !panicked && r.Ok? ==> instruction == Following(old(instruction), r.value)
      ensures panicked || r.Err? ==> instruction == old(instruction) && LatchState() == old(LatchState())
    {
      panicked, r := Handles(t) && !CanExecute(registers.File(), t, mmu), Ok(None);
      if panicked {
        return;
      }
      r := ExecuteAndMoveOn(t, mmu);
    }

    /** `execute`, then on success the chain moves on. */
    method ExecuteAndMoveOn(t: Triple, mmu: Mmu.MMU) returns (r: Result<Option<Instruction>>)
      requires Valid() && BusValid(mmu) && Apart(mmu)
      requires Handles(t) ==> CanExecute(registers.File(), t, mmu)
      modifies this, registers, mmu.Repr
      ensures Valid() && BusValid(mmu)
      ensures (r.Err? <==> !Handles(t)) && LatchState() == StepLatches(Runs(t), old(LatchState()))
      ensures Ran(t, old(registers.File()), registers, mmu, r)
      ensures mmu.interruptFlags == RegisterAfter(0xFF0F, old(mmu.interruptFlags), old(WriteRequest(registers.File(), Runs(t))))
      ensures mmu.interruptEnables == RegisterAfter(0xFFFF, old(mmu.interruptEnables), old(WriteRequest(registers.File(), Runs(t))))
      ensures r.Ok? ==> instruction == Following(old(instruction), r.value)
      ensures r.Err? ==> instruction == old(instruction)
    {
      r := ExecuteRan(t, mmu);
      if r.Ok? {
        MoveOn(r.value, mmu);
      }
    }

    /** `execute`, its register and bus effect stated as one relation. */
    method ExecuteRan(t: Triple, mmu: Mmu.MMU) returns (r: Result<Option<Instruction>>)
      requires Valid() && BusValid(mmu) && Apart(mmu)
      requires Handles(t) ==> CanExecute(registers.File(), t, mmu)
      modifies this, registers, mmu.Repr
      ensures Valid() && BusValid(mmu) && instruction == old(instruction)
      ensures (r.Err? <==> !Handles(t)) && LatchState() == StepLatches(Runs(t), old(LatchState()))
      ensures Ran(t, old(registers.File()), registers, mmu, r)
      ensures mmu.interruptFlags == RegisterAfter(0xFF0F, old(mmu.interruptFlags), old(WriteRequest(registers.File(), Runs(t))))
      ensures mmu.interruptEnables == RegisterAfter(0xFFFF, old(mmu.interruptEnables), old(WriteRequest(registers.File(), Runs(t))))
    {
      ghost var write := WriteRequest(registers.File(), Runs(t));
      r := Execute(t, mmu);
      WroteInterruptRegisters(mmu, write);
    }

    /**
     * The running part of `cycle` panics: the fetch cannot be made, or it completes a
     * step the executor handles but cannot run on the registers after the fetch.
     */
    ghost predicate Panics(mmu: Mmu.MMU)
      reads this, registers, mmu, mmu.timer, mmu.Repr, mmu.CartRepr()
    {
      !Fetchable(mmu)
      || (var (done, t) := Resolve(instruction.ins, NextByte(mmu));
          done && Handles(t) && !CanExecute(AfterFetch(registers.File(), instruction.ins), t, mmu))
    }

    /**
     * The running part of `cycle`: fetch; a step still missing bytes is stored back into
     * the chain and nothing executes; a complete step is run to completion. A fetch
     * jimbot would panic on (PC at 0xFFFF, or a byte the bus cannot serve) sets `panicked`.
     */
    method Step(mmu: Mmu.MMU) returns (done: bool, fetched: Triple, panicked: bool, r: Result<Option<Instruction>>)
      requires Valid() && BusValid(mmu) && Apart(mmu)
      modifies this, registers, mmu.Repr
      ensures Valid() && BusValid(mmu)
      ensures panicked <==> old(Panics(mmu))
      ensures old(Fetchable(mmu)) ==> (done, fetched) == Resolve(old(instruction.ins), old(NextByte(mmu)))
      ensures !panicked && !done ==> (r == Ok(None) && instruction == SetIns(old(instruction), fetched)
                         && LatchState() == old(LatchState())
                         && registers.File() == AfterFetch(old(registers.File()), old(instruction.ins)))
      ensures !panicked && done ==> ((r.Err? <==> !Handles(fetched))
                        && LatchState() == StepLatches(Runs(fetched), old(LatchState())))
      ensures !panicked && done && Handles(fetched) ==>
        var rf := AfterFetch(old(registers.File()), old(instruction.ins));
        var e := Executed(fetched, old(ReadByte(mmu, ReadAddress(rf, Runs(fetched)))), rf);
        registers.File() == e.0 && r == Ok(e.1)
      ensures !panicked && done ==>
        var w := WriteRequest(AfterFetch(old(registers.File()), old(instruction.ins)), Runs(fetched));
        mmu.interruptFlags == RegisterAfter(0xFF0F, old(mmu.interruptFlags), w)
        && mmu.interruptEnables == RegisterAfter(0xFFFF, old(mmu.interruptEnables), w)
      ensures !panicked && done && r.Ok? ==> instruction == Following(old(instruction), r.value)
      ensures panicked || r.Err? ==> instruction == old(instruction)
    {
      done, fetched, panicked, r := false, instruction.ins, true, Ok(None);
      if !Fetchable(mmu) {
        return;
      }
      done, fetched, panicked, r := FetchAndFinish(mmu);
    }

    /** A fetch that can be made, then the rest of the step. */
    method FetchAndFinish(mmu: Mmu.MMU) returns (done: bool, fetched: Triple, panicked: bool, r: Result<Option<Instruction>>)
      requires Valid() && BusValid(mmu) && Apart(mmu) && Fetchable(mmu)
      modifies this, registers, mmu.Repr
      ensures Valid() && BusValid(mmu)
      ensures (done, fetched) == Resolve(old(instruction.ins), old(NextByte(mmu)))
      ensures panicked <==> done && Handles(fetched)
                            && !old(CanExecute(AfterFetch(registers.File(), instruction.ins), fetched, mmu))
      ensures !panicked && !done ==> (r == Ok(None) && instruction == SetIns(old(instruction), fetched)
                         && LatchState() == old(LatchState())
                         && registers.File() == AfterFetch(old(registers.File()), old(instruction.ins)))
      ensures !panicked && done ==> ((r.Err? <==> !Handles(fetched))
                        && LatchState() == StepLatches(Runs(fetched), old(LatchState())))
      ensures !panicked && done && Handles(fetched) ==>
        var rf := AfterFetch(old(registers.File()), old(instruction.ins));
        var e := Executed(fetched, old(ReadByte(mmu, ReadAddress(rf, Runs(fetched)))), rf);
        registers.File() == e.0 && r == Ok(e.1)
      ensures !panicked && done ==>
        var w := WriteRequest(AfterFetch(old(registers.File()), old(instruction.ins)), Runs(fetched));
        mmu.interruptFlags == RegisterAfter(0xFF0F, old(mmu.interruptFlags), w)
        && mmu.interruptEnables == RegisterAfter(0xFFFF, old(mmu.interruptEnables), w)
      ensures !panicked && done && r.Ok? ==> instruction == Following(old(instruction), r.value)
      ensures panicked || r.Err? ==> instruction == old(instruction)
    {
      done, fetched := FetchStep(mmu);
      panicked, r := Finish(done, fetched, mmu);
    }

    /** After the fetch: a step still missing bytes is stored back, a complete one run to completion. */
    method Finish(done: bool, fetched: Triple, mmu: Mmu.MMU) returns (panicked: bool, r: Result<Option<Instruction>>)
      requires Valid() && BusValid(mmu) && Apart(mmu)
      modifies this, registers, mmu.Repr
      ensures Valid() && BusValid(mmu)
      ensures panicked <==> done && Handles(fetched) && !old(CanExecute(registers.File(), fetched, mmu))
      ensures done && !panicked ==> Ran(fetched, old(registers.File()), registers, mmu, r)
      ensures done && !panicked ==>
        mmu.interruptFlags == RegisterAfter(0xFF0F, old(mmu.interruptFlags), old(WriteRequest(registers.File(), Runs(fetched))))
        && mmu.interruptEnables == RegisterAfter(0xFFFF, old(mmu.interruptEnables), old(WriteRequest(registers.File(), Runs(fetched))))
      ensures !done || panicked ==> unchanged(mmu.Repr)
      ensures !done ==> (r == Ok(None) && instruction == SetIns(old(instruction), fetched)
                         && LatchState() == old(LatchState()) && registers.File() == old(registers.File()))
      ensures !panicked && done ==> ((r.Err? <==> !Handles(fetched))
                        && LatchState() == StepLatches(Runs(fetched), old(LatchState())))
      ensures !panicked && done && r.Ok? ==> instruction == Following(old(instruction), r.value)
      ensures panicked || (done && r.Err?) ==> instruction == old(instruction)
    {
      if !done {
        Hold(fetched, mmu);
        panicked, r := false, Ok(None);
      } else {
        panicked, r := Complete(fetched, mmu);
      }
    }

    /**
     * `cycle`: unless halted, the running part; a step still missing bytes, an execute
     * error and a panic end the cycle there; otherwise `handle_interrupt` follows.
     * `stepped` and `enables` are the interrupt view and IE between the two parts.
     */
    method Cycle(mmu: Mmu.MMU) returns (panicked: bool, r: Result<()>,
                                        done: bool, fetched: Triple, ghost handed: Option<Instruction>,
                                        ghost stepped: InterruptState, ghost enables: bv8)
      requires Valid() && BusValid(mmu) && Apart(mmu)
      modifies this, registers, mmu.Repr
      ensures Valid() && BusValid(mmu)
      ensures old(halted) ==>
        (!panicked && r.Ok? && registers.File() == old(registers.File())
         && stepped == old(InterruptView(mmu)) && enables == old(mmu.interruptEnables))
      ensures panicked <==> !old(halted) && old(Panics(mmu))
      ensures !old(halted) && old(Fetchable(mmu)) ==> (done, fetched) == Resolve(old(instruction.ins), old(NextByte(mmu)))
      ensures !old(halted) && !panicked && !done ==>
        (r.Ok? && instruction == SetIns(old(instruction), fetched) && LatchState() == old(LatchState())
         && registers.File() == AfterFetch(old(registers.File()), old(instruction.ins)))
      ensures !old(halted) && !panicked && done ==> (r.Err? <==> !Handles(fetched))
      ensures !old(halted) && !panicked && done && r.Ok? ==>
        Latches(stepped.halted, stepped.imeRequested, stepped.ime) == StepLatches(Runs(fetched), old(LatchState()))
      ensures !old(halted) && !panicked && done && Handles(fetched) ==>
        var rf := AfterFetch(old(registers.File()), old(instruction.ins));
        var e := Executed(fetched, old(ReadByte(mmu, ReadAddress(rf, Runs(fetched)))), rf);
        registers.File() == e.0 && handed == e.1
      ensures !old(halted) && !panicked && done && r.Ok? ==>
        var w := WriteRequest(AfterFetch(old(registers.File()), old(instruction.ins)), Runs(fetched));
        stepped.instruction == Following(old(instruction), handed)
        && stepped.flags == RegisterAfter(0xFF0F, old(mmu.interruptFlags), w)
        && enables == RegisterAfter(0xFFFF, old(mmu.interruptEnables), w)
      ensures r.Err? ==> instruction == old(instruction)
      ensures !panicked && r.Ok? && (old(halted) || done) ==>
        InterruptView(mmu) == InterruptStep(stepped, enables, registers.Get8(PCh), registers.Get8(PCl))
    {
      panicked, r, done, fetched, handed := false, Ok(()), true, instruction.ins, None;
      if !halted {
        var next;
        done, fetched, panicked, next := Step(mmu);
        stepped, enables := InterruptView(mmu), mmu.interruptEnables;
        if panicked || !done {
          return;
        }
        if next.Err? {
          r := Err(next.message);
          return;
        }
        handed := next.value;
      } else {
        stepped, enables := InterruptView(mmu), mmu.interruptEnables;
      }
      HandleInterrupt(mmu);
    }
  }
}
