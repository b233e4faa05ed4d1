/**
 * The CPU's micro-step instructions. A step is a triple (operation, first operand,
 * second operand); an instruction is a step with an optional chained next step, so a
 * multi-cycle opcode is a short chain of steps executed one per CPU cycle.
 */
module CpuInstruction {
  import opened Wrappers
  import opened CpuRegisters

  /** Every operation a step can carry, including the decoder's own `Dcd`/`DcdCB`. */
  datatype Op =
    | Adc | Add | And | Bit | Call | Ccf | Cp | Cpl | Daa | Dcd | DcdCB | Dec | Di
    | Ei | EiImm | Halt | Inc | Internal | Jp | Jr | Ld | Nop | Or | Read | Res
    | Ret | Rl | Rla | Rlc | Rlca | Rr | Rra | Rrc | Rrca | Rst | Sbc | Scf | Set
    | Sla | Sra | Srl | Sub | Swap | Write | Xor

  /** Branch conditions on the Z and C flags. */
  datatype Condition = NZ | Z | NC | C

  /**
   * Operands. The `Fetch*` forms still need bytes from the instruction stream and are
   * resolved by the fetcher; `FetchU16`/`FetchAddrU16` keep the low byte, once read,
   * in their second slot (the fetcher never fills the first).
   * `SPI8` and `I8` hold the fetched byte, which the executor reads as an `i8`.
   */
  datatype OpArg =
    | FetchU8
    | FetchInAddrU8
    | InAddrU8(u8: bv8)
    | Reg8(r8: R8)
    | Reg16(r16: R16)
    | AddrReg16(ar16: R16)
    | InAddrReg8(ir8: R8)
    | AddrU16(addr: bv16)
    | FetchAddrU16(aspare: Option<bv8>, alow: Option<bv8>)
    | FetchI8
    | FetchSPI8
    | SPI8(spi8: bv8)
    | AddrReg16d(dr16: R16)
    | AddrReg16i(ir16: R16)
    | AddrRegd16(pr16: R16)
    | CC(cond: Condition)
    | U8(value8: bv8)
    | I8(i8: bv8)
    | FetchU16(spare: Option<bv8>, low: Option<bv8>)
    | U16(value16: bv16)
    | Non

  /** Whether an operand still waits for bytes from the instruction stream. */
  predicate IsFetch(arg: OpArg)
  {
    arg.FetchU8? || arg.FetchInAddrU8? || arg.FetchAddrU16? || arg.FetchI8?
    || arg.FetchSPI8? || arg.FetchU16?
  }

  datatype Triple = Triple(op: Op, p1: OpArg, p2: OpArg)

  datatype Instruction = Instruction(ins: Triple, next: Option<Instruction>)

  /** `Instruction::default()`: a single `Nop` step. */
  function DefaultInstruction(): (i: Instruction)
    ensures i.ins.op == Nop && i.ins.p1 == Non && i.ins.p2 == Non && i.next == None
  {
    Instruction(Triple(Nop, Non, Non), None)
  }

  /** The number of steps in a chain. */
  function Length(i: Instruction): (n: nat)
    ensures n >= 1
  {
    match i.next
    case None => 1
    case Some(nx) => 1 + Length(nx)
  }

  /** `set_ins`: replaces the step and keeps the chain behind it. */
  function SetIns(i: Instruction, t: Triple): (r: Instruction)
    ensures r.ins == t && r.next == i.next && Length(r) == Length(i)
  {
    i.(ins := t)
  }

  /**
   * `next_mut().take()`: detaches the chain behind the step, returning it and the step
   * left without a chain.
   */
  function TakeNext(i: Instruction): (r: (Option<Instruction>, Instruction))
    ensures r.0 == i.next && r.1.ins == i.ins && r.1.next == None
    ensures r.0.Some? ==> Length(r.0.value) + 1 == Length(i)
  {
    (i.next, i.(next := None))
  }
}
