/**
 * The opcode tables. `Decode` maps a first opcode byte and `DecodeCB` a byte following
 * the 0xCB prefix to a pair (immediate, result): the result is the first step of the
 * instruction with its chain, or an error for a byte without an entry; `immediate`
 * tells the executor to run the decoded step in the same cycle as the decode.
 * Each table is laid out in sixteen rows by the high nibble of the byte.
 */
module CpuDecoder {
  import opened Wrappers
  import opened CpuRegisters
  import opened CpuInstruction

  type Decoded = (bool, Result<Option<Instruction>>)

  /** The base opcode table. */
  function Decode(byte: bv8): Decoded
  {
    match byte >> 4
    case 0x0 => DecodeRow0(byte & 0xF)
    case 0x1 => DecodeRow1(byte & 0xF)
    case 0x2 => DecodeRow2(byte & 0xF)
    case 0x3 => DecodeRow3(byte & 0xF)
    case 0x4 => DecodeRow4(byte & 0xF)
    case 0x5 => DecodeRow5(byte & 0xF)
    case 0x6 => DecodeRow6(byte & 0xF)
    case 0x7 => DecodeRow7(byte & 0xF)
    case 0x8 => DecodeRow8(byte & 0xF)
    case 0x9 => DecodeRow9(byte & 0xF)
    case 0xA => DecodeRowA(byte & 0xF)
    case 0xB => DecodeRowB(byte & 0xF)
    case 0xC => DecodeRowC(byte & 0xF)
    case 0xD => DecodeRowD(byte & 0xF)
    case 0xE => DecodeRowE(byte & 0xF)
    case _ => DecodeRowF(byte & 0xF)
  }

  /** Opcodes 0x00-0x0F. */
  function DecodeRow0(lo: bv8): Decoded
  {
    match lo
    case 0x0 => DcdNop()
    case 0x1 => DcdLdR16U16(R8.B, R8.C)
    case 0x2 => DcdLdAddrr16R8(R16.BC, R8.A)
    case 0x3 => DcdIncR16(R16.BC)
    case 0x4 => DcdIncR8(R8.B)
    case 0x5 => DcdDecR8(R8.B)
    case 0x6 => DcdLdR8U8(R8.B)
    case 0x7 => DcdRlca()
    case 0x8 => DcdLdAddru16R16(R16.SP)
    case 0x9 => DcdAddR16R16(R16.HL, R16.BC)
    case 0xA => DcdLdR8Addrr16(R8.A, R16.BC)
    case 0xB => DcdDecR16(R16.BC)
    case 0xC => DcdIncR8(R8.C)
    case 0xD => DcdDecR8(R8.C)
    case 0xE => DcdLdR8U8(R8.C)
    case _ => DcdRrca()
  }

  /** Opcodes 0x10-0x1F. */
  function DecodeRow1(lo: bv8): Decoded
  {
    match lo
    case 0x1 => DcdLdR16U16(R8.D, R8.E)
    case 0x2 => DcdLdAddrr16R8(R16.DE, R8.A)
    case 0x3 => DcdIncR16(R16.DE)
    case 0x4 => DcdIncR8(R8.D)
    case 0x5 => DcdDecR8(R8.D)
    case 0x6 => DcdLdR8U8(R8.D)
    case 0x7 => DcdRla()
    case 0x8 => DcdJrI8()
    case 0x9 => DcdAddR16R16(R16.HL, R16.DE)
    case 0xA => DcdLdR8Addrr16(R8.A, R16.DE)
    case 0xB => DcdDecR16(R16.DE)
    case 0xC => DcdIncR8(R8.E)
    case 0xD => DcdDecR8(R8.E)
    case 0xE => DcdLdR8U8(R8.E)
    case 0xF => DcdRra()
    case _ => (false, Err("[DCD] Unknown opcode"))
  }

  /** Opcodes 0x20-0x2F. */
  function DecodeRow2(lo: bv8): Decoded
  {
    match lo
    case 0x0 => DcdJrCI8(Condition.NZ)
    case 0x1 => DcdLdR16U16(R8.H, R8.L)
    case 0x2 => DcdLdAddrr16iR8(R16.HL, R8.A)
    case 0x3 => DcdIncR16(R16.HL)
    case 0x4 => DcdIncR8(R8.H)
    case 0x5 => DcdDecR8(R8.H)
    case 0x6 => DcdLdR8U8(R8.H)
    case 0x7 => DcdDaa()
    case 0x8 => DcdJrCI8(Condition.Z)
    case 0x9 => DcdAddR16R16(R16.HL, R16.HL)
    case 0xA => DcdLdR8Addrr16i(R8.A, R16.HL)
    case 0xB => DcdDecR16(R16.HL)
    case 0xC => DcdIncR8(R8.L)
    case 0xD => DcdDecR8(R8.L)
    case 0xE => DcdLdR8U8(R8.L)
    case _ => DcdCpl()
  }

  /** Opcodes 0x30-0x3F. */
  function DecodeRow3(lo: bv8): Decoded
  {
    match lo
    case 0x0 => DcdJrCI8(Condition.NC)
    case 0x1 => DcdLdR16U16(R8.S, R8.P)
    case 0x2 => DcdLdR16dR8(R16.HL, R8.A)
    case 0x3 => DcdIncR16(R16.SP)
    case 0x4 => DcdIncAddrr16(R16.HL)
    case 0x5 => DcdDecAddrr16(R16.HL)
    case 0x6 => DcdLdAddrr16U8(R16.HL)
    case 0x7 => DcdScf()
    case 0x8 => DcdJrCI8(Condition.C)
    case 0x9 => DcdAddR16R16(R16.HL, R16.SP)
    case 0xA => DcdLdR8Addrr16d(R8.A, R16.HL)
    case 0xB => DcdDecR16(R16.SP)
    case 0xC => DcdIncR8(R8.A)
    case 0xD => DcdDecR8(R8.A)
    case 0xE => DcdLdR8U8(R8.A)
    case _ => DcdCcf()
  }

  /** Opcodes 0x40-0x4F. */
  function DecodeRow4(lo: bv8): Decoded
  {
    match lo
    case 0x0 => DcdLdR8R8(R8.B, R8.B)
    case 0x1 => DcdLdR8R8(R8.B, R8.C)
    case 0x2 => DcdLdR8R8(R8.B, R8.D)
    case 0x3 => DcdLdR8R8(R8.B, R8.E)
    case 0x4 => DcdLdR8R8(R8.B, R8.H)
    case 0x5 => DcdLdR8R8(R8.B, R8.L)
    case 0x6 => DcdLdR8Addrr16(R8.B, R16.HL)
    case 0x7 => DcdLdR8R8(R8.B, R8.A)
    case 0x8 => DcdLdR8R8(R8.C, R8.B)
    case 0x9 => DcdLdR8R8(R8.C, R8.C)
    case 0xA => DcdLdR8R8(R8.C, R8.D)
    case 0xB => DcdLdR8R8(R8.C, R8.E)
    case 0xC => DcdLdR8R8(R8.C, R8.H)
    case 0xD => DcdLdR8R8(R8.C, R8.L)
    case 0xE => DcdLdR8Addrr16(R8.C, R16.HL)
    case _ => DcdLdR8R8(R8.C, R8.A)
  }

  /** Opcodes 0x50-0x5F. */
  function DecodeRow5(lo: bv8): Decoded
  {
    match lo
    case 0x0 => DcdLdR8R8(R8.D, R8.B)
    case 0x1 => DcdLdR8R8(R8.D, R8.C)
    case 0x2 => DcdLdR8R8(R8.D, R8.D)
    case 0x3 => DcdLdR8R8(R8.D, R8.E)
    case 0x4 => DcdLdR8R8(R8.D, R8.H)
    case 0x5 => DcdLdR8R8(R8.D, R8.L)
    case 0x6 => DcdLdR8Addrr16(R8.D, R16.HL)
    case 0x7 => DcdLdR8R8(R8.D, R8.A)
    case 0x8 => DcdLdR8R8(R8.E, R8.B)
    case 0x9 => DcdLdR8R8(R8.E, R8.C)
    case 0xA => DcdLdR8R8(R8.E, R8.D)
    case 0xB => DcdLdR8R8(R8.E, R8.E)
    case 0xC => DcdLdR8R8(R8.E, R8.H)
    case 0xD => DcdLdR8R8(R8.E, R8.L)
    case 0xE => DcdLdR8Addrr16(R8.E, R16.HL)
    case _ => DcdLdR8R8(R8.E, R8.A)
  }

  /** Opcodes 0x60-0x6F. */
  function DecodeRow6(lo: bv8): Decoded
  {
    match lo
    case 0x0 => DcdLdR8R8(R8.H, R8.B)
    case 0x1 => DcdLdR8R8(R8.H, R8.C)
    case 0x2 => DcdLdR8R8(R8.H, R8.D)
    case 0x3 => DcdLdR8R8(R8.H, R8.E)
    case 0x4 => DcdLdR8R8(R8.H, R8.H)
    case 0x5 => DcdLdR8R8(R8.H, R8.L)
    case 0x6 => DcdLdR8Addrr16(R8.H, R16.HL)
    case 0x7 => DcdLdR8R8(R8.H, R8.A)
    case 0x8 => DcdLdR8R8(R8.L, R8.B)
    case 0x9 => DcdLdR8R8(R8.L, R8.C)
    case 0xA => DcdLdR8R8(R8.L, R8.D)
    case 0xB => DcdLdR8R8(R8.L, R8.E)
    case 0xC => DcdLdR8R8(R8.L, R8.H)
    case 0xD => DcdLdR8R8(R8.L, R8.L)
    case 0xE => DcdLdR8Addrr16(R8.L, R16.HL)
    case _ => DcdLdR8R8(R8.L, R8.A)
  }

  /** Opcodes 0x70-0x7F. */
  function DecodeRow7(lo: bv8): Decoded
  {
    match lo
    case 0x0 => DcdLdAddrr16R8(R16.HL, R8.B)
    case 0x1 => DcdLdAddrr16R8(R16.HL, R8.C)
    case 0x2 => DcdLdAddrr16R8(R16.HL, R8.D)
    case 0x3 => DcdLdAddrr16R8(R16.HL, R8.E)
    case 0x4 => DcdLdAddrr16R8(R16.HL, R8.H)
    case 0x5 => DcdLdAddrr16R8(R16.HL, R8.L)
    case 0x6 => DcdHalt()
    case 0x7 => DcdLdAddrr16R8(R16.HL, R8.A)
    case 0x8 => DcdLdR8R8(R8.A, R8.B)
    case 0x9 => DcdLdR8R8(R8.A, R8.C)
    case 0xA => DcdLdR8R8(R8.A, R8.D)
    case 0xB => DcdLdR8R8(R8.A, R8.E)
    case 0xC => DcdLdR8R8(R8.A, R8.H)
    case 0xD => DcdLdR8R8(R8.A, R8.L)
    case 0xE => DcdLdR8Addrr16(R8.A, R16.HL)
    case _ => DcdLdR8R8(R8.A, R8.A)
  }

  /** Opcodes 0x80-0x8F. */
  function DecodeRow8(lo: bv8): Decoded
  {
    match lo
    case 0x0 => DcdAddR8R8(R8.A, R8.B)
    case 0x1 => DcdAddR8R8(R8.A, R8.C)
    case 0x2 => DcdAddR8R8(R8.A, R8.D)
    case 0x3 => DcdAddR8R8(R8.A, R8.E)
    case 0x4 => DcdAddR8R8(R8.A, R8.H)
    case 0x5 => DcdAddR8R8(R8.A, R8.L)
    case 0x6 => DcdAddR8Addrr16(R8.A, R16.HL)
    case 0x7 => DcdAddR8R8(R8.A, R8.A)
    case 0x8 => DcdAdcR8R8(R8.A, R8.B)
    case 0x9 => DcdAdcR8R8(R8.A, R8.C)
    case 0xA => DcdAdcR8R8(R8.A, R8.D)
    case 0xB => DcdAdcR8R8(R8.A, R8.E)
    case 0xC => DcdAdcR8R8(R8.A, R8.H)
    case 0xD => DcdAdcR8R8(R8.A, R8.L)
    case 0xE => DcdAdcR8Addrr16(R8.A, R16.HL)
    case _ => DcdAdcR8R8(R8.A, R8.A)
  }

  /** Opcodes 0x90-0x9F. */
  function DecodeRow9(lo: bv8): Decoded
  {
    match lo
    case 0x0 => DcdSubR8R8(R8.A, R8.B)
    case 0x1 => DcdSubR8R8(R8.A, R8.C)
    case 0x2 => DcdSubR8R8(R8.A, R8.D)
    case 0x3 => DcdSubR8R8(R8.A, R8.E)
    case 0x4 => DcdSubR8R8(R8.A, R8.H)
    case 0x5 => DcdSubR8R8(R8.A, R8.L)
    case 0x6 => DcdSubR8Addrr16(R8.A, R16.HL)
    case 0x7 => DcdSubR8R8(R8.A, R8.A)
    case 0x8 => DcdSbcR8R8(R8.A, R8.B)
    case 0x9 => DcdSbcR8R8(R8.A, R8.C)
    case 0xA => DcdSbcR8R8(R8.A, R8.D)
    case 0xB => DcdSbcR8R8(R8.A, R8.E)
    case 0xC => DcdSbcR8R8(R8.A, R8.H)
    case 0xD => DcdSbcR8R8(R8.A, R8.L)
    case 0xE => DcdSbcR8Addrr16(R8.A, R16.HL)
    case _ => DcdSbcR8R8(R8.A, R8.A)
  }

  /** Opcodes 0xA0-0xAF. */
  function DecodeRowA(lo: bv8): Decoded
  {
    match lo
    case 0x0 => DcdAndR8R8(R8.A, R8.B)
    case 0x1 => DcdAndR8R8(R8.A, R8.C)
    case 0x2 => DcdAndR8R8(R8.A, R8.D)
    case 0x3 => DcdAndR8R8(R8.A, R8.E)
    case 0x4 => DcdAndR8R8(R8.A, R8.H)
    case 0x5 => DcdAndR8R8(R8.A, R8.L)
    case 0x6 => DcdAndR8Addrr16(R8.A, R16.HL)
    case 0x7 => DcdAndR8R8(R8.A, R8.A)
    case 0x8 => DcdXorR8R8(R8.A, R8.B)
    case 0x9 => DcdXorR8R8(R8.A, R8.C)
    case 0xA => DcdXorR8R8(R8.A, R8.D)
    case 0xB => DcdXorR8R8(R8.A, R8.E)
    case 0xC => DcdXorR8R8(R8.A, R8.H)
    case 0xD => DcdXorR8R8(R8.A, R8.L)
    case 0xE => DcdXorR8Addrr16(R8.A, R16.HL)
    case _ => DcdXorR8R8(R8.A, R8.A)
  }

  /** Opcodes 0xB0-0xBF. */
  function DecodeRowB(lo: bv8): Decoded
  {
    match lo
    case 0x0 => DcdOrR8R8(R8.A, R8.B)
    case 0x1 => DcdOrR8R8(R8.A, R8.C)
    case 0x2 => DcdOrR8R8(R8.A, R8.D)
    case 0x3 => DcdOrR8R8(R8.A, R8.E)
    case 0x4 => DcdOrR8R8(R8.A, R8.H)
    case 0x5 => DcdOrR8R8(R8.A, R8.L)
    case 0x6 => DcdOrR8Addrr16(R8.A, R16.HL)
    case 0x7 => DcdOrR8R8(R8.A, R8.A)
    case 0x8 => DcdCpR8R8(R8.A, R8.B)
    case 0x9 => DcdCpR8R8(R8.A, R8.C)
    case 0xA => DcdCpR8R8(R8.A, R8.D)
    case 0xB => DcdCpR8R8(R8.A, R8.E)
    case 0xC => DcdCpR8R8(R8.A, R8.H)
    case 0xD => DcdCpR8R8(R8.A, R8.L)
    case 0xE => DcdCpR8Addrr16(R8.A, R16.HL)
    case _ => DcdCpR8R8(R8.A, R8.A)
  }

  /** Opcodes 0xC0-0xCF. */
  function DecodeRowC(lo: bv8): Decoded
  {
    match lo
    case 0x0 => DcdRetC(Condition.NZ)
    case 0x1 => DcdPopR16(R8.B, R8.C)
    case 0x2 => DcdJpCU16(Condition.NZ)
    case 0x3 => DcdJpU16()
    case 0x4 => DcdCallCU16(Condition.NZ)
    case 0x5 => DcdPushR16(R8.B, R8.C)
    case 0x6 => DcdAddR8U8(R8.A)
    case 0x7 => DcdRst(0x00)
    case 0x8 => DcdRetC(Condition.Z)
    case 0x9 => DcdRet()
    case 0xA => DcdJpCU16(Condition.Z)
    case 0xB => DcdDecodeCb()
    case 0xC => DcdCallCU16(Condition.Z)
    case 0xD => DcdCallU16()
    case 0xE => DcdAdcR8U8(R8.A)
    case _ => DcdRst(0x08)
  }

  /** Opcodes 0xD0-0xDF. */
  function DecodeRowD(lo: bv8): Decoded
  {
    match lo
    case 0x0 => DcdRetC(Condition.NC)
    case 0x1 => DcdPopR16(R8.D, R8.E)
    case 0x2 => DcdJpCU16(Condition.NC)
    case 0x4 => DcdCallCU16(Condition.NC)
    case 0x5 => DcdPushR16(R8.D, R8.E)
    case 0x6 => DcdSubR8U8(R8.A)
    case 0x7 => DcdRst(0x10)
    case 0x8 => DcdRetC(Condition.C)
    case 0x9 => DcdReti()
    case 0xA => DcdJpCU16(Condition.C)
    case 0xC => DcdCallCU16(Condition.C)
    case 0xE => DcdSbcR8U8(R8.A)
    case 0xF => DcdRst(0x18)
    case _ => (false, Err("[DCD] Unknown opcode"))
  }

  /** Opcodes 0xE0-0xEF. */
  function DecodeRowE(lo: bv8): Decoded
  {
    match lo
    case 0x0 => DcdLdInaddru8R8(R8.A)
    case 0x1 => DcdPopR16(R8.H, R8.L)
    case 0x2 => DcdLdInaddrr8R8(R8.C, R8.A)
    case 0x5 => DcdPushR16(R8.H, R8.L)
    case 0x6 => DcdAndR8U8(R8.A)
    case 0x7 => DcdRst(0x20)
    case 0x8 => DcdAddR16I8(R16.SP)
    case 0x9 => DcdJpR16(R16.HL)
    case 0xA => DcdLdAddru16R8(R8.A)
    case 0xE => DcdXorR8U8(R8.A)
    case 0xF => DcdRst(0x28)
    case _ => (false, Err("[DCD] Unknown opcode"))
  }

  /** Opcodes 0xF0-0xFF. */
  function DecodeRowF(lo: bv8): Decoded
  {
    match lo
    case 0x0 => DcdLdR8Inaddru8(R8.A)
    case 0x1 => DcdPopR16(R8.A, R8.F)
    case 0x2 => DcdLdR8Inaddrr8(R8.A, R8.C)
    case 0x3 => DcdDi()
    case 0x5 => DcdPushR16(R8.A, R8.F)
    case 0x6 => DcdOrR8U8(R8.A)
    case 0x7 => DcdRst(0x30)
    case 0x8 => DcdLdR16Spi8(R16.HL)
    case 0x9 => DcdLdR16R16(R16.SP, R16.HL)
    case 0xA => DcdLdR8Addru16(R8.A)
    case 0xB => DcdEi()
    case 0xE => DcdCpR8U8(R8.A)
    case 0xF => DcdRst(0x38)
    case _ => (false, Err("[DCD] Unknown opcode"))
  }

  /** The table of opcodes following the 0xCB prefix. */
  function DecodeCB(byte: bv8): Decoded
  {
    match byte >> 4
    case 0x0 => DecodeCBRow0(byte & 0xF)
    case 0x1 => DecodeCBRow1(byte & 0xF)
    case 0x2 => DecodeCBRow2(byte & 0xF)
    case 0x3 => DecodeCBRow3(byte & 0xF)
    case 0x4 => DecodeCBRow4(byte & 0xF)
    case 0x5 => DecodeCBRow5(byte & 0xF)
    case 0x6 => DecodeCBRow6(byte & 0xF)
    case 0x7 => DecodeCBRow7(byte & 0xF)
    case 0x8 => DecodeCBRow8(byte & 0xF)
    case 0x9 => DecodeCBRow9(byte & 0xF)
    case 0xA => DecodeCBRowA(byte & 0xF)
    case 0xB => DecodeCBRowB(byte & 0xF)
    case 0xC => DecodeCBRowC(byte & 0xF)
    case 0xD => DecodeCBRowD(byte & 0xF)
    case 0xE => DecodeCBRowE(byte & 0xF)
    case _ => DecodeCBRowF(byte & 0xF)
  }

  /** Opcodes 0x00-0x0F. */
  function DecodeCBRow0(lo: bv8): Decoded
  {
    match lo
    case 0x0 => DcdRlcR8(R8.B)
    case 0x1 => DcdRlcR8(R8.C)
    case 0x2 => DcdRlcR8(R8.D)
    case 0x3 => DcdRlcR8(R8.E)
    case 0x4 => DcdRlcR8(R8.H)
    case 0x5 => DcdRlcR8(R8.L)
    case 0x6 => DcdRlcAddrr16(R16.HL)
    case 0x7 => DcdRlcR8(R8.A)
    case 0x8 => DcdRrcR8(R8.B)
    case 0x9 => DcdRrcR8(R8.C)
    case 0xA => DcdRrcR8(R8.D)
    case 0xB => DcdRrcR8(R8.E)
    case 0xC => DcdRrcR8(R8.H)
    case 0xD => DcdRrcR8(R8.L)
    case 0xE => DcdRrcAddrr16(R16.HL)
    case _ => DcdRrcR8(R8.A)
  }

  /** Opcodes 0x10-0x1F. */
  function DecodeCBRow1(lo: bv8): Decoded
  {
    match lo
    case 0x0 => DcdRlR8(R8.B)
    case 0x1 => DcdRlR8(R8.C)
    case 0x2 => DcdRlR8(R8.D)
    case 0x3 => DcdRlR8(R8.E)
    case 0x4 => DcdRlR8(R8.H)
    case 0x5 => DcdRlR8(R8.L)
    case 0x6 => DcdRlAddrr16(R16.HL)
    case 0x7 => DcdRlR8(R8.A)
    case 0x8 => DcdRrR8(R8.B)
    case 0x9 => DcdRrR8(R8.C)
    case 0xA => DcdRrR8(R8.D)
    case 0xB => DcdRrR8(R8.E)
    case 0xC => DcdRrR8(R8.H)
    case 0xD => DcdRrR8(R8.L)
    case 0xE => DcdRrAddrr16(R16.HL)
    case _ => DcdRrR8(R8.A)
  }

  /** Opcodes 0x20-0x2F. */
  function DecodeCBRow2(lo: bv8): Decoded
  {
    match lo
    case 0x0 => DcdSlaR8(R8.B)
    case 0x1 => DcdSlaR8(R8.C)
    case 0x2 => DcdSlaR8(R8.D)
    case 0x3 => DcdSlaR8(R8.E)
    case 0x4 => DcdSlaR8(R8.H)
    case 0x5 => DcdSlaR8(R8.L)
    case 0x6 => DcdSlaAddrr16(R16.HL)
    case 0x7 => DcdSlaR8(R8.A)
    case 0x8 => DcdSraR8(R8.B)
    case 0x9 => DcdSraR8(R8.C)
    case 0xA => DcdSraR8(R8.D)
    case 0xB => DcdSraR8(R8.E)
    case 0xC => DcdSraR8(R8.H)
    case 0xD => DcdSraR8(R8.L)
    case 0xE => DcdSraAddrr16(R16.HL)
    case _ => DcdSraR8(R8.A)
  }

  /** Opcodes 0x30-0x3F. */
  function DecodeCBRow3(lo: bv8): Decoded
  {
    match lo
    case 0x0 => DcdSwapR8(R8.B)
    case 0x1 => DcdSwapR8(R8.C)
    case 0x2 => DcdSwapR8(R8.D)
    case 0x3 => DcdSwapR8(R8.E)
    case 0x4 => DcdSwapR8(R8.H)
    case 0x5 => DcdSwapR8(R8.L)
    case 0x6 => DcdSwapAddrr16(R16.HL)
    case 0x7 => DcdSwapR8(R8.A)
    case 0x8 => DcdSrlR8(R8.B)
    case 0x9 => DcdSrlR8(R8.C)
    case 0xA => DcdSrlR8(R8.D)
    case 0xB => DcdSrlR8(R8.E)
    case 0xC => DcdSrlR8(R8.H)
    case 0xD => DcdSrlR8(R8.L)
    case 0xE => DcdSrlAddrr16(R16.HL)
    case _ => DcdSrlR8(R8.A)
  }

  /** Opcodes 0x40-0x4F. */
  function DecodeCBRow4(lo: bv8): Decoded
  {
    match lo
    case 0x0 => DcdBitU8R8(0, R8.B)
    case 0x1 => DcdBitU8R8(0, R8.C)
    case 0x2 => DcdBitU8R8(0, R8.D)
    case 0x3 => DcdBitU8R8(0, R8.E)
    case 0x4 => DcdBitU8R8(0, R8.H)
    case 0x5 => DcdBitU8R8(0, R8.L)
    case 0x6 => DcdBitU8Addrr16(0, R16.HL)
    case 0x7 => DcdBitU8R8(0, R8.A)
    case 0x8 => DcdBitU8R8(1, R8.B)
    case 0x9 => DcdBitU8R8(1, R8.C)
    case 0xA => DcdBitU8R8(1, R8.D)
    case 0xB => DcdBitU8R8(1, R8.E)
    case 0xC => DcdBitU8R8(1, R8.H)
    case 0xD => DcdBitU8R8(1, R8.L)
    case 0xE => DcdBitU8Addrr16(1, R16.HL)
    case _ => DcdBitU8R8(1, R8.A)
  }

  /** Opcodes 0x50-0x5F. */
  function DecodeCBRow5(lo: bv8): Decoded
  {
    match lo
    case 0x0 => DcdBitU8R8(2, R8.B)
    case 0x1 => DcdBitU8R8(2, R8.C)
    case 0x2 => DcdBitU8R8(2, R8.D)
    case 0x3 => DcdBitU8R8(2, R8.E)
    case 0x4 => DcdBitU8R8(2, R8.H)
    case 0x5 => DcdBitU8R8(2, R8.L)
    case 0x6 => DcdBitU8Addrr16(2, R16.HL)
    case 0x7 => DcdBitU8R8(2, R8.A)
    case 0x8 => DcdBitU8R8(3, R8.B)
    case 0x9 => DcdBitU8R8(3, R8.C)
    case 0xA => DcdBitU8R8(3, R8.D)
    case 0xB => DcdBitU8R8(3, R8.E)
    case 0xC => DcdBitU8R8(3, R8.H)
    case 0xD => DcdBitU8R8(3, R8.L)
    case 0xE => DcdBitU8Addrr16(3, R16.HL)
    case _ => DcdBitU8R8(3, R8.A)
  }

  /** Opcodes 0x60-0x6F. */
  function DecodeCBRow6(lo: bv8): Decoded
  {
    match lo
    case 0x0 => DcdBitU8R8(4, R8.B)
    case 0x1 => DcdBitU8R8(4, R8.C)
    case 0x2 => DcdBitU8R8(4, R8.D)
    case 0x3 => DcdBitU8R8(4, R8.E)
    case 0x4 => DcdBitU8R8(4, R8.H)
    case 0x5 => DcdBitU8R8(4, R8.L)
    case 0x6 => DcdBitU8Addrr16(4, R16.HL)
    case 0x7 => DcdBitU8R8(4, R8.A)
    case 0x8 => DcdBitU8R8(5, R8.B)
    case 0x9 => DcdBitU8R8(5, R8.C)
    case 0xA => DcdBitU8R8(5, R8.D)
    case 0xB => DcdBitU8R8(5, R8.E)
    case 0xC => DcdBitU8R8(5, R8.H)
    case 0xD => DcdBitU8R8(5, R8.L)
    case 0xE => DcdBitU8Addrr16(5, R16.HL)
    case _ => DcdBitU8R8(5, R8.A)
  }

  /** Opcodes 0x70-0x7F. */
  function DecodeCBRow7(lo: bv8): Decoded
  {
    match lo
    case 0x0 => DcdBitU8R8(6, R8.B)
    case 0x1 => DcdBitU8R8(6, R8.C)
    case 0x2 => DcdBitU8R8(6, R8.D)
    case 0x3 => DcdBitU8R8(6, R8.E)
    case 0x4 => DcdBitU8R8(6, R8.H)
    case 0x5 => DcdBitU8R8(6, R8.L)
    case 0x6 => DcdBitU8Addrr16(6, R16.HL)
    case 0x7 => DcdBitU8R8(6, R8.A)
    case 0x8 => DcdBitU8R8(7, R8.B)
    case 0x9 => DcdBitU8R8(7, R8.C)
    case 0xA => DcdBitU8R8(7, R8.D)
    case 0xB => DcdBitU8R8(7, R8.E)
    case 0xC => DcdBitU8R8(7, R8.H)
    case 0xD => DcdBitU8R8(7, R8.L)
    case 0xE => DcdBitU8Addrr16(7, R16.HL)
    case _ => DcdBitU8R8(7, R8.A)
  }

  /** Opcodes 0x80-0x8F. */
  function DecodeCBRow8(lo: bv8): Decoded
  {
    match lo
    case 0x0 => DcdResU8R8(0, R8.B)
    case 0x1 => DcdResU8R8(0, R8.C)
    case 0x2 => DcdResU8R8(0, R8.D)
    case 0x3 => DcdResU8R8(0, R8.E)
    case 0x4 => DcdResU8R8(0, R8.H)
    case 0x5 => DcdResU8R8(0, R8.L)
    case 0x6 => DcdResU8Addrr16(0, R16.HL)
    case 0x7 => DcdResU8R8(0, R8.A)
    case 0x8 => DcdResU8R8(1, R8.B)
    case 0x9 => DcdResU8R8(1, R8.C)
    case 0xA => DcdResU8R8(1, R8.D)
    case 0xB => DcdResU8R8(1, R8.E)
    case 0xC => DcdResU8R8(1, R8.H)
    case 0xD => DcdResU8R8(1, R8.L)
    case 0xE => DcdResU8Addrr16(1, R16.HL)
    case _ => DcdResU8R8(1, R8.A)
  }

  /** Opcodes 0x90-0x9F. */
  function DecodeCBRow9(lo: bv8): Decoded
  {
    match lo
    case 0x0 => DcdResU8R8(2, R8.B)
    case 0x1 => DcdResU8R8(2, R8.C)
    case 0x2 => DcdResU8R8(2, R8.D)
    case 0x3 => DcdResU8R8(2, R8.E)
    case 0x4 => DcdResU8R8(2, R8.H)
    case 0x5 => DcdResU8R8(2, R8.L)
    case 0x6 => DcdResU8Addrr16(2, R16.HL)
    case 0x7 => DcdResU8R8(2, R8.A)
    case 0x8 => DcdResU8R8(3, R8.B)
    case 0x9 => DcdResU8R8(3, R8.C)
    case 0xA => DcdResU8R8(3, R8.D)
    case 0xB => DcdResU8R8(3, R8.E)
    case 0xC => DcdResU8R8(3, R8.H)
    case 0xD => DcdResU8R8(3, R8.L)
    case 0xE => DcdResU8Addrr16(3, R16.HL)
    case _ => DcdResU8R8(3, R8.A)
  }

  /** Opcodes 0xA0-0xAF. */
  function DecodeCBRowA(lo: bv8): Decoded
  {
    match lo
    case 0x0 => DcdResU8R8(4, R8.B)
    case 0x1 => DcdResU8R8(4, R8.C)
    case 0x2 => DcdResU8R8(4, R8.D)
    case 0x3 => DcdResU8R8(4, R8.E)
    case 0x4 => DcdResU8R8(4, R8.H)
    case 0x5 => DcdResU8R8(4, R8.L)
    case 0x6 => DcdResU8Addrr16(4, R16.HL)
    case 0x7 => DcdResU8R8(4, R8.A)
    case 0x8 => DcdResU8R8(5, R8.B)
    case 0x9 => DcdResU8R8(5, R8.C)
    case 0xA => DcdResU8R8(5, R8.D)
    case 0xB => DcdResU8R8(5, R8.E)
    case 0xC => DcdResU8R8(5, R8.H)
    case 0xD => DcdResU8R8(5, R8.L)
    case 0xE => DcdResU8Addrr16(5, R16.HL)
    case _ => DcdResU8R8(5, R8.A)
  }

  /** Opcodes 0xB0-0xBF. */
  function DecodeCBRowB(lo: bv8): Decoded
  {
    match lo
    case 0x0 => DcdResU8R8(6, R8.B)
    case 0x1 => DcdResU8R8(6, R8.C)
    case 0x2 => DcdResU8R8(6, R8.D)
    case 0x3 => DcdResU8R8(6, R8.E)
    case 0x4 => DcdResU8R8(6, R8.H)
    case 0x5 => DcdResU8R8(6, R8.L)
    case 0x6 => DcdResU8Addrr16(6, R16.HL)
    case 0x7 => DcdResU8R8(6, R8.A)
    case 0x8 => DcdResU8R8(7, R8.B)
    case 0x9 => DcdResU8R8(7, R8.C)
    case 0xA => DcdResU8R8(7, R8.D)
    case 0xB => DcdResU8R8(7, R8.E)
    case 0xC => DcdResU8R8(7, R8.H)
    case 0xD => DcdResU8R8(7, R8.L)
    case 0xE => DcdResU8Addrr16(7, R16.HL)
    case _ => DcdResU8R8(7, R8.A)
  }

  /** Opcodes 0xC0-0xCF. */
  function DecodeCBRowC(lo: bv8): Decoded
  {
    match lo
    case 0x0 => DcdSetU8R8(0, R8.B)
    case 0x1 => DcdSetU8R8(0, R8.C)
    case 0x2 => DcdSetU8R8(0, R8.D)
    case 0x3 => DcdSetU8R8(0, R8.E)
    case 0x4 => DcdSetU8R8(0, R8.H)
    case 0x5 => DcdSetU8R8(0, R8.L)
    case 0x6 => DcdSetU8Addrr16(0, R16.HL)
    case 0x7 => DcdSetU8R8(0, R8.A)
    case 0x8 => DcdSetU8R8(1, R8.B)
    case 0x9 => DcdSetU8R8(1, R8.C)
    case 0xA => DcdSetU8R8(1, R8.D)
    case 0xB => DcdSetU8R8(1, R8.E)
    case 0xC => DcdSetU8R8(1, R8.H)
    case 0xD => DcdSetU8R8(1, R8.L)
    case 0xE => DcdSetU8Addrr16(1, R16.HL)
    case _ => DcdSetU8R8(1, R8.A)
  }

  /** Opcodes 0xD0-0xDF. */
  function DecodeCBRowD(lo: bv8): Decoded
  {
    match lo
    case 0x0 => DcdSetU8R8(2, R8.B)
    case 0x1 => DcdSetU8R8(2, R8.C)
    case 0x2 => DcdSetU8R8(2, R8.D)
    case 0x3 => DcdSetU8R8(2, R8.E)
    case 0x4 => DcdSetU8R8(2, R8.H)
    case 0x5 => DcdSetU8R8(2, R8.L)
    case 0x6 => DcdSetU8Addrr16(2, R16.HL)
    case 0x7 => DcdSetU8R8(2, R8.A)
    case 0x8 => DcdSetU8R8(3, R8.B)
    case 0x9 => DcdSetU8R8(3, R8.C)
    case 0xA => DcdSetU8R8(3, R8.D)
    case 0xB => DcdSetU8R8(3, R8.E)
    case 0xC => DcdSetU8R8(3, R8.H)
    case 0xD => DcdSetU8R8(3, R8.L)
    case 0xE => DcdSetU8Addrr16(3, R16.HL)
    case _ => DcdSetU8R8(3, R8.A)
  }

  /** Opcodes 0xE0-0xEF. */
  function DecodeCBRowE(lo: bv8): Decoded
  {
    match lo
    case 0x0 => DcdSetU8R8(4, R8.B)
    case 0x1 => DcdSetU8R8(4, R8.C)
    case 0x2 => DcdSetU8R8(4, R8.D)
    case 0x3 => DcdSetU8R8(4, R8.E)
    case 0x4 => DcdSetU8R8(4, R8.H)
    case 0x5 => DcdSetU8R8(4, R8.L)
    case 0x6 => DcdSetU8Addrr16(4, R16.HL)
    case 0x7 => DcdSetU8R8(4, R8.A)
    case 0x8 => DcdSetU8R8(5, R8.B)
    case 0x9 => DcdSetU8R8(5, R8.C)
    case 0xA => DcdSetU8R8(5, R8.D)
    case 0xB => DcdSetU8R8(5, R8.E)
    case 0xC => DcdSetU8R8(5, R8.H)
    case 0xD => DcdSetU8R8(5, R8.L)
    case 0xE => DcdSetU8Addrr16(5, R16.HL)
    case _ => DcdSetU8R8(5, R8.A)
  }

  /** Opcodes 0xF0-0xFF. */
  function DecodeCBRowF(lo: bv8): Decoded
  {
    match lo
    case 0x0 => DcdSetU8R8(6, R8.B)
    case 0x1 => DcdSetU8R8(6, R8.C)
    case 0x2 => DcdSetU8R8(6, R8.D)
    case 0x3 => DcdSetU8R8(6, R8.E)
    case 0x4 => DcdSetU8R8(6, R8.H)
    case 0x5 => DcdSetU8R8(6, R8.L)
    case 0x6 => DcdSetU8Addrr16(6, R16.HL)
    case 0x7 => DcdSetU8R8(6, R8.A)
    case 0x8 => DcdSetU8R8(7, R8.B)
    case 0x9 => DcdSetU8R8(7, R8.C)
    case 0xA => DcdSetU8R8(7, R8.D)
    case 0xB => DcdSetU8R8(7, R8.E)
    case 0xC => DcdSetU8R8(7, R8.H)
    case 0xD => DcdSetU8R8(7, R8.L)
    case 0xE => DcdSetU8Addrr16(7, R16.HL)
    case _ => DcdSetU8R8(7, R8.A)
  }

  function DcdLdR16Spi8(r16: R16): Decoded
  {
    (false, Ok(Some(Instruction(Triple(Ld, Reg16(r16), FetchSPI8), None))))
  }

  function DcdAddR16I8(r16: R16): Decoded
  {
    (false, Ok(Some(Instruction(Triple(Add, Reg16(r16), FetchI8), None))))
  }

  function DcdEi(): Decoded
  {
    (true, Ok(Some(Instruction(Triple(Ei, Non, Non), None))))
  }

  function DcdHalt(): Decoded
  {
    (false, Ok(Some(Instruction(Triple(Halt, Non, Non), None))))
  }

  function DcdSwapR8(r8: R8): Decoded
  {
    (true, Ok(Some(Instruction(Triple(Swap, Reg8(r8), Non), None))))
  }

  function DcdSwapAddrr16(r16: R16): Decoded
  {
    (false, Ok(Some(Instruction(Triple(Swap, AddrReg16(r16), Non), None))))
  }

  function DcdRrR8(r8: R8): Decoded
  {
    (true, Ok(Some(Instruction(Triple(Rr, Reg8(r8), Non), None))))
  }

  function DcdRrAddrr16(r16: R16): Decoded
  {
    (false, Ok(Some(Instruction(Triple(Rr, AddrReg16(r16), Non), None))))
  }

  function DcdNop(): Decoded
  {
    (true, Ok(Some(Instruction(Triple(Nop, Non, Non), None))))
  }

  function DcdDi(): Decoded
  {
    (true, Ok(Some(Instruction(Triple(Di, Non, Non), None))))
  }

  function DcdCpl(): Decoded
  {
    (true, Ok(Some(Instruction(Triple(Cpl, Non, Non), None))))
  }

  function DcdDaa(): Decoded
  {
    (true, Ok(Some(Instruction(Triple(Daa, Non, Non), None))))
  }

  function DcdDecR8(r8: R8): Decoded
  {
    (true, Ok(Some(Instruction(Triple(Dec, Reg8(r8), Non), None))))
  }

  function DcdDecR16(r16: R16): Decoded
  {
    (false, Ok(Some(Instruction(Triple(Dec, Reg16(r16), Non), None))))
  }

  function DcdDecAddrr16(r16: R16): Decoded
  {
    (false, Ok(Some(Instruction(Triple(Dec, AddrReg16(r16), Non), None))))
  }

  function DcdIncAddrr16(r16: R16): Decoded
  {
    (false, Ok(Some(Instruction(Triple(Inc, AddrReg16(r16), Non), None))))
  }

  function DcdScf(): Decoded
  {
    (true, Ok(Some(Instruction(Triple(Scf, Non, Non), None))))
  }

  function DcdRla(): Decoded
  {
    (true, Ok(Some(Instruction(Triple(Rla, Non, Non), None))))
  }

  function DcdRrca(): Decoded
  {
    (true, Ok(Some(Instruction(Triple(Rrca, Non, Non), None))))
  }

  function DcdRlca(): Decoded
  {
    (true, Ok(Some(Instruction(Triple(Rlca, Non, Non), None))))
  }

  function DcdRra(): Decoded
  {
    (true, Ok(Some(Instruction(Triple(Rra, Non, Non), None))))
  }

  function DcdCcf(): Decoded
  {
    (true, Ok(Some(Instruction(Triple(Ccf, Non, Non), None))))
  }

  function DcdRlAddrr16(r16: R16): Decoded
  {
    (false, Ok(Some(Instruction(Triple(Rl, AddrReg16(r16), Non), None))))
  }

  function DcdRlcAddrr16(r16: R16): Decoded
  {
    (false, Ok(Some(Instruction(Triple(Rlc, AddrReg16(r16), Non), None))))
  }

  function DcdRlcR8(r8: R8): Decoded
  {
    (true, Ok(Some(Instruction(Triple(Rlc, Reg8(r8), Non), None))))
  }

  function DcdSlaAddrr16(r16: R16): Decoded
  {
    (false, Ok(Some(Instruction(Triple(Sla, AddrReg16(r16), Non), None))))
  }

  function DcdSlaR8(r8: R8): Decoded
  {
    (true, Ok(Some(Instruction(Triple(Sla, Reg8(r8), Non), None))))
  }

  function DcdSraAddrr16(r16: R16): Decoded
  {
    (false, Ok(Some(Instruction(Triple(Sra, AddrReg16(r16), Non), None))))
  }

  function DcdSraR8(r8: R8): Decoded
  {
    (true, Ok(Some(Instruction(Triple(Sra, Reg8(r8), Non), None))))
  }

  function DcdRrcAddrr16(r16: R16): Decoded
  {
    (false, Ok(Some(Instruction(Triple(Rrc, AddrReg16(r16), Non), None))))
  }

  function DcdRrcR8(r8: R8): Decoded
  {
    (true, Ok(Some(Instruction(Triple(Rrc, Reg8(r8), Non), None))))
  }

  function DcdSrlAddrr16(r16: R16): Decoded
  {
    (false, Ok(Some(Instruction(Triple(Srl, AddrReg16(r16), Non), None))))
  }

  function DcdSrlR8(r8: R8): Decoded
  {
    (true, Ok(Some(Instruction(Triple(Srl, Reg8(r8), Non), None))))
  }

  function DcdRlR8(r8: R8): Decoded
  {
    (true, Ok(Some(Instruction(Triple(Rl, Reg8(r8), Non), None))))
  }

  function DcdPopR16(r81: R8, r82: R8): Decoded
  {
    (false, Ok(Some(Instruction(Triple(Ld, Reg8(r82), AddrReg16i(R16.SP)), Some(Instruction(Triple(Ld, Reg8(r81), AddrReg16i(R16.SP)), None))))))
  }

  function DcdPushR16(r81: R8, r82: R8): Decoded
  {
    (false, Ok(Some(Instruction(Triple(Internal, Non, Non), Some(Instruction(Triple(Ld, AddrRegd16(R16.SP), Reg8(r81)), Some(Instruction(Triple(Ld, AddrRegd16(R16.SP), Reg8(r82)), None))))))))
  }

  function DcdCpR8R8(r81: R8, r82: R8): Decoded
  {
    (true, Ok(Some(Instruction(Triple(Cp, Reg8(r81), Reg8(r82)), None))))
  }

  function DcdSubR8R8(r81: R8, r82: R8): Decoded
  {
    (true, Ok(Some(Instruction(Triple(Sub, Reg8(r81), Reg8(r82)), None))))
  }

  function DcdAndR8R8(r81: R8, r82: R8): Decoded
  {
    (true, Ok(Some(Instruction(Triple(And, Reg8(r81), Reg8(r82)), None))))
  }

  function DcdSbcR8R8(r81: R8, r82: R8): Decoded
  {
    (true, Ok(Some(Instruction(Triple(Sbc, Reg8(r81), Reg8(r82)), None))))
  }

  function DcdAdcR8R8(r81: R8, r82: R8): Decoded
  {
    (true, Ok(Some(Instruction(Triple(Adc, Reg8(r81), Reg8(r82)), None))))
  }

  function DcdAddR8R8(r81: R8, r82: R8): Decoded
  {
    (true, Ok(Some(Instruction(Triple(Add, Reg8(r81), Reg8(r82)), None))))
  }

  function DcdAddR16R16(r161: R16, r162: R16): Decoded
  {
    (false, Ok(Some(Instruction(Triple(Add, Reg16(r161), Reg16(r162)), None))))
  }

  function DcdCpR8Addrr16(r8: R8, r16: R16): Decoded
  {
    (false, Ok(Some(Instruction(Triple(Cp, Reg8(r8), AddrReg16(r16)), None))))
  }

  function DcdCpR8U8(r8: R8): Decoded
  {
    (false, Ok(Some(Instruction(Triple(Cp, Reg8(r8), FetchU8), None))))
  }

  function DcdCallCU16(cond: Condition): Decoded
  {
    (false, Ok(Some(Instruction(Triple(Call, CC(cond), FetchU16(None, None)), None))))
  }

  function DcdCallU16(): Decoded
  {
    (false, Ok(Some(Instruction(Triple(Call, FetchU16(None, None), Non), None))))
  }

  function DcdRet(): Decoded
  {
    (false, Ok(Some(Instruction(Triple(Ld, Reg8(R8.PCl), AddrReg16i(R16.SP)), Some(Instruction(Triple(Ld, Reg8(R8.PCh), AddrReg16i(R16.SP)), Some(Instruction(Triple(Internal, Non, Non), None))))))))
  }

  function DcdRst(vector: bv16): Decoded
  {
    (false, Ok(Some(Instruction(Triple(Rst, U16(vector), Non), None))))
  }

  function DcdReti(): Decoded
  {
    (false, Ok(Some(Instruction(Triple(Ld, Reg8(R8.PCl), AddrReg16i(R16.SP)), Some(Instruction(Triple(Ld, Reg8(R8.PCh), AddrReg16i(R16.SP)), Some(Instruction(Triple(EiImm, Non, Non), None))))))))
  }

  function DcdRetC(cond: Condition): Decoded
  {
    (false, Ok(Some(Instruction(Triple(Ret, CC(cond), Non), None))))
  }

  function DcdIncR8(r8: R8): Decoded
  {
    (true, Ok(Some(Instruction(Triple(Inc, Reg8(r8), Non), None))))
  }

  function DcdIncR16(r16: R16): Decoded
  {
    (false, Ok(Some(Instruction(Triple(Inc, Reg16(r16), Non), None))))
  }

  function DcdJpU16(): Decoded
  {
    (false, Ok(Some(Instruction(Triple(Jp, FetchU16(None, None), Non), None))))
  }

  function DcdJpCU16(cond: Condition): Decoded
  {
    (false, Ok(Some(Instruction(Triple(Jp, CC(cond), FetchU16(None, None)), None))))
  }

  function DcdJpR16(r16: R16): Decoded
  {
    (true, Ok(Some(Instruction(Triple(Jp, Reg16(r16), Non), None))))
  }

  function DcdJrI8(): Decoded
  {
    (false, Ok(Some(Instruction(Triple(Jr, FetchI8, Non), None))))
  }

  function DcdJrCI8(cond: Condition): Decoded
  {
    (false, Ok(Some(Instruction(Triple(Jr, CC(cond), FetchI8), None))))
  }

  function DcdResU8Addrr16(n: bv8, r16: R16): Decoded
  {
    (false, Ok(Some(Instruction(Triple(Res, U8(n), AddrReg16(r16)), None))))
  }

  function DcdResU8R8(n: bv8, r8: R8): Decoded
  {
    (true, Ok(Some(Instruction(Triple(Res, U8(n), Reg8(r8)), None))))
  }

  function DcdSetU8Addrr16(n: bv8, r16: R16): Decoded
  {
    (false, Ok(Some(Instruction(Triple(Set, U8(n), AddrReg16(r16)), None))))
  }

  function DcdSetU8R8(n: bv8, r8: R8): Decoded
  {
    (true, Ok(Some(Instruction(Triple(Set, U8(n), Reg8(r8)), None))))
  }

  function DcdBitU8Addrr16(n: bv8, r16: R16): Decoded
  {
    (false, Ok(Some(Instruction(Triple(Bit, U8(n), AddrReg16(r16)), None))))
  }

  function DcdBitU8R8(n: bv8, r8: R8): Decoded
  {
    (true, Ok(Some(Instruction(Triple(Bit, U8(n), Reg8(r8)), None))))
  }

  function DcdDecodeCb(): Decoded
  {
    (false, Ok(Some(Instruction(Triple(DcdCB, FetchU8, Non), None))))
  }

  function DcdLdR16dR8(r16: R16, r8: R8): Decoded
  {
    (false, Ok(Some(Instruction(Triple(Ld, AddrReg16d(r16), Reg8(r8)), None))))
  }

  function DcdAndR8U8(r8: R8): Decoded
  {
    (false, Ok(Some(Instruction(Triple(And, Reg8(r8), FetchU8), None))))
  }

  function DcdXorR8U8(r8: R8): Decoded
  {
    (false, Ok(Some(Instruction(Triple(Xor, Reg8(r8), FetchU8), None))))
  }

  function DcdAddR8U8(r8: R8): Decoded
  {
    (false, Ok(Some(Instruction(Triple(Add, Reg8(r8), FetchU8), None))))
  }

  function DcdAdcR8U8(r8: R8): Decoded
  {
    (false, Ok(Some(Instruction(Triple(Adc, Reg8(r8), FetchU8), None))))
  }

  function DcdSubR8U8(r8: R8): Decoded
  {
    (false, Ok(Some(Instruction(Triple(Sub, Reg8(r8), FetchU8), None))))
  }

  function DcdSbcR8U8(r8: R8): Decoded
  {
    (false, Ok(Some(Instruction(Triple(Sbc, Reg8(r8), FetchU8), None))))
  }

  function DcdOrR8U8(r8: R8): Decoded
  {
    (false, Ok(Some(Instruction(Triple(Or, Reg8(r8), FetchU8), None))))
  }

  function DcdOrR8R8(r81: R8, r82: R8): Decoded
  {
    (true, Ok(Some(Instruction(Triple(Or, Reg8(r81), Reg8(r82)), None))))
  }

  function DcdXorR8R8(r81: R8, r82: R8): Decoded
  {
    (true, Ok(Some(Instruction(Triple(Xor, Reg8(r81), Reg8(r82)), None))))
  }

  function DcdXorR8Addrr16(r8: R8, r16: R16): Decoded
  {
    (false, Ok(Some(Instruction(Triple(Xor, Reg8(r8), AddrReg16(r16)), None))))
  }

  function DcdOrR8Addrr16(r8: R8, r16: R16): Decoded
  {
    (false, Ok(Some(Instruction(Triple(Or, Reg8(r8), AddrReg16(r16)), None))))
  }

  function DcdAddR8Addrr16(r8: R8, r16: R16): Decoded
  {
    (false, Ok(Some(Instruction(Triple(Add, Reg8(r8), AddrReg16(r16)), None))))
  }

  function DcdAdcR8Addrr16(r8: R8, r16: R16): Decoded
  {
    (false, Ok(Some(Instruction(Triple(Adc, Reg8(r8), AddrReg16(r16)), None))))
  }

  function DcdSbcR8Addrr16(r8: R8, r16: R16): Decoded
  {
    (false, Ok(Some(Instruction(Triple(Sbc, Reg8(r8), AddrReg16(r16)), None))))
  }

  function DcdAndR8Addrr16(r8: R8, r16: R16): Decoded
  {
    (false, Ok(Some(Instruction(Triple(And, Reg8(r8), AddrReg16(r16)), None))))
  }

  function DcdSubR8Addrr16(r8: R8, r16: R16): Decoded
  {
    (false, Ok(Some(Instruction(Triple(Sub, Reg8(r8), AddrReg16(r16)), None))))
  }

  function DcdLdAddrr16R8(r16: R16, r8: R8): Decoded
  {
    (false, Ok(Some(Instruction(Triple(Ld, AddrReg16(r16), Reg8(r8)), None))))
  }

  function DcdLdAddrr16iR8(r16: R16, r8: R8): Decoded
  {
    (false, Ok(Some(Instruction(Triple(Ld, AddrReg16i(r16), Reg8(r8)), None))))
  }

  function DcdLdR8Addrr16i(r8: R8, r16: R16): Decoded
  {
    (false, Ok(Some(Instruction(Triple(Ld, Reg8(r8), AddrReg16i(r16)), None))))
  }

  function DcdLdR8Addrr16d(r8: R8, r16: R16): Decoded
  {
    (false, Ok(Some(Instruction(Triple(Ld, Reg8(r8), AddrReg16d(r16)), None))))
  }

  function DcdLdR8Addru16(r8: R8): Decoded
  {
    (false, Ok(Some(Instruction(Triple(Ld, Reg8(r8), FetchAddrU16(None, None)), None))))
  }

  function DcdLdR8Addrr16(r8: R8, r16: R16): Decoded
  {
    (false, Ok(Some(Instruction(Triple(Ld, Reg8(r8), AddrReg16(r16)), None))))
  }

  function DcdLdR8Inaddru8(r8: R8): Decoded
  {
    (false, Ok(Some(Instruction(Triple(Ld, Reg8(r8), FetchInAddrU8), None))))
  }

  function DcdLdAddru16R8(r8: R8): Decoded
  {
    (false, Ok(Some(Instruction(Triple(Ld, FetchAddrU16(None, None), Reg8(r8)), None))))
  }

  function DcdLdAddru16R16(r16: R16): Decoded
  {
    (false, Ok(Some(Instruction(Triple(Ld, FetchAddrU16(None, None), Reg16(r16)), None))))
  }

  function DcdLdAddrr16U8(r16: R16): Decoded
  {
    (false, Ok(Some(Instruction(Triple(Ld, AddrReg16(r16), FetchU8), None))))
  }

  function DcdLdR8Inaddrr8(r81: R8, r82: R8): Decoded
  {
    (false, Ok(Some(Instruction(Triple(Ld, Reg8(r81), InAddrReg8(r82)), None))))
  }

  function DcdLdInaddrr8R8(r81: R8, r82: R8): Decoded
  {
    (false, Ok(Some(Instruction(Triple(Ld, InAddrReg8(r81), Reg8(r82)), None))))
  }

  function DcdLdInaddru8R8(r8: R8): Decoded
  {
    (false, Ok(Some(Instruction(Triple(Ld, FetchInAddrU8, Reg8(r8)), None))))
  }

  function DcdLdR8R8(r81: R8, r82: R8): Decoded
  {
    (true, Ok(Some(Instruction(Triple(Ld, Reg8(r81), Reg8(r82)), None))))
  }

  function DcdLdR8U8(r8: R8): Decoded
  {
    (false, Ok(Some(Instruction(Triple(Ld, Reg8(r8), FetchU8), None))))
  }

  function DcdLdR16R16(r161: R16, r162: R16): Decoded
  {
    (false, Ok(Some(Instruction(Triple(Ld, Reg16(r161), Reg16(r162)), None))))
  }

  function DcdLdR16U16(r81: R8, r82: R8): Decoded
  {
    (false, Ok(Some(Instruction(Triple(Ld, Reg8(r82), FetchU8), Some(Instruction(Triple(Ld, Reg8(r81), FetchU8), None))))))
  }

  // ---------------------------------------------------------------------------
  // Regularity of the tables

  /** The register encoding of three opcode bits: B, C, D, E, H, L, (HL), A. */
  function Operand(i: bv8): (arg: OpArg)
    requires i < 8
    ensures arg.Reg8? || arg == AddrReg16(R16.HL)
    ensures arg.Reg8? <==> i != 6
  {
    match i
    case 0 => Reg8(R8.B)
    case 1 => Reg8(R8.C)
    case 2 => Reg8(R8.D)
    case 3 => Reg8(R8.E)
    case 4 => Reg8(R8.H)
    case 5 => Reg8(R8.L)
    case 6 => AddrReg16(R16.HL)
    case _ => Reg8(R8.A)
  }

  /** A decoded single step with no chain. */
  function Single(immediate: bool, t: Triple): Decoded
  {
    (immediate, Ok(Some(Instruction(t, None))))
  }

  /** A step the executor can run in the decode cycle: nothing to fetch, not a decode. */
  predicate RunnableNow(t: Triple)
  {
    !IsFetch(t.p1) && !IsFetch(t.p2) && t.op != Dcd && t.op != DcdCB
  }

  /**
   * A table entry never succeeds without an instruction, and an immediate entry is a
   * single runnable step (what the executor asserts before running it).
   */
  predicate WellFormed(d: Decoded)
  {
    && (d.1.Ok? ==> d.1.value.Some?)
    && (d.0 ==> d.1.Ok? && d.1.value.Some? && d.1.value.value.next.None?
                && RunnableNow(d.1.value.value.ins))
  }

  /** The base opcodes without an entry. */
  const UnknownOpcodes: set<bv8> :=
    {0x10, 0xD3, 0xDB, 0xDD, 0xE3, 0xE4, 0xEB, 0xEC, 0xED, 0xF4, 0xFC, 0xFD}

  predicate BaseFacts(byte: bv8)
  {
    WellFormed(Decode(byte)) && (Decode(byte).1.Err? <==> byte in UnknownOpcodes)
  }

  lemma DecodeRowFacts0(byte: bv8)
    requires byte >> 4 == 0x0
    ensures BaseFacts(byte)
  {
    Row0Facts(byte & 0xF);
  }

  /** Every opcode of row 0 has an entry, and a well-formed one. */
  lemma Row0Facts(lo: bv8)
    requires lo < 0x10
    ensures WellFormed(DecodeRow0(lo)) && DecodeRow0(lo).1.Ok?
  {
  }

  lemma DecodeRowFacts1(byte: bv8)
    requires byte >> 4 == 0x1
    ensures BaseFacts(byte)
  {
  }

  lemma DecodeRowFacts2(byte: bv8)
    requires byte >> 4 == 0x2
    ensures BaseFacts(byte)
  {
    Row2Facts(byte & 0xF);
  }

  /** Every opcode of row 2 has an entry, and a well-formed one. */
  lemma Row2Facts(lo: bv8)
    requires lo < 0x10
    ensures WellFormed(DecodeRow2(lo)) && DecodeRow2(lo).1.Ok?
  {
  }

  lemma DecodeRowFacts3(byte: bv8)
    requires byte >> 4 == 0x3
    ensures BaseFacts(byte)
  {
    Row3Facts(byte & 0xF);
  }

  /** Every opcode of row 3 has an entry, and a well-formed one. */
  lemma Row3Facts(lo: bv8)
    requires lo < 0x10
    ensures WellFormed(DecodeRow3(lo)) && DecodeRow3(lo).1.Ok?
  {
  }

  lemma DecodeRowFacts4(byte: bv8)
    requires byte >> 4 == 0x4
    ensures BaseFacts(byte)
  {
    Row4Facts(byte & 0xF);
  }

  /** Every opcode of row 4 has an entry, and a well-formed one. */
  lemma Row4Facts(lo: bv8)
    requires lo < 0x10
    ensures WellFormed(DecodeRow4(lo)) && DecodeRow4(lo).1.Ok?
  {
  }

  lemma DecodeRowFacts5(byte: bv8)
    requires byte >> 4 == 0x5
    ensures BaseFacts(byte)
  {
    Row5Facts(byte & 0xF);
  }

  /** Every opcode of row 5 has an entry, and a well-formed one. */
  lemma Row5Facts(lo: bv8)
    requires lo < 0x10
    ensures WellFormed(DecodeRow5(lo)) && DecodeRow5(lo).1.Ok?
  {
  }

  lemma DecodeRowFacts6(byte: bv8)
    requires byte >> 4 == 0x6
    ensures BaseFacts(byte)
  {
    Row6Facts(byte & 0xF);
  }

  /** Every opcode of row 6 has an entry, and a well-formed one. */
  lemma Row6Facts(lo: bv8)
    requires lo < 0x10
    ensures WellFormed(DecodeRow6(lo)) && DecodeRow6(lo).1.Ok?
  {
  }

  lemma DecodeRowFacts7(byte: bv8)
    requires byte >> 4 == 0x7
    ensures BaseFacts(byte)
  {
    Row7Facts(byte & 0xF);
  }

  /** Every opcode of row 7 has an entry, and a well-formed one. */
  lemma Row7Facts(lo: bv8)
    requires lo < 0x10
    ensures WellFormed(DecodeRow7(lo)) && DecodeRow7(lo).1.Ok?
  {
  }

  lemma DecodeRowFacts8(byte: bv8)
    requires byte >> 4 == 0x8
    ensures BaseFacts(byte)
  {
    Row8Facts(byte & 0xF);
  }

  /** Every opcode of row 8 has an entry, and a well-formed one. */
  lemma Row8Facts(lo: bv8)
    requires lo < 0x10
    ensures WellFormed(DecodeRow8(lo)) && DecodeRow8(lo).1.Ok?
  {
  }

  lemma DecodeRowFacts9(byte: bv8)
    requires byte >> 4 == 0x9
    ensures BaseFacts(byte)
  {
    Row9Facts(byte & 0xF);
  }

  /** Every opcode of row 9 has an entry, and a well-formed one. */
  lemma Row9Facts(lo: bv8)
    requires lo < 0x10
    ensures WellFormed(DecodeRow9(lo)) && DecodeRow9(lo).1.Ok?
  {
  }

  lemma DecodeRowFactsA(byte: bv8)
    requires byte >> 4 == 0xA
    ensures BaseFacts(byte)
  {
    RowAFacts(byte & 0xF);
  }

  /** Every opcode of row A has an entry, and a well-formed one. */
  lemma RowAFacts(lo: bv8)
    requires lo < 0x10
    ensures WellFormed(DecodeRowA(lo)) && DecodeRowA(lo).1.Ok?
  {
  }

  lemma DecodeRowFactsB(byte: bv8)
    requires byte >> 4 == 0xB
    ensures BaseFacts(byte)
  {
    RowBFacts(byte & 0xF);
  }

  /** Every opcode of row B has an entry, and a well-formed one. */
  lemma RowBFacts(lo: bv8)
    requires lo < 0x10
    ensures WellFormed(DecodeRowB(lo)) && DecodeRowB(lo).1.Ok?
  {
  }

  lemma DecodeRowFactsC(byte: bv8)
    requires byte >> 4 == 0xC
    ensures BaseFacts(byte)
  {
    RowCFacts(byte & 0xF);
  }

  /** Every opcode of row C has an entry, and a well-formed one. */
  lemma RowCFacts(lo: bv8)
    requires lo < 0x10
    ensures WellFormed(DecodeRowC(lo)) && DecodeRowC(lo).1.Ok?
  {
  }

  lemma DecodeRowFactsD(byte: bv8)
    requires byte >> 4 == 0xD
    ensures BaseFacts(byte)
  {
  }

  lemma DecodeRowFactsE(byte: bv8)
    requires byte >> 4 == 0xE
    ensures BaseFacts(byte)
  {
  }

  lemma DecodeRowFactsF(byte: bv8)
    requires byte >> 4 == 0xF
    ensures BaseFacts(byte)
  {
  }

  lemma BaseTableFacts(byte: bv8)
    ensures BaseFacts(byte)
  {
    match byte >> 4 {
      case 0x0 => DecodeRowFacts0(byte);
      case 0x1 => DecodeRowFacts1(byte);
      case 0x2 => DecodeRowFacts2(byte);
      case 0x3 => DecodeRowFacts3(byte);
      case 0x4 => DecodeRowFacts4(byte);
      case 0x5 => DecodeRowFacts5(byte);
      case 0x6 => DecodeRowFacts6(byte);
      case 0x7 => DecodeRowFacts7(byte);
      case 0x8 => DecodeRowFacts8(byte);
      case 0x9 => DecodeRowFacts9(byte);
      case 0xA => DecodeRowFactsA(byte);
      case 0xB => DecodeRowFactsB(byte);
      case 0xC => DecodeRowFactsC(byte);
      case 0xD => DecodeRowFactsD(byte);
      case 0xE => DecodeRowFactsE(byte);
      case _ => DecodeRowFactsF(byte);
    }
  }

  /** The CB table, stated independently: eight rotate/shift rows, then BIT, RES, SET. */
  function CBReference(byte: bv8): Decoded
  {
    var x := byte & 7;
    var opIndex := (byte >> 3) & 7;
    if byte < 0x40 then
      Single(x != 6, Triple(RotateOp(opIndex), Operand(x), Non))
    else
      Single(x != 6, Triple(if byte < 0x80 then Bit else if byte < 0xC0 then Res else Set,
                            U8(opIndex), Operand(x)))
  }

  function RotateOp(i: bv8): Op
    requires i < 8
  {
    match i
    case 0 => Rlc
    case 1 => Rrc
    case 2 => Rl
    case 3 => Rr
    case 4 => Sla
    case 5 => Sra
    case 6 => Swap
    case _ => Srl
  }

  lemma DecodeCBRowFacts0(byte: bv8)
    requires byte >> 4 == 0x0
    ensures DecodeCB(byte) == CBReference(byte)
  {
  }

  lemma DecodeCBRowFacts1(byte: bv8)
    requires byte >> 4 == 0x1
    ensures DecodeCB(byte) == CBReference(byte)
  {
  }

  lemma DecodeCBRowFacts2(byte: bv8)
    requires byte >> 4 == 0x2
    ensures DecodeCB(byte) == CBReference(byte)
  {
  }

  lemma DecodeCBRowFacts3(byte: bv8)
    requires byte >> 4 == 0x3
    ensures DecodeCB(byte) == CBReference(byte)
  {
  }

  lemma DecodeCBRowFacts4(byte: bv8)
    requires byte >> 4 == 0x4
    ensures DecodeCB(byte) == CBReference(byte)
  {
  }

  lemma DecodeCBRowFacts5(byte: bv8)
    requires byte >> 4 == 0x5
    ensures DecodeCB(byte) == CBReference(byte)
  {
  }

  lemma DecodeCBRowFacts6(byte: bv8)
    requires byte >> 4 == 0x6
    ensures DecodeCB(byte) == CBReference(byte)
  {
  }

  lemma DecodeCBRowFacts7(byte: bv8)
    requires byte >> 4 == 0x7
    ensures DecodeCB(byte) == CBReference(byte)
  {
  }

  lemma DecodeCBRowFacts8(byte: bv8)
    requires byte >> 4 == 0x8
    ensures DecodeCB(byte) == CBReference(byte)
  {
  }

  lemma DecodeCBRowFacts9(byte: bv8)
    requires byte >> 4 == 0x9
    ensures DecodeCB(byte) == CBReference(byte)
  {
  }

  lemma DecodeCBRowFactsA(byte: bv8)
    requires byte >> 4 == 0xA
    ensures DecodeCB(byte) == CBReference(byte)
  {
  }

  lemma DecodeCBRowFactsB(byte: bv8)
    requires byte >> 4 == 0xB
    ensures DecodeCB(byte) == CBReference(byte)
  {
  }

  lemma DecodeCBRowFactsC(byte: bv8)
    requires byte >> 4 == 0xC
    ensures DecodeCB(byte) == CBReference(byte)
  {
  }

  lemma DecodeCBRowFactsD(byte: bv8)
    requires byte >> 4 == 0xD
    ensures DecodeCB(byte) == CBReference(byte)
  {
  }

  lemma DecodeCBRowFactsE(byte: bv8)
    requires byte >> 4 == 0xE
    ensures DecodeCB(byte) == CBReference(byte)
  {
  }

  lemma DecodeCBRowFactsF(byte: bv8)
    requires byte >> 4 == 0xF
    ensures DecodeCB(byte) == CBReference(byte)
  {
  }

  /**
   * Every CB byte follows the regular layout: operation from bits 3-7 (bit index in
   * bits 3-5 for BIT/RES/SET), operand from bits 0-2; immediate unless it is (HL).
   */
  lemma DecodeCBRegular(byte: bv8)
    ensures DecodeCB(byte) == CBReference(byte)
  {
    match byte >> 4 {
      case 0x0 => DecodeCBRowFacts0(byte);
      case 0x1 => DecodeCBRowFacts1(byte);
      case 0x2 => DecodeCBRowFacts2(byte);
      case 0x3 => DecodeCBRowFacts3(byte);
      case 0x4 => DecodeCBRowFacts4(byte);
      case 0x5 => DecodeCBRowFacts5(byte);
      case 0x6 => DecodeCBRowFacts6(byte);
      case 0x7 => DecodeCBRowFacts7(byte);
      case 0x8 => DecodeCBRowFacts8(byte);
      case 0x9 => DecodeCBRowFacts9(byte);
      case 0xA => DecodeCBRowFactsA(byte);
      case 0xB => DecodeCBRowFactsB(byte);
      case 0xC => DecodeCBRowFactsC(byte);
      case 0xD => DecodeCBRowFactsD(byte);
      case 0xE => DecodeCBRowFactsE(byte);
      case _ => DecodeCBRowFactsF(byte);
    }
  }

  /** Every CB byte decodes to an instruction, so the CB error arm is unreachable. */
  lemma DecodeCBTotal(byte: bv8)
    ensures DecodeCB(byte).1.Ok? && DecodeCB(byte).1.value.Some?
    ensures WellFormed(DecodeCB(byte))
  {
    DecodeCBRegular(byte);
  }

  /** Immediate results of either table are single runnable steps. */
  lemma DecodeImmediateIsSingle(byte: bv8)
    ensures WellFormed(Decode(byte)) && WellFormed(DecodeCB(byte))
  {
    BaseTableFacts(byte);
    DecodeCBTotal(byte);
  }

  /** Exactly the twelve bytes without an entry decode to an error. */
  lemma DecodeUnknownOpcodes(byte: bv8)
    ensures Decode(byte).1.Err? <==> byte in UnknownOpcodes
    ensures Decode(byte).1.Ok? ==> Decode(byte).1.value.Some?
  {
    BaseTableFacts(byte);
  }

  /** LD r, r' for 0x40-0x7F: destination in bits 3-5, source in bits 0-2. */
  function LdReference(byte: bv8): Decoded
  {
    var dst, src := (byte >> 3) & 7, byte & 7;
    Single(dst != 6 && src != 6, Triple(Ld, Operand(dst), Operand(src)))
  }

  lemma LdGridRow4(byte: bv8)
    requires byte >> 4 == 0x4 && byte != 0x76
    ensures Decode(byte) == LdReference(byte)
  {
  }

  lemma LdGridRow5(byte: bv8)
    requires byte >> 4 == 0x5 && byte != 0x76
    ensures Decode(byte) == LdReference(byte)
  {
  }

  lemma LdGridRow6(byte: bv8)
    requires byte >> 4 == 0x6 && byte != 0x76
    ensures Decode(byte) == LdReference(byte)
  {
  }

  lemma LdGridRow7(byte: bv8)
    requires byte >> 4 == 0x7 && byte != 0x76
    ensures Decode(byte) == LdReference(byte)
  {
  }

  /** 0x40-0x7F is the LD grid, except 0x76, which is HALT. */
  lemma DecodeLdGrid(byte: bv8)
    requires 0x40 <= byte < 0x80
    ensures byte != 0x76 ==> Decode(byte) == LdReference(byte)
    ensures byte == 0x76 ==> Decode(byte) == Single(false, Triple(Halt, Non, Non))
  {
    if byte == 0x76 {
    } else if byte < 0x50 {
      LdGridRow4(byte);
    } else if byte < 0x60 {
      LdGridRow5(byte);
    } else if byte < 0x70 {
      LdGridRow6(byte);
    } else {
      LdGridRow7(byte);
    }
  }

  /** The eight 8-bit ALU operations selected by bits 3-5 of 0x80-0xBF. */
  function AluOp(i: bv8): Op
    requires i < 8
  {
    match i
    case 0 => Add
    case 1 => Adc
    case 2 => Sub
    case 3 => Sbc
    case 4 => And
    case 5 => Xor
    case 6 => Or
    case _ => Cp
  }

  /** ALU A, r for 0x80-0xBF: operation in bits 3-5, operand in bits 0-2. */
  function AluReference(byte: bv8): Decoded
  {
    Single(byte & 7 != 6, Triple(AluOp((byte >> 3) & 7), Reg8(R8.A), Operand(byte & 7)))
  }

  lemma AluGridRow8(byte: bv8)
    requires byte >> 4 == 0x8
    ensures Decode(byte) == AluReference(byte)
  {
  }

  lemma AluGridRow9(byte: bv8)
    requires byte >> 4 == 0x9
    ensures Decode(byte) == AluReference(byte)
  {
  }

  lemma AluGridRowA(byte: bv8)
    requires byte >> 4 == 0xA
    ensures Decode(byte) == AluReference(byte)
  {
  }

  lemma AluGridRowB(byte: bv8)
    requires byte >> 4 == 0xB
    ensures Decode(byte) == AluReference(byte)
  {
  }

  lemma DecodeAluGrid(byte: bv8)
    requires 0x80 <= byte < 0xC0
    ensures Decode(byte) == AluReference(byte)
  {
    if byte < 0x90 {
      AluGridRow8(byte);
    } else if byte < 0xA0 {
      AluGridRow9(byte);
    } else if byte < 0xB0 {
      AluGridRowA(byte);
    } else {
      AluGridRowB(byte);
    }
  }

  /** RST opcodes (bits 7-6 and 2-0 set) jump to the vector held in bits 5-3. */
  lemma DecodeRstVector(byte: bv8)
    requires byte & 0xC7 == 0xC7
    ensures Decode(byte) == Single(false, Triple(Rst, U16((byte & 0x38) as bv16), Non))
  {
    assert byte in {0xC7, 0xCF, 0xD7, 0xDF, 0xE7, 0xEF, 0xF7, 0xFF};
  }

  /** The register pair a PUSH/POP opcode names through bits 5-4. */
  function StackPair(byte: bv8): R16
  {
    match (byte >> 4) & 3
    case 0 => R16.BC
    case 1 => R16.DE
    case 2 => R16.HL
    case _ => R16.AF
  }

  /**
   * PUSH: one internal cycle, then the high register is written at --SP, then the low
   * register at --SP.
   */
  lemma DecodePush(byte: bv8)
    requires byte in {0xC5, 0xD5, 0xE5, 0xF5}
    ensures var pair := StackPair(byte);
      Decode(byte) ==
        (false, Ok(Some(Instruction(Triple(Internal, Non, Non),
          Some(Instruction(Triple(Ld, AddrRegd16(R16.SP), Reg8(HiOf(pair))),
            Some(Instruction(Triple(Ld, AddrRegd16(R16.SP), Reg8(LoOf(pair))), None))))))))
  {
  }

  /** POP: the low register is read at SP++, then the high register at SP++. */
  lemma DecodePop(byte: bv8)
    requires byte in {0xC1, 0xD1, 0xE1, 0xF1}
    ensures var pair := StackPair(byte);
      Decode(byte) ==
        (false, Ok(Some(Instruction(Triple(Ld, Reg8(LoOf(pair)), AddrReg16i(R16.SP)),
          Some(Instruction(Triple(Ld, Reg8(HiOf(pair)), AddrReg16i(R16.SP)), None))))))
  {
  }

  /** The return chain: PC low byte, then PC high byte from SP++, then a last step. */
  function ReturnChain(last: Op): Decoded
  {
    (false, Ok(Some(Instruction(Triple(Ld, Reg8(LoOf(R16.PC)), AddrReg16i(R16.SP)),
      Some(Instruction(Triple(Ld, Reg8(HiOf(R16.PC)), AddrReg16i(R16.SP)),
        Some(Instruction(Triple(last, Non, Non), None))))))))
  }

  /** RET pops PC and spends an internal cycle; RETI ends by enabling interrupts at once. */
  lemma DecodeReturns()
    ensures Decode(0xC9) == ReturnChain(Internal)
    ensures Decode(0xD9) == ReturnChain(EiImm)
  {
  }
}
