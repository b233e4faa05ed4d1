/**
 * The LR35902 register file: eight 8-bit registers A, B, C, D, E, F, H, L, the stack
 * pointer as two bytes S and P, and the program counter as two bytes PCh and PCl.
 * Pairs are read and written big-endian; the flag register F keeps only its high
 * nibble (Z, N, H, C from bit 7 down to bit 4).
 */
module CpuRegisters {
  import opened Bits

  datatype R16 = AF | BC | DE | HL | SP | PC

  datatype R8 = A | B | C | D | E | F | H | L | S | P | PCl | PCh

  /** The four condition flags stored in F. */
  datatype FFlag = Z | N | H | C

  /** Bit mask of a flag inside F. */
  function FlagMask(flag: FFlag): (m: bv8)
    ensures m & 0x0F == 0
    ensures flag == FFlag.Z <==> m == 0x80
    ensures flag == FFlag.N <==> m == 0x40
    ensures flag == FFlag.H <==> m == 0x20
    ensures flag == FFlag.C <==> m == 0x10
  {
    match flag
    case Z => 0x80
    case N => 0x40
    case H => 0x20
    case C => 0x10
  }

  /** The register holding the high byte of a pair. */
  function HiOf(r: R16): R8
  {
    match r
    case AF => R8.A
    case BC => R8.B
    case DE => R8.D
    case HL => R8.H
    case SP => R8.S
    case PC => R8.PCh
  }

  /** The register holding the low byte of a pair. */
  function LoOf(r: R16): R8
  {
    match r
    case AF => R8.F
    case BC => R8.C
    case DE => R8.E
    case HL => R8.L
    case SP => R8.P
    case PC => R8.PCl
  }

  /** What a pair reads back after being written with `v`: F drops its low nibble. */
  function Stored16(r: R16, v: bv16): (s: bv16)
    ensures r != AF ==> s == v
    ensures Hi(s) == Hi(v)
    ensures Lo(s) == Stored8(LoOf(r), Lo(v))
  {
    if r == AF then v & 0xFFF0 else v
  }

  /** What an 8-bit register reads back after being written with `v`. */
  function Stored8(r: R8, v: bv8): (s: bv8)
    ensures r != R8.F ==> s == v
    ensures s & 0x0F == (if r == R8.F then 0 else v & 0x0F)
  {
    if r == R8.F then v & 0xF0 else v
  }

  /** The values of the twelve 8-bit registers, as a value. */
  datatype RegFile = RegFile(
    a: bv8, b: bv8, c: bv8, d: bv8, e: bv8, f: bv8, h: bv8, l: bv8,
    s: bv8, p: bv8, pcl: bv8, pch: bv8)
  {
    function Get8(r: R8): bv8
    {
      match r
      case A => a
      case B => b
      case C => c
      case D => d
      case E => e
      case F => f
      case H => h
      case L => l
      case S => s
      case P => p
      case PCl => pcl
      case PCh => pch
    }

    /** A pair, high register first. */
    function Get16(r: R16): (v: bv16)
      ensures Hi(v) == Get8(HiOf(r)) && Lo(v) == Get8(LoOf(r))
    {
      Word(Get8(HiOf(r)), Get8(LoOf(r)))
    }

    /** The flags F holds. */
    function FlagsHeld(): Flags
    {
      Flags(GetF(FFlag.Z), GetF(FFlag.N), GetF(FFlag.H), GetF(FFlag.C))
    }

    /** A flag is set when all bits of its mask are set in F. */
    function GetF(flag: FFlag): bool
    {
      f & FlagMask(flag) == FlagMask(flag)
    }

    /** The registers after writing `v` to `r`: only `r` changes, and F drops its low nibble. */
    function With8(r: R8, v: bv8): (rf: RegFile)
      ensures rf.Get8(r) == Stored8(r, v)
      ensures forall q: R8 :: q != r ==> rf.Get8(q) == Get8(q)
    {
      match r
      case A => this.(a := v)
      case B => this.(b := v)
      case C => this.(c := v)
      case D => this.(d := v)
      case E => this.(e := v)
      case F => this.(f := v & 0xF0)
      case H => this.(h := v)
      case L => this.(l := v)
      case S => this.(s := v)
      case P => this.(p := v)
      case PCl => this.(pcl := v)
      case PCh => this.(pch := v)
    }

    /** The registers after writing the pair `r`: high byte first, then low byte. */
    function With16(r: R16, v: bv16): (rf: RegFile)
      ensures rf.Get16(r) == Stored16(r, v)
      ensures forall q: R8 :: q != HiOf(r) && q != LoOf(r) ==> rf.Get8(q) == Get8(q)
    {
      var rf := With8(HiOf(r), Hi(v)).With8(LoOf(r), Lo(v));
      WordOfHalves(rf.Get16(r));
      WordOfHalves(Stored16(r, v));
      rf
    }

    /** The registers with one flag set or cleared in F. */
    function WithFlag(flag: FFlag, on: bool): RegFile
    {
      this.(f := if on then f | FlagMask(flag) else f & !FlagMask(flag))
    }

    /** The registers with F holding exactly the flags `fl`. */
    function WithFlags(fl: Flags): (rf: RegFile)
      ensures rf.FlagsHeld() == fl
      ensures forall q: R8 :: q != R8.F ==> rf.Get8(q) == Get8(q)
    {
      this.(f := FlagsByte(fl))
    }
  }

  /** The four flags as a value. */
  datatype Flags = Flags(z: bool, n: bool, h: bool, c: bool)
  {
    /** The same flags with `flag` set to `on`. */
    function With(flag: FFlag, on: bool): Flags
    {
      match flag
      case Z => this.(z := on)
      case N => this.(n := on)
      case H => this.(h := on)
      case C => this.(c := on)
    }
  }

  /** The F byte holding `fl`: Z, N, H, C in bits 7 to 4, the low nibble clear. */
  function FlagsByte(fl: Flags): (b: bv8)
    ensures b & 0x0F == 0
  {
    (if fl.z then 0x80 else 0) | (if fl.n then 0x40 else 0)
    | (if fl.h then 0x20 else 0) | (if fl.c then 0x10 else 0)
  }

  /** Setting one bit of an F whose low nibble is clear changes that one flag and nothing else. */
  lemma WithFlagKeepsOthers(rf: RegFile, flag: FFlag, on: bool)
    requires rf.f & 0x0F == 0
    ensures rf.WithFlag(flag, on) == rf.WithFlags(rf.FlagsHeld().With(flag, on))
  {
  }

  /**
   * The register file the CPU owns. Its twelve bytes are held as one `RegFile` value
   * that every write replaces.
   */
  class Registers {
    var rf: RegFile

    /** The low nibble of F is always zero. */
    ghost predicate Valid()
      reads this
    {
      rf.f & 0x0F == 0
    }

    /** All registers start at zero. */
    constructor ()
      ensures Valid()
      ensures forall r: R8 :: Get8(r) == 0
    {
      rf := RegFile(0, 0, 0, 0, 0, 0, 0, 0, 0, 0, 0, 0);
    }

    /** The current values of all registers. */
    function File(): RegFile
      reads this
    {
      rf
    }

    function Get8(r: R8): bv8
      reads this
    {
      rf.Get8(r)
    }

    /** A pair read big-endian: its high half is the high register, its low half the low one. */
    function Get16(r: R16): (v: bv16)
      reads this
      ensures Hi(v) == Get8(HiOf(r)) && Lo(v) == Get8(LoOf(r))
    {
      rf.Get16(r)
    }

    /** A flag is set when all bits of its mask are set in F. */
    function GetF(flag: FFlag): bool
      reads this
    {
      rf.GetF(flag)
    }

    method Set8(r: R8, v: bv8)
      requires Valid()
      modifies this
      ensures Valid()
      ensures File() == old(File()).With8(r, v)
    {
      rf := rf.With8(r, v);
    }

    method Set16(r: R16, v: bv16)
      requires Valid()
      modifies this
      ensures Valid()
      ensures File() == old(File()).With16(r, v)
    {
      rf := rf.With16(r, v);
    }

    /** Post-increment: returns the old value and leaves `old + n`. */
    method Get16I(r: R16, n: bv16) returns (v: bv16)
      requires Valid()
      requires Get16(r) <= 0xFFFF - n
      modifies this
      ensures Valid()
      ensures v == old(Get16(r))
      ensures File() == old(File()).With16(r, v + n)
    {
      v := Get16(r);
      Set16(r, v + n);
    }

    /** Post-decrement: returns the old value and leaves `old - n`. */
    method Get16D(r: R16, n: bv16) returns (v: bv16)
      requires Valid()
      requires n <= Get16(r)
      modifies this
      ensures Valid()
      ensures v == old(Get16(r))
      ensures File() == old(File()).With16(r, v - n)
    {
      v := Get16(r);
      Set16(r, v - n);
    }

    method Inc16(r: R16, n: bv16)
      requires Valid()
      requires Get16(r) <= 0xFFFF - n
      modifies this
      ensures Valid()
      ensures File() == old(File()).With16(r, old(Get16(r)) + n)
    {
      Set16(r, Get16(r) + n);
    }

    method Dec16(r: R16, n: bv16)
      requires Valid()
      requires n <= Get16(r)
      modifies this
      ensures Valid()
      ensures File() == old(File()).With16(r, old(Get16(r)) - n)
    {
      Set16(r, Get16(r) - n);
    }

    /** Sets or clears one flag; the other flags and registers keep their values. */
    method SetF(flag: FFlag, on: bool)
      requires Valid()
      modifies this
      ensures Valid()
      ensures File() == old(File()).WithFlags(old(File()).FlagsHeld().With(flag, on))
    {
      WithFlagKeepsOthers(rf, flag, on);
      rf := rf.WithFlag(flag, on);
    }
  }
}
