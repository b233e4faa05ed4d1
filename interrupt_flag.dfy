/**
 * The five interrupt sources, their handler addresses and the IF/IE byte that holds
 * one request bit per source (bit 0 VBlank ... bit 4 Joypad; bits 5-7 unused).
 */
module InterruptFlag {

  datatype InterruptRequest = VBlank | LCDStat | Timer | Serial | Joypad

  /** The bit a request occupies in IF and IE; a lower bit is a higher priority. */
  function Priority(r: InterruptRequest): (k: nat)
    ensures k < 5
  {
    match r
    case VBlank => 0
    case LCDStat => 1
    case Timer => 2
    case Serial => 3
    case Joypad => 4
  }

  /** The source whose request bit is `k`. */
  function RequestOf(k: nat): (r: InterruptRequest)
    requires k < 5
    ensures Priority(r) == k
  {
    if k == 0 then VBlank else if k == 1 then LCDStat else if k == 2 then Timer
    else if k == 3 then Serial else Joypad
  }

  /** `routine_location`: the handler address, one 8-byte slot per source from 0x40. */
  function RoutineLocation(r: InterruptRequest): (loc: bv16)
    ensures loc as int == 0x40 + 8 * Priority(r)
    ensures r == VBlank <==> loc == 0x40
    ensures r == LCDStat <==> loc == 0x48
    ensures r == Timer <==> loc == 0x50
    ensures r == Serial <==> loc == 0x58
    ensures r == Joypad <==> loc == 0x60
  {
    match r
    case VBlank => 0x40
    case LCDStat => 0x48
    case Timer => 0x50
    case Serial => 0x58
    case Joypad => 0x60
  }

  /** The request bit of a source: bit `Priority(r)`. */
  function Mask(r: InterruptRequest): bv8
  {
    match r
    case VBlank => 0x01
    case LCDStat => 0x02
    case Timer => 0x04
    case Serial => 0x08
    case Joypad => 0x10
  }

  /**
   * The IF/IE byte. Jimbot converts it from and to `u8` around every use, so it is
   * a value here: the in-place `enable_request`/`disable_request` return the updated value.
   */
  datatype Interrupts = Interrupts(bits: bv8)
  {
    /** `is_enable`: the request's bit is set. */
    function IsEnable(r: InterruptRequest): bool
    {
      match r
      case VBlank => bits & 1 == 1
      case LCDStat => (bits >> 1) & 1 == 1
      case Timer => (bits >> 2) & 1 == 1
      case Serial => (bits >> 3) & 1 == 1
      case Joypad => (bits >> 4) & 1 == 1
    }

    /** `get_request_by_priority`: the set request bits 0-4, highest priority first. */
    function GetRequestByPriority(): (rs: seq<InterruptRequest>)
      ensures forall r: InterruptRequest :: r in rs <==> IsEnable(r)
      ensures forall i, j :: 0 <= i < j < |rs| ==> Priority(rs[i]) < Priority(rs[j])
    {
      RequestsFrom(0)
    }

    /** The set request bits of priority `from` and lower, bit by bit as jimbot tests them. */
    function RequestsFrom(from: nat): (rs: seq<InterruptRequest>)
      requires from <= 5
      ensures forall r: InterruptRequest :: r in rs <==> IsEnable(r) && from <= Priority(r)
      ensures forall i, j :: 0 <= i < j < |rs| ==> Priority(rs[i]) < Priority(rs[j])
      decreases 5 - from
    {
      if from == 5 then []
      else (if IsEnable(RequestOf(from)) then [RequestOf(from)] else []) + RequestsFrom(from + 1)
    }

    /** `enable_request`: sets exactly the request's bit. */
    function EnableRequest(r: InterruptRequest): (i: Interrupts)
      ensures i.IsEnable(r)
      ensures i.bits & !Mask(r) == bits & !Mask(r)
      ensures forall q: InterruptRequest :: q != r ==> i.IsEnable(q) == IsEnable(q)
    {
      Interrupts(bits | Mask(r))
    }

    /** `disable_request`: clears exactly the request's bit. */
    function DisableRequest(r: InterruptRequest): (i: Interrupts)
      ensures !i.IsEnable(r)
      ensures i.bits & !Mask(r) == bits & !Mask(r)
      ensures forall q: InterruptRequest :: q != r ==> i.IsEnable(q) == IsEnable(q)
    {
      Interrupts(bits & !Mask(r))
    }
  }

  /** Enabling a request twice is the same as enabling it once. */
  lemma EnableIdempotent(i: Interrupts, r: InterruptRequest)
    ensures i.EnableRequest(r).EnableRequest(r) == i.EnableRequest(r)
  {
  }

  /** Clearing a request that was just set gives back the byte with that bit clear. */
  lemma DisableAfterEnable(i: Interrupts, r: InterruptRequest)
    ensures i.EnableRequest(r).DisableRequest(r) == i.DisableRequest(r)
  {
  }
}
