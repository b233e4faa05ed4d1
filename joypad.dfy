/**
 * The joypad register P1 (0xFF00): a write selects the direction or the action keys,
 * a read reports the selected group with a pressed key as a zero bit.
 */
module Joypad {

  datatype Key = Start | Select | B | A | Down | Up | Left | Right

  /** Which key group a read reports; `None` until the first write. */
  datatype Mode = Direction | Action | None

  /** Bit `k` of a byte. */
  function BitOf(v: bv8, k: nat): bool
    requires k < 8
  {
    (v >> k) & 1 == 1
  }

  class JoyPad {
    var mode: Mode
    var start: bool
    var select: bool
    var b: bool
    var a: bool
    var down: bool
    var up: bool
    var left: bool
    var right: bool

    /** Whether a key is held. */
    function Pressed(k: Key): bool
      reads this
    {
      match k
      case Start => start
      case Select => select
      case B => b
      case A => a
      case Down => down
      case Up => up
      case Left => left
      case Right => right
    }

    /** No group selected and no key held. */
    constructor ()
      ensures mode == None
      ensures forall k: Key :: !Pressed(k)
    {
      mode := None;
      start, select, b, a := false, false, false, false;
      down, up, left, right := false, false, false, false;
    }

    /**
     * `write`: bit 5 clear selects the action keys, otherwise the direction keys. The
     * third branch of jimbot is guarded by `(v >> 4) & 0 == 0`, which always holds,
     * so after any write the mode is never `None`.
     */
    method Write(v: bv8)
      modifies this
      ensures mode == if (v >> 5) & 1 == 0 then Action else Direction
      ensures mode != None
      ensures forall k: Key :: Pressed(k) == old(Pressed(k))
    {
      if (v >> 5) & 1 == 0 {
        mode := Action;
      } else if (v >> 4) & 0 == 0 {
        mode := Direction;
      } else {
        // jimbot's `Mode::None` branch: its guard is never false
        assert false;
      }
    }

    /** `press`: marks one key as held. */
    method Press(k: Key)
      modifies this
      ensures Pressed(k)
      ensures forall q: Key :: q != k ==> Pressed(q) == old(Pressed(q))
      ensures mode == old(mode)
    {
      match k {
        case Start => start := true;
        case Select => select := true;
        case B => b := true;
        case A => a := true;
        case Down => down := true;
        case Up => up := true;
        case Left => left := true;
        case Right => right := true;
      }
    }

    /** `release`: marks one key as not held. */
    method Release(k: Key)
      modifies this
      ensures !Pressed(k)
      ensures forall q: Key :: q != k ==> Pressed(q) == old(Pressed(q))
      ensures mode == old(mode)
    {
      match k {
        case Start => start := false;
        case Select => select := false;
        case B => b := false;
        case A => a := false;
        case Down => down := false;
        case Up => up := false;
        case Left => left := false;
        case Right => right := false;
      }
    }

    /**
     * `bytes`: the value read at 0xFF00. With a group selected, bits 7 and 6 read 1,
     * bits 5/4 identify the group, and bits 3..0 read 0 exactly for the held keys
     * (Down/Up/Left/Right or Start/Select/B/A).
     */
    function Bytes(): (r: bv8)
      reads this
      ensures r == 0xFF <==> mode == None
      ensures mode != None ==> BitOf(r, 7) && BitOf(r, 6)
      ensures mode == Direction ==>
        !BitOf(r, 5) && BitOf(r, 4)
        && (BitOf(r, 3) <==> !down) && (BitOf(r, 2) <==> !up)
        && (BitOf(r, 1) <==> !left) && (BitOf(r, 0) <==> !right)
      ensures mode == Action ==>
        BitOf(r, 5) && !BitOf(r, 4)
        && (BitOf(r, 3) <==> !start) && (BitOf(r, 2) <==> !select)
        && (BitOf(r, 1) <==> !b) && (BitOf(r, 0) <==> !a)
    {
      match mode
      case None => 0xFF
      case Direction =>
        var byte: bv8 := 0xDF;
        var byte := if down then byte & 0xF7 else byte;
        var byte := if up then byte & 0xFB else byte;
        var byte := if left then byte & 0xFD else byte;
        if right then byte & 0xFE else byte
      case Action =>
        var byte: bv8 := 0xEF;
        var byte := if start then byte & 0xF7 else byte;
        var byte := if select then byte & 0xFB else byte;
        var byte := if b then byte & 0xFD else byte;
        if a then byte & 0xFE else byte
    }
  }
}
