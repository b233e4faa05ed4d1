/**
 * OAM search (mode 2): over 80 dots the PPU looks at the 40 OAM entries, one every
 * two dots, and collects into the sprite buffer, in OAM order, up to ten sprites that
 * cover the current line.
 */
module OamSearch {
  import opened Sprite
  import Lcdc
  import Mmu

  /** OAM holds forty four-byte entries. */
  const Entries: nat := 40

  /** The sprite buffer keeps at most ten sprites per line. */
  const BufferCapacity: nat := 10

  /** OAM entry `e` read as a sprite from bytes `4e` to `4e + 3`. */
  function Entry(oam: seq<bv8>, e: nat): (s: Sprite)
    requires |oam| == 0xA0 && e < Entries
    ensures [s.y, s.x, s.tiledataIndex, s.flags.bits] == oam[4 * e .. 4 * e + 4]
  {
    FromBytes(oam[4 * e .. 4 * e + 4])
  }

  /**
   * Whether a sprite covers line `ly`: it is not hidden at x = 0 and its rows, which
   * start at screen line y - 16, include `ly` (sprites are `height` rows tall).
   */
  predicate OnLine(ly: bv8, s: Sprite, height: nat)
  {
    s.x > 0 && ly as int + 16 >= s.y as int && ly as int + 16 < s.y as int + height
  }

  /**
   * The test's `u8` sums do not overflow: `ly + 16` once x > 0, and `y + height` once
   * the sprite starts at or above the line (the conditions are evaluated left to right).
   */
  predicate CanTest(ly: bv8, s: Sprite, height: nat)
  {
    s.x > 0 ==> ly as int + 16 <= 0xFF && (ly as int + 16 >= s.y as int ==> s.y as int + height <= 0xFF)
  }

  /** With LY at most 223 the test never overflows, whatever OAM holds. */
  lemma CanTestOnScreen(ly: bv8, s: Sprite, height: nat)
    requires ly <= 223 && height <= 16
    ensures CanTest(ly, s, height)
  {
  }

  /** One evaluated entry: pushed when it covers the line and the buffer is not full. */
  function Admit(buffer: seq<Sprite>, s: Sprite, ly: bv8, height: nat): (r: seq<Sprite>)
    ensures r == buffer || r == buffer + [s]
    ensures r == buffer + [s] <==> OnLine(ly, s, height) && |buffer| < BufferCapacity
  {
    if OnLine(ly, s, height) && |buffer| < BufferCapacity then buffer + [s] else buffer
  }

  /** The buffer after evaluating the entries from `from` up to (not including) `until`. */
  function Scan(oam: seq<bv8>, ly: bv8, height: nat, buffer: seq<Sprite>, from: nat, until: nat): seq<Sprite>
    requires |oam| == 0xA0 && from <= until <= Entries
    decreases until
  {
    if until == from then buffer
    else Admit(Scan(oam, ly, height, buffer, from, until - 1), Entry(oam, until - 1), ly, height)
  }

  /** The entries from `from` up to `until` that cover the line, in OAM order. */
  function Visible(oam: seq<bv8>, ly: bv8, height: nat, from: nat, until: nat): seq<Sprite>
    requires |oam| == 0xA0 && from <= until <= Entries
    decreases until
  {
    if until == from then []
    else
      var e := Entry(oam, until - 1);
      Visible(oam, ly, height, from, until - 1) + (if OnLine(ly, e, height) then [e] else [])
  }

  /** The first `n` of `s`, or all of `s` when it is shorter. */
  function FirstFew<T>(s: seq<T>, n: nat): (r: seq<T>)
    ensures |r| == if |s| <= n then |s| else n
    ensures r == s[..|r|]
  {
    if |s| <= n then s else s[..n]
  }

  /**
   * The search keeps the first sprites that cover the line, in OAM order, as many as
   * the buffer has room for: starting from a buffer of at most ten, the result is that
   * buffer followed by the first `10 - |buffer|` visible entries.
   */
  lemma {:induction false} ScanKeepsFirstVisible(oam: seq<bv8>, ly: bv8, height: nat, buffer: seq<Sprite>, from: nat, until: nat)
    requires |oam| == 0xA0 && from <= until <= Entries && |buffer| <= BufferCapacity
    ensures Scan(oam, ly, height, buffer, from, until)
      == buffer + FirstFew(Visible(oam, ly, height, from, until), BufferCapacity - |buffer|)
    decreases until
  {
    if until > from {
      ScanKeepsFirstVisible(oam, ly, height, buffer, from, until - 1);
      ScanStep(oam, ly, height, buffer, from, until);
    } else {
      assert Visible(oam, ly, height, from, until) == [];
      assert buffer + [] == buffer;
    }
  }

  /** The step of `ScanKeepsFirstVisible`: one more entry keeps the property. */
  lemma ScanStep(oam: seq<bv8>, ly: bv8, height: nat, buffer: seq<Sprite>, from: nat, until: nat)
    requires |oam| == 0xA0 && from < until <= Entries && |buffer| <= BufferCapacity
    requires Scan(oam, ly, height, buffer, from, until - 1)
      == buffer + FirstFew(Visible(oam, ly, height, from, until - 1), BufferCapacity - |buffer|)
    ensures Scan(oam, ly, height, buffer, from, until)
      == buffer + FirstFew(Visible(oam, ly, height, from, until), BufferCapacity - |buffer|)
  {
    var e := Entry(oam, until - 1);
    var vis := Visible(oam, ly, height, from, until - 1);
    assert Visible(oam, ly, height, from, until) == vis + (if OnLine(ly, e, height) then [e] else []);
    AdmitKeepsFirst(buffer, vis, e, ly, height);
  }

  /** Admitting one entry after the first few visible ones keeps the first few of one more. */
  lemma AdmitKeepsFirst(buffer: seq<Sprite>, vis: seq<Sprite>, e: Sprite, ly: bv8, height: nat)
    requires |buffer| <= BufferCapacity
    ensures var k := BufferCapacity - |buffer|;
      Admit(buffer + FirstFew(vis, k), e, ly, height)
      == buffer + FirstFew(vis + (if OnLine(ly, e, height) then [e] else []), k)
  {
    var k := BufferCapacity - |buffer|;
    var ff := FirstFew(vis, k);
    var before := buffer + ff;
    if OnLine(ly, e, height) {
      FirstFewGrows(vis, e, k);
      if |vis| < k {
        assert |before| < BufferCapacity;
        assert buffer + (ff + [e]) == before + [e];
      } else {
        assert |before| == BufferCapacity;
      }
    } else {
      assert vis + [] == vis;
    }
  }

  /** One more element joins the first few only while there is room for it. */
  lemma FirstFewGrows<T>(s: seq<T>, x: T, n: nat)
    ensures FirstFew(s + [x], n) == if |s| < n then FirstFew(s, n) + [x] else FirstFew(s, n)
  {
    if |s| >= n {
      assert (s + [x])[..n] == s[..n];
    }
  }

  /** Evaluating entries in two runs is the same as evaluating them in one. */
  lemma {:induction false} ScanComposes(oam: seq<bv8>, ly: bv8, height: nat, buffer: seq<Sprite>, a: nat, b: nat, c: nat)
    requires |oam| == 0xA0 && a <= b <= c <= Entries
    ensures Scan(oam, ly, height, Scan(oam, ly, height, buffer, a, b), b, c) == Scan(oam, ly, height, buffer, a, c)
    decreases c
  {
    if c > b {
      ScanComposes(oam, ly, height, buffer, a, b, c - 1);
    }
  }

  class OAMSearch {
    var currentEntry: nat
    var cycleAvailable: nat

    /** An entry is evaluated on every second dot, so at most one dot is ever banked. */
    ghost predicate Valid()
      reads this
    {
      currentEntry < Entries && cycleAvailable <= 1
    }

    /** The calls made since the last reset: two per evaluated entry plus the banked dot. */
    function Calls(): nat
      reads this
    {
      2 * currentEntry + cycleAvailable
    }

    constructor ()
      ensures Valid() && currentEntry == 0 && cycleAvailable == 0
    {
      currentEntry, cycleAvailable := 0, 0;
    }

    /** The entry the next evaluation reads. */
    function Next(mmu: Mmu.MMU): Sprite
      reads this, mmu, mmu.oam
      requires Valid() && mmu.oam.Length == 0xA0
    {
      Entry(mmu.oam[..], currentEntry)
    }

    /** The `u8` overflow checks of the next call pass. */
    predicate CanCycle(mmu: Mmu.MMU)
      reads this, mmu, mmu.oam
      requires Valid() && mmu.oam.Length == 0xA0
    {
      cycleAvailable == 1 ==> CanTest(mmu.ly, Next(mmu), Lcdc.LCDC(mmu.lcdc).SpriteHeight())
    }

    /**
     * `cycle`: banks a dot; with two banked, evaluates the next entry against LY and
     * the sprite height from LCDC and moves on. The call that evaluates the fortieth
     * entry resets the search and returns true.
     */
    method Cycle(mmu: Mmu.MMU, buffer: seq<Sprite>) returns (done: bool, buffered: seq<Sprite>)
      requires Valid() && mmu.oam.Length == 0xA0 && CanCycle(mmu)
      modifies this
      ensures Valid()
      ensures done <==> old(Calls()) == 2 * Entries - 1
      ensures Calls() == if done then 0 else old(Calls()) + 1
      ensures old(cycleAvailable) == 0 ==> buffered == buffer && currentEntry == old(currentEntry)
      ensures old(cycleAvailable) == 1 ==>
        buffered == Scan(mmu.oam[..], mmu.ly, Lcdc.LCDC(mmu.lcdc).SpriteHeight(), buffer, old(currentEntry), old(currentEntry) + 1)
    {
      buffered := buffer;
      cycleAvailable := cycleAvailable + 1;
      if cycleAvailable >= 2 {
        cycleAvailable := cycleAvailable - 2;
        var ly := mmu.ly;
        var spriteHeight := Lcdc.LCDC(mmu.lcdc).SpriteHeight();
        var oamIndex := currentEntry * 4;
        var sprite := FromBytes([mmu.oam[oamIndex + 0], mmu.oam[oamIndex + 1], mmu.oam[oamIndex + 2], mmu.oam[oamIndex + 3]]);
        assert sprite == Entry(mmu.oam[..], currentEntry);
        if sprite.x > 0 && ly as int + 16 >= sprite.y as int && ly as int + 16 < sprite.y as int + spriteHeight
          && |buffered| < BufferCapacity
        {
          buffered := buffered + [sprite];
        }
        currentEntry := currentEntry + 1;
      }
      if currentEntry == Entries {
        Reset();
        done := true;
      } else {
        done := false;
      }
    }

    /** `reset`: back to the first entry with nothing banked. */
    method Reset()
      modifies this
      ensures Valid() && currentEntry == 0 && cycleAvailable == 0
    {
      cycleAvailable := 0;
      currentEntry := 0;
    }
  }
}
