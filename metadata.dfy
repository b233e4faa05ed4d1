/**
 * The cartridge header: the title at 0x134..=0x142, the cartridge-type byte at 0x147
 * and the ROM/RAM size codes at 0x148 and 0x149.
 */
module CartridgeMetadata {
  import opened RomSizeType
  import opened RamSizeType

  const TitleAddressMin: nat := 0x134
  const TitleAddressMax: nat := 0x142
  const TypeAddress: nat := 0x147
  const RomSizeAddress: nat := 0x148
  const RamSizeAddress: nat := 0x149

  /** A UTF-8 continuation byte, 10xxxxxx. */
  predicate IsContinuation(b: bv8)
  {
    0x80 <= b <= 0xBF
  }

  /**
   * Well-formed UTF-8 as `str::from_utf8` accepts it: the byte-sequence grammar of
   * section 4 of RFC 3629 (no overlong forms, no surrogates, nothing above U+10FFFF).
   */
  predicate ValidUtf8(s: seq<bv8>)
    decreases |s|
  {
    if s == [] then true
    else if s[0] < 0x80 then ValidUtf8(s[1..])
    else if 0xC2 <= s[0] <= 0xDF then
      |s| >= 2 && IsContinuation(s[1]) && ValidUtf8(s[2..])
    else if s[0] == 0xE0 then
      |s| >= 3 && 0xA0 <= s[1] <= 0xBF && IsContinuation(s[2]) && ValidUtf8(s[3..])
    else if (0xE1 <= s[0] <= 0xEC) || (0xEE <= s[0] <= 0xEF) then
      |s| >= 3 && IsContinuation(s[1]) && IsContinuation(s[2]) && ValidUtf8(s[3..])
    else if s[0] == 0xED then
      |s| >= 3 && 0x80 <= s[1] <= 0x9F && IsContinuation(s[2]) && ValidUtf8(s[3..])
    else if s[0] == 0xF0 then
      |s| >= 4 && 0x90 <= s[1] <= 0xBF && IsContinuation(s[2]) && IsContinuation(s[3])
      && ValidUtf8(s[4..])
    else if 0xF1 <= s[0] <= 0xF3 then
      |s| >= 4 && IsContinuation(s[1]) && IsContinuation(s[2]) && IsContinuation(s[3])
      && ValidUtf8(s[4..])
    else if s[0] == 0xF4 then
      |s| >= 4 && 0x80 <= s[1] <= 0x8F && IsContinuation(s[2]) && IsContinuation(s[3])
      && ValidUtf8(s[4..])
    else false
  }

  /** Plain ASCII is valid UTF-8, so an ASCII title never aborts the parse. */
  lemma {:induction false} AsciiIsUtf8(s: seq<bv8>)
    requires forall k :: 0 <= k < |s| ==> s[k] < 0x80
    ensures ValidUtf8(s)
    decreases |s|
  {
    if s != [] {
      AsciiIsUtf8(s[1..]);
    }
  }

  /** The number of NUL bytes at the front. */
  function LeadingNuls(s: seq<bv8>): (n: nat)
    ensures n <= |s|
    ensures forall k :: 0 <= k < n ==> s[k] == 0
    ensures n < |s| ==> s[n] != 0
    decreases |s|
  {
    if s == [] || s[0] != 0 then 0 else 1 + LeadingNuls(s[1..])
  }

  /** The number of NUL bytes at the back. */
  function TrailingNuls(s: seq<bv8>): (n: nat)
    ensures n <= |s|
    ensures forall k :: |s| - n <= k < |s| ==> s[k] == 0
    ensures n < |s| ==> s[|s| - 1 - n] != 0
    decreases |s|
  {
    if s == [] || s[|s| - 1] != 0 then 0 else 1 + TrailingNuls(s[..|s| - 1])
  }

  /**
   * `trim_matches(char::from(0))` on the title. U+0000 is the single byte 0x00 in UTF-8
   * and 0x00 never occurs inside a longer encoding, so trimming NUL characters is
   * trimming 0x00 bytes.
   */
  function TrimNul(s: seq<bv8>): (t: seq<bv8>)
    ensures |t| + LeadingNuls(s) <= |s|
    ensures forall k :: 0 <= k < |t| ==> t[k] == s[LeadingNuls(s) + k]
    ensures forall k :: LeadingNuls(s) + |t| <= k < |s| ==> s[k] == 0
    ensures t == [] || (t[0] != 0 && t[|t| - 1] != 0)
  {
    var lead := LeadingNuls(s);
    if lead == |s| then []
    else
      var trail := TrailingNuls(s);
      assert trail < |s| - lead by {
        assert s[lead] != 0;
      }
      s[lead..|s| - trail]
  }

  /** Trimming a trimmed title changes nothing. */
  lemma TrimNulIdempotent(s: seq<bv8>)
    ensures TrimNul(TrimNul(s)) == TrimNul(s)
  {
    var t := TrimNul(s);
    if t != [] {
      assert LeadingNuls(t) == 0;
      assert TrailingNuls(t) == 0;
    }
  }

  /**
   * The parsed header. The title keeps its UTF-8 bytes; the cartridge type keeps its
   * raw code (the enum it is decoded into is not part of this model).
   */
  datatype Metadata = Metadata(title: seq<bv8>, cartridgeType: bv8, romSize: RomSize, ramSize: RamSize)

  /** A header `MetadataOf` can produce. */
  predicate WellFormed(m: Metadata)
  {
    IsRomSize(m.romSize) && IsRamSize(m.ramSize)
  }

  /** The title bytes 0x134..=0x142 of an image. */
  function TitleField(bytes: seq<bv8>): (f: seq<bv8>)
    requires |bytes| > TitleAddressMax
    ensures |f| == 15
    ensures forall k :: 0 <= k < 15 ==> f[k] == bytes[TitleAddressMin + k]
  {
    bytes[TitleAddressMin..TitleAddressMax + 1]
  }

  /** What `Metadata::from` needs not to abort: every header byte present and decodable. */
  predicate CanParse(bytes: seq<bv8>)
  {
    |bytes| > RamSizeAddress
    && ValidUtf8(TitleField(bytes))
    && IsRamSizeCode(bytes[RamSizeAddress])
    && IsRomSizeCode(bytes[RomSizeAddress])
  }

  /** `Metadata::from`: reads the header fields out of the image. */
  function MetadataOf(bytes: seq<bv8>): (m: Metadata)
    requires CanParse(bytes)
    ensures WellFormed(m)
    ensures m.cartridgeType == bytes[TypeAddress]
    ensures m.romSize == RomSizeOf(bytes[RomSizeAddress])
    ensures m.ramSize == RamSizeOf(bytes[RamSizeAddress])
    ensures LeadingNuls(TitleField(bytes)) + |m.title| <= 15
    ensures forall k :: 0 <= k < |m.title| ==> m.title[k] == bytes[TitleAddressMin + LeadingNuls(TitleField(bytes)) + k]
    ensures forall k :: TitleAddressMin + LeadingNuls(TitleField(bytes)) + |m.title| <= k <= TitleAddressMax ==> bytes[k] == 0
    ensures m.title == [] || (m.title[0] != 0 && m.title[|m.title| - 1] != 0)
  {
    var title := TrimNul(TitleField(bytes));
    var ramSize := RamSizeOf(bytes[RamSizeAddress]);
    var romSize := RomSizeOf(bytes[RomSizeAddress]);
    Metadata(title, bytes[TypeAddress], romSize, ramSize)
  }
}
