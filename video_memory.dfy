/**
 * The PPU's reads of tile maps and tile data. Every address the fetchers compute lies
 * in 0x8000-0x9FFF, where the bus reads video RAM, so the model reads video RAM there.
 */
module VideoMemory {
  import Mmu

  /** The byte at `address` in the 8 KiB of video RAM mapped from 0x8000. */
  function VideoByte(mmu: Mmu.MMU, address: int): bv8
    reads mmu, mmu.vram
    requires mmu.vram.Length == 0x2000 && 0x8000 <= address <= 0x9FFF
  {
    mmu.vram[address - 0x8000]
  }

  /** A bus read in the video RAM range never aborts and returns that byte. */
  lemma VideoByteIsGet(mmu: Mmu.MMU, address: int)
    requires mmu.Valid() && 0x8000 <= address <= 0x9FFF
    ensures mmu.vram.Length == 0x2000
    ensures mmu.CanGet(address) && mmu.Get(address) == VideoByte(mmu, address)
  {
  }
}
