/** Fixed-width integers of the 8-bit AVR target that runs the firmware.
    The tables of the main and 8-bit formats live in program memory; pointers
    are 16 bits wide and multi-byte values are stored little-endian (the
    byte at the lower address is the less significant one). */
module Platform {

  /** uint8_t */
  type Byte = b: int | 0 <= b < 0x100

  /** uint16_t; also the width of every data pointer on the target */
  type Word = w: int | 0 <= w < 0x1_0000

  /** uint32_t */
  type Dword = d: int | 0 <= d < 0x1_0000_0000

  /** sizeof(T*) for any data pointer T* */
  const POINTER_SIZE: nat := 2

  /** The 16-bit value of two consecutive bytes, `low` at the lower address. */
  function WordOf(low: Byte, high: Byte): Word
  {
    low + 0x100 * high
  }

  /** The 32-bit value of two consecutive 16-bit halves, `low` at the lower address. */
  function DwordOf(low: Word, high: Word): (d: Dword)
    ensures d % 0x1_0000 == low && d / 0x1_0000 == high
  {
    low + 0x1_0000 * high
  }

  /** The two bytes of a composed word are the bytes it was composed from. */
  lemma WordOfParts(low: Byte, high: Byte)
    ensures WordOf(low, high) % 0x100 == low && WordOf(low, high) / 0x100 == high
  {
  }

  /** Splitting a word into its two bytes and composing them again gives the word back. */
  lemma WordSplit(w: Word)
    ensures WordOf(w % 0x100, w / 0x100) == w
  {
  }
}
