/** The byte image of one `IRCode` record in program memory. Both packed
    variants declare the fields in the order dict, code, codeLength, carrier:
    two 16-bit pointers followed by two bytes, without padding on the 8-bit
    target. */
module RecordLayout {
  import opened Platform

  const DICT_OFFSET: nat := 0
  const CODE_OFFSET: nat := DICT_OFFSET + POINTER_SIZE
  const LENGTH_OFFSET: nat := CODE_OFFSET + POINTER_SIZE
  const CARRIER_OFFSET: nat := LENGTH_OFFSET + 1
  const RECORD_SIZE: nat := CARRIER_OFFSET + 1

  /** The six bytes of a record whose pointers hold `dictPtr` and `codePtr`. */
  function Image(dictPtr: Word, codePtr: Word, codeLength: Byte, carrier: Byte): (img: seq<Byte>)
    ensures |img| == RECORD_SIZE
  {
    [dictPtr % 0x100, dictPtr / 0x100, codePtr % 0x100, codePtr / 0x100, codeLength, carrier]
  }

  /** pgm_read_byte at a byte offset into a record image. */
  function ByteAt(img: seq<Byte>, offset: nat): Byte
    requires offset < |img|
  {
    img[offset]
  }

  /** pgm_read_word at a byte offset into a record image. */
  function WordAt(img: seq<Byte>, offset: nat): Word
    requires offset + 1 < |img|
  {
    WordOf(img[offset], img[offset + 1])
  }

  /** Reading each field at its declared offset gives back what the record
      was built from: the dict pointer at 0, the code pointer at
      sizeof(BurstPair*) = 2, the length at sizeof(BurstPair*) + sizeof(Nibbles*)
      = 4 and the carrier one byte further, whatever the pointers hold. */
  lemma FieldsAtDeclaredOffsets(dictPtr: Word, codePtr: Word, codeLength: Byte, carrier: Byte)
    ensures WordAt(Image(dictPtr, codePtr, codeLength, carrier), DICT_OFFSET) == dictPtr
    ensures WordAt(Image(dictPtr, codePtr, codeLength, carrier), CODE_OFFSET) == codePtr
    ensures ByteAt(Image(dictPtr, codePtr, codeLength, carrier), LENGTH_OFFSET) == codeLength
    ensures ByteAt(Image(dictPtr, codePtr, codeLength, carrier), CARRIER_OFFSET) == carrier
  {
    WordSplit(dictPtr);
    WordSplit(codePtr);
  }

  /** The two words one pointer size further on: the code pointer, and then the
      length and carrier bytes read together as one little-endian word. */
  lemma WordsAfterEachPointer(dictPtr: Word, codePtr: Word, codeLength: Byte, carrier: Byte)
    ensures WordAt(Image(dictPtr, codePtr, codeLength, carrier), DICT_OFFSET + POINTER_SIZE) == codePtr
    ensures WordAt(Image(dictPtr, codePtr, codeLength, carrier), CODE_OFFSET + POINTER_SIZE)
         == codeLength + 0x100 * carrier
  {
    WordSplit(codePtr);
  }
}
