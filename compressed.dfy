/** The 8-bit variant: one-byte durations, the same nibble-packed codes, and
    an accessor that reads the record, the code and the dictionary straight
    out of program memory, byte by byte at computed addresses. */
module Compressed {
  import opened Platform
  import opened NibbleCode
  import RecordLayout
  import Codes

  /** One mark and the space after it, in cycles of the carrier, one byte each. */
  datatype BurstPair = BurstPair(on: Byte, off: Byte)

  /** sizeof(BurstPair): the stride of a dictionary in program memory. */
  const PAIR_SIZE: nat := 2

  /** The pair a `BurstUnion` holds when its uint16_t member is `w`: `on` is
      declared first, so on the little-endian target it is the low byte. */
  function PairOfWord(w: Word): (p: BurstPair)
    ensures WordOf(p.on, p.off) == w
  {
    BurstPair(w % 0x100, w / 0x100)
  }

  /** One word read fetches one whole pair. */
  lemma PairWordRoundTrip(p: BurstPair)
    ensures PairOfWord(WordOf(p.on, p.off)) == p
  {
  }

  /** One command: the same four fields, in the same order, as the main format. */
  datatype IRCode = IRCode(dict: seq<BurstPair>, code: seq<Nibbles>, codeLength: Byte, carrier: Byte)

  predicate WellFormed(r: IRCode)
  {
    Fits(|r.dict|, r.code, r.codeLength)
  }

  /** The burst sequence a record denotes. */
  function Expand(r: IRCode): seq<BurstPair>
    requires WellFormed(r)
  {
    Decode(r.dict, r.code, r.codeLength)
  }

  // Program memory

  /** The 64 KiB program-memory address space, every byte of it. */
  type Flash = Word -> Byte

  /** pgm_read_byte; pointer arithmetic is 16 bits wide and wraps. */
  function ReadByte(flash: Flash, addr: int): Byte
  {
    flash(addr % 0x1_0000)
  }

  /** pgm_read_word: two consecutive bytes, the lower address the low byte. */
  function ReadWord(flash: Flash, addr: int): Word
  {
    WordOf(ReadByte(flash, addr), ReadByte(flash, addr + 1))
  }

  /** Program memory holds `bytes` starting at address `at`. */
  predicate Holds(flash: Flash, at: int, bytes: seq<Byte>)
  {
    forall k :: 0 <= k < |bytes| ==> ReadByte(flash, at + k) == bytes[k]
  }

  /** The bytes of a dictionary: pairs back to back, `on` before `off`. */
  function DictBytes(dict: seq<BurstPair>): (s: seq<Byte>)
    ensures |s| == PAIR_SIZE * |dict|
    ensures forall k :: 0 <= k < |dict| ==> s[PAIR_SIZE * k] == dict[k].on && s[PAIR_SIZE * k + 1] == dict[k].off
  {
    seq(PAIR_SIZE * |dict|, j requires 0 <= j < PAIR_SIZE * |dict| =>
      if j % PAIR_SIZE == 0 then dict[j / PAIR_SIZE].on else dict[j / PAIR_SIZE].off)
  }

  /** The bytes of a packed code under bit-field placement `order`. */
  function CodeBytes(order: BitOrder, code: seq<Nibbles>): (s: seq<Byte>)
    ensures |s| == |code|
    ensures forall j :: 0 <= j < |code| ==> UnpackByte(order, s[j]) == code[j]
  {
    seq(|code|, j requires 0 <= j < |code| => PackByte(order, code[j]))
  }

  /** Record `r` is stored at `desired`, with its pointer fields holding
      `dictPtr` and `codePtr` and its dictionary and code stored there. */
  predicate Resident(flash: Flash, order: BitOrder, desired: Word, dictPtr: Word, codePtr: Word, r: IRCode)
  {
    Holds(flash, desired, RecordLayout.Image(dictPtr, codePtr, r.codeLength, r.carrier)) &&
    Holds(flash, dictPtr, DictBytes(r.dict)) &&
    Holds(flash, codePtr, CodeBytes(order, r.code))
  }

  // Accessors

  /** getLength: the byte at offset 4 of the record. */
  function GetLength(flash: Flash, desired: Word): (n: int)
    ensures 0 <= n < 0x100
  {
    ReadByte(flash, desired + 4)
  }

  /** getCarrier: the byte at offset 5 of the record. */
  function GetCarrier(flash: Flash, desired: Word): (n: int)
    ensures 0 <= n < 0x100
  {
    ReadByte(flash, desired + 5)
  }

  /** The index a decoding loop takes at position `i` of the code stored at
      `codeAddr`: byte i/2 read as a `NibbleUnion`, `lo` when i is odd. */
  function FetchIndex(flash: Flash, order: BitOrder, codeAddr: int, i: nat): Nibble
  {
    var n := UnpackByte(order, ReadByte(flash, codeAddr + i / 2));
    if i % 2 == 1 then n.lo else n.hi
  }

  /** The pair a decoding loop fetches for `index` from the dictionary stored
      at `dictAddr`: the word at stride sizeof(BurstPair). */
  function FetchPair(flash: Flash, dictAddr: int, index: Nibble): BurstPair
  {
    PairOfWord(ReadWord(flash, dictAddr + PAIR_SIZE * index))
  }

  /** What a decoding loop over `length` positions produces when it uses
      `dictAddr` as the dictionary and `codeAddr` as the code. */
  function DecodeAt(flash: Flash, order: BitOrder, dictAddr: int, codeAddr: int, length: nat): (s: seq<BurstPair>)
    ensures |s| == length
  {
    seq(length, i requires 0 <= i < length => FetchPair(flash, dictAddr, FetchIndex(flash, order, codeAddr, i)))
  }

  /** A sequence that agrees with a decoding loop position by position is
      what that loop produces. */
  lemma DecodeAtByPositions(flash: Flash, order: BitOrder, dictAddr: int, codeAddr: int, s: seq<BurstPair>)
    requires forall i :: 0 <= i < |s| ==> s[i] == FetchPair(flash, dictAddr, FetchIndex(flash, order, codeAddr, i))
    ensures s == DecodeAt(flash, order, dictAddr, codeAddr, |s|)
  {
  }

  /** A stored code byte read back and split by the same bit-field placement
      gives the stored indices. */
  lemma ReadCodeByte(flash: Flash, order: BitOrder, codePtr: Word, code: seq<Nibbles>, j: nat)
    requires Holds(flash, codePtr, CodeBytes(order, code))
    requires j < |code|
    ensures UnpackByte(order, ReadByte(flash, codePtr + j)) == code[j]
  {
    assert ReadByte(flash, codePtr + j) == CodeBytes(order, code)[j];
  }

  /** The word at stride sizeof(BurstPair) from a stored dictionary is the
      entry itself. */
  lemma ReadDictPair(flash: Flash, dictPtr: Word, dict: seq<BurstPair>, index: Nibble)
    requires Holds(flash, dictPtr, DictBytes(dict))
    requires index < |dict|
    ensures FetchPair(flash, dictPtr, index) == dict[index]
  {
    var bytes := DictBytes(dict);
    assert ReadByte(flash, dictPtr + PAIR_SIZE * index) == bytes[PAIR_SIZE * index];
    assert ReadByte(flash, dictPtr + PAIR_SIZE * index + 1) == bytes[PAIR_SIZE * index + 1];
    PairWordRoundTrip(dict[index]);
  }

  /** Decoding from the record's own dictionary and code pointers gives
      exactly the burst sequence the record denotes. */
  lemma DecodeAtResident(flash: Flash, order: BitOrder, desired: Word, dictPtr: Word, codePtr: Word, r: IRCode)
    requires Resident(flash, order, desired, dictPtr, codePtr, r)
    requires WellFormed(r)
    ensures DecodeAt(flash, order, dictPtr, codePtr, r.codeLength) == Expand(r)
  {
    var s := DecodeAt(flash, order, dictPtr, codePtr, r.codeLength);
    forall i | 0 <= i < r.codeLength
      ensures s[i] == Expand(r)[i]
    {
      ReadCodeByte(flash, order, codePtr, r.code, i / 2);
      ReadDictPair(flash, dictPtr, r.dict, IndexAt(r.code, i));
    }
  }

  /** getLength and getCarrier read a resident record's `codeLength` and
      `carrier`: offsets 4 and 5 are where the field order puts them. */
  lemma LengthAndCarrierOfResident(flash: Flash, order: BitOrder, desired: Word, dictPtr: Word, codePtr: Word, r: IRCode)
    requires Resident(flash, order, desired, dictPtr, codePtr, r)
    ensures GetLength(flash, desired) == r.codeLength
    ensures GetCarrier(flash, desired) == r.carrier
  {
    var img := RecordLayout.Image(dictPtr, codePtr, r.codeLength, r.carrier);
    assert ReadByte(flash, desired + RecordLayout.LENGTH_OFFSET) == img[RecordLayout.LENGTH_OFFSET];
    assert ReadByte(flash, desired + RecordLayout.CARRIER_OFFSET) == img[RecordLayout.CARRIER_OFFSET];
  }

  /** The two pointer words the accessor fetches at record offsets 2 and 4:
      the code pointer, and the length and carrier bytes taken together. */
  lemma FetchedPointers(flash: Flash, order: BitOrder, desired: Word, dictPtr: Word, codePtr: Word, r: IRCode)
    requires Resident(flash, order, desired, dictPtr, codePtr, r)
    ensures ReadWord(flash, desired + 2) == codePtr
    ensures ReadWord(flash, desired + 4) == r.codeLength + 0x100 * r.carrier
  {
    var img := RecordLayout.Image(dictPtr, codePtr, r.codeLength, r.carrier);
    RecordLayout.WordsAfterEachPointer(dictPtr, codePtr, r.codeLength, r.carrier);
    assert ReadByte(flash, desired + 2) == img[2] && ReadByte(flash, desired + 3) == img[3];
    assert ReadByte(flash, desired + 4) == img[4] && ReadByte(flash, desired + 5) == img[5];
  }

  /** The pointer words at record offsets 0 and 2: the dictionary and code
      pointers, where the field order puts them. */
  lemma DeclaredPointers(flash: Flash, order: BitOrder, desired: Word, dictPtr: Word, codePtr: Word, r: IRCode)
    requires Resident(flash, order, desired, dictPtr, codePtr, r)
    ensures ReadWord(flash, desired + RecordLayout.DICT_OFFSET) == dictPtr
    ensures ReadWord(flash, desired + RecordLayout.CODE_OFFSET) == codePtr
  {
    var img := RecordLayout.Image(dictPtr, codePtr, r.codeLength, r.carrier);
    RecordLayout.FieldsAtDeclaredOffsets(dictPtr, codePtr, r.codeLength, r.carrier);
    assert ReadByte(flash, desired + 0) == img[0] && ReadByte(flash, desired + 1) == img[1];
    assert ReadByte(flash, desired + 2) == img[2] && ReadByte(flash, desired + 3) == img[3];
  }

  /** With the pointers fetched where the field order puts them, any stored,
      decodable record comes back as exactly the burst sequence it denotes. */
  lemma CorrectedDecodesResident(flash: Flash, order: BitOrder, desired: Word, dictPtr: Word, codePtr: Word, r: IRCode)
    requires Resident(flash, order, desired, dictPtr, codePtr, r)
    requires WellFormed(r)
    ensures DecodeAt(flash, order, ReadWord(flash, desired), ReadWord(flash, desired + 2), GetLength(flash, desired))
         == Expand(r)
  {
    LengthAndCarrierOfResident(flash, order, desired, dictPtr, codePtr, r);
    DeclaredPointers(flash, order, desired, dictPtr, codePtr, r);
    DecodeAtResident(flash, order, desired, dictPtr, codePtr, r);
  }

  /** One iteration of the decoding loop: read code byte i/2 as a
      `NibbleUnion`, take `lo` when i is odd and `hi` when i is even, and read
      the `BurstUnion` word at that index times sizeof(BurstPair) from `dict`. */
  method LoadPair(flash: Flash, order: BitOrder, dict: int, code: int, i: nat) returns (p: BurstPair)
    ensures p == FetchPair(flash, dict, FetchIndex(flash, order, code, i))
  {
    var n := UnpackByte(order, ReadByte(flash, code + i / 2));
    var dictValue: Nibble;
    if i % 2 == 1 {
      dictValue := n.lo;
    } else {
      dictValue := n.hi;
    }
    var b := ReadWord(flash, dict + PAIR_SIZE * dictValue);
    p := PairOfWord(b);
  }

  /** The allocation and decoding loop both accessors share: `codeLength`
      fresh pairs, pair i loaded from `dict` at the index taken from `code`. */
  method DecodeInto(flash: Flash, order: BitOrder, dict: int, code: int, codeLength: Byte)
    returns (pairs: array<BurstPair>)
    ensures fresh(pairs)
    ensures pairs.Length == codeLength
    ensures pairs[..] == DecodeAt(flash, order, dict, code, codeLength)
  {
    pairs := new BurstPair[codeLength];
    for i := 0 to codeLength
      invariant forall k :: 0 <= k < i ==> pairs[k] == FetchPair(flash, dict, FetchIndex(flash, order, code, k))
    {
      pairs[i] := LoadPair(flash, order, dict, code, i);
    }
    DecodeAtByPositions(flash, order, dict, code, pairs[..]);
  }

  /** getCode as written: the cursor is advanced by 2 before each of the two
      pointer fetches, so it takes the word at offset 2 as the dictionary and
      the word at offset 4 as the code. On a resident record that is the code
      pointer and the length and carrier bytes. */
  method GetCode(flash: Flash, order: BitOrder, desired: Word) returns (pairs: array<BurstPair>)
    ensures fresh(pairs)
    ensures pairs.Length == GetLength(flash, desired)
    ensures pairs[..] == DecodeAt(flash, order, ReadWord(flash, desired + 2), ReadWord(flash, desired + 4),
                                  GetLength(flash, desired))
  {
    var current: int := desired;
    current := current + 2;
    var dict := ReadWord(flash, current);
    current := current + 2;
    var code := ReadWord(flash, current);
    assert current == desired + 4;
    var codeLength := GetLength(flash, desired);
    pairs := DecodeInto(flash, order, dict, code, codeLength);
  }

  /** getCode as evidently intended: the pointers are fetched at offsets 0 and
      2, where getLength and getCarrier (offsets 4 and 5) place them. A resident,
      decodable record then comes back as the burst sequence it denotes. */
  method GetCodeCorrected(flash: Flash, order: BitOrder, desired: Word) returns (pairs: array<BurstPair>)
    ensures fresh(pairs)
    ensures pairs.Length == GetLength(flash, desired)
    ensures pairs[..] == DecodeAt(flash, order, ReadWord(flash, desired), ReadWord(flash, desired + 2),
                                  GetLength(flash, desired))
  {
    var current: int := desired;
    var dict := ReadWord(flash, current);
    current := current + 2;
    var code := ReadWord(flash, current);
    var codeLength := GetLength(flash, desired);
    pairs := DecodeInto(flash, order, dict, code, codeLength);
  }

  // The one record of this variant

  const dict_panasonic: seq<BurstPair> := [BurstPair(16, 16), BurstPair(16, 48), BurstPair(128, 63), BurstPair(16, 255)]

  const code_panasonic_POWER_ON: seq<Nibbles> := [
    Nibbles(2, 0), Nibbles(1, 0), Nibbles(0, 0), Nibbles(0, 0), Nibbles(0, 0), Nibbles(0, 0), Nibbles(0, 0),
    Nibbles(1, 0), Nibbles(0, 0), Nibbles(0, 0), Nibbles(0, 0), Nibbles(0, 0), Nibbles(1, 0), Nibbles(0, 0),
    Nibbles(0, 0), Nibbles(0, 0), Nibbles(0, 0), Nibbles(1, 1), Nibbles(1, 1), Nibbles(1, 0), Nibbles(0, 0),
    Nibbles(1, 1), Nibbles(1, 1), Nibbles(1, 0), Nibbles(1, 3)]

  const POWER_ON: seq<IRCode> := [IRCode(dict_panasonic, code_panasonic_POWER_ON, 50, 14)]
  const POWER_ON_TOTAL: Byte := Codes.NumElem(POWER_ON, RecordLayout.RECORD_SIZE)

  /** The record's storage: a four-entry dictionary and 25 code bytes, every
      stored index below 4. */
  lemma PowerOnIndices()
    ensures |dict_panasonic| == 4 && |code_panasonic_POWER_ON| == 25
    ensures IndicesWithin(code_panasonic_POWER_ON, |dict_panasonic|)
  {
  }

  /** The record holds exactly its 50 indices, can be decoded, and denotes a
      burst sequence that starts with the (128, 63) header and ends with the
      (16, 255) trailer. */
  lemma PowerOnRecord()
    ensures POWER_ON_TOTAL == 1
    ensures |code_panasonic_POWER_ON| == BytesFor(POWER_ON[0].codeLength)
    ensures WellFormed(POWER_ON[0])
    ensures |Expand(POWER_ON[0])| == 50
    ensures Expand(POWER_ON[0])[0] == BurstPair(128, 63) && Expand(POWER_ON[0])[49] == BurstPair(16, 255)
  {
    PowerOnIndices();
    FitsByIndices(|dict_panasonic|, code_panasonic_POWER_ON, 50);
  }

  // A concrete placement of the record in program memory

  const DICT_AT: Word := 0x100
  const CODE_AT: Word := DICT_AT + PAIR_SIZE * |dict_panasonic|
  const RECORD_AT: Word := CODE_AT + |code_panasonic_POWER_ON|

  /** A code byte whose two indices are below 4 is at most 0x33. */
  lemma SmallIndicesPackSmall(order: BitOrder, n: Nibbles)
    requires n.hi < 4 && n.lo < 4
    ensures PackByte(order, n) <= 0x33
  {
  }

  /** Placed as above, every byte from the start of the code to the end of the
      record is at most 0x33: packed indices below 4, small pointer bytes, the
      length 50 and the carrier 14. */
  lemma BytesAfterDictionarySmall(flash: Flash, order: BitOrder, a: int)
    requires Resident(flash, order, RECORD_AT, DICT_AT, CODE_AT, POWER_ON[0])
    requires CODE_AT <= a < RECORD_AT + RecordLayout.RECORD_SIZE
    ensures ReadByte(flash, a) <= 0x33
  {
    if a < RECORD_AT {
      var j := a - CODE_AT;
      PowerOnIndices();
      assert ReadByte(flash, CODE_AT + j) == CodeBytes(order, code_panasonic_POWER_ON)[j];
      SmallIndicesPackSmall(order, code_panasonic_POWER_ON[j]);
    } else {
      var j := a - RECORD_AT;
      assert ReadByte(flash, RECORD_AT + j) == RecordLayout.Image(DICT_AT, CODE_AT, 50, 14)[j];
    }
  }

  /** The `on` byte of the first pair a decoding loop produces is the byte at
      the dictionary address plus the stride times the first index. */
  lemma FirstOnByte(flash: Flash, order: BitOrder, dictAddr: int, codeAddr: int, pairs: seq<BurstPair>)
    requires |pairs| > 0
    requires pairs == DecodeAt(flash, order, dictAddr, codeAddr, |pairs|)
    ensures pairs[0].on == ReadByte(flash, dictAddr + PAIR_SIZE * FetchIndex(flash, order, codeAddr, 0))
  {
    var a := dictAddr + PAIR_SIZE * FetchIndex(flash, order, codeAddr, 0);
    WordOfParts(ReadByte(flash, a), ReadByte(flash, a + 1));
  }

  /** As written, the accessor misreads this record wherever the rest of
      program memory holds: the result has the right length, but it takes the
      code pointer for the dictionary, so its first pair's `on` byte comes
      from the code bytes or the record itself and cannot be the 128 of the
      header the record denotes. */
  lemma AsWrittenMisreadsPowerOn(flash: Flash, order: BitOrder, pairs: seq<BurstPair>)
    requires Resident(flash, order, RECORD_AT, DICT_AT, CODE_AT, POWER_ON[0])
    requires pairs == DecodeAt(flash, order, ReadWord(flash, RECORD_AT + 2), ReadWord(flash, RECORD_AT + 4),
                               GetLength(flash, RECORD_AT))
    ensures |pairs| == 50
    ensures pairs[0].on <= 0x33
    ensures WellFormed(POWER_ON[0]) && pairs != Expand(POWER_ON[0])
  {
    var r := POWER_ON[0];
    PowerOnRecord();
    LengthAndCarrierOfResident(flash, order, RECORD_AT, DICT_AT, CODE_AT, r);
    FetchedPointers(flash, order, RECORD_AT, DICT_AT, CODE_AT, r);
    var codeAddr := ReadWord(flash, RECORD_AT + 4);
    assert ReadWord(flash, RECORD_AT + 2) == CODE_AT;
    FirstOnByte(flash, order, CODE_AT, codeAddr, pairs);
    BytesAfterDictionarySmall(flash, order, CODE_AT + PAIR_SIZE * FetchIndex(flash, order, codeAddr, 0));
  }

  /** With the pointers fetched where the field order puts them, the same
      placement decodes to exactly the burst sequence the record denotes. */
  lemma CorrectedDecodesPowerOn(flash: Flash, order: BitOrder, pairs: seq<BurstPair>)
    requires Resident(flash, order, RECORD_AT, DICT_AT, CODE_AT, POWER_ON[0])
    requires pairs == DecodeAt(flash, order, ReadWord(flash, RECORD_AT), ReadWord(flash, RECORD_AT + 2),
                               GetLength(flash, RECORD_AT))
    ensures |pairs| == 50
    ensures pairs[0] == BurstPair(128, 63) && pairs[49] == BurstPair(16, 255)
    ensures WellFormed(POWER_ON[0]) && pairs == Expand(POWER_ON[0])
  {
    PowerOnRecord();
    LengthAndCarrierOfResident(flash, order, RECORD_AT, DICT_AT, CODE_AT, POWER_ON[0]);
    DeclaredPointers(flash, order, RECORD_AT, DICT_AT, CODE_AT, POWER_ON[0]);
    DecodeAtResident(flash, order, RECORD_AT, DICT_AT, CODE_AT, POWER_ON[0]);
  }
}
