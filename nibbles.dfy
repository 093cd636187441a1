/** The packed index sequence shared by the packed variants: a `Nibbles`
    byte holds two 4-bit dictionary indices, and a code is read as one
    sequential string of indices, the first-declared field `hi` before the
    second field `lo` of every byte. */
module NibbleCode {
  import opened Platform

  /** An `unsigned int x:4` bit-field: one dictionary index. */
  type Nibble = n: int | 0 <= n < 16

  /** Number of dictionary entries a 4-bit index can address. */
  const DICT_CAPACITY: nat := 16

  /** One byte of a packed code, as an ordered pair of indices. Which bits
      of the byte each field occupies is left to the compiler; see BitOrder. */
  datatype Nibbles = Nibbles(hi: Nibble, lo: Nibble)

  /** The index at position `i` of a packed code: byte i/2, its `lo` field
      when i is odd and its `hi` field when i is even. */
  function IndexAt(code: seq<Nibbles>, i: nat): Nibble
    requires i / 2 < |code|
  {
    if i % 2 == 1 then code[i / 2].lo else code[i / 2].hi
  }

  /** Every index below the 4-bit capacity: a dictionary longer than 16 entries
      has entries no code can reach. This holds by the `Nibble` type alone. */
  lemma IndexBelowCapacity(code: seq<Nibbles>, i: nat)
    requires i / 2 < |code|
    ensures IndexAt(code, i) < DICT_CAPACITY
  {
  }

  /** The sequential string a packed code stands for: each byte contributes
      its `hi` index and then its `lo` index. */
  function Unpack(code: seq<Nibbles>): (s: seq<Nibble>)
    ensures |s| == 2 * |code|
  {
    if code == [] then [] else [code[0].hi, code[0].lo] + Unpack(code[1..])
  }

  /** Position i of the sequential string is the index that the byte i/2,
      parity rule picks. */
  lemma {:induction false} UnpackAt(code: seq<Nibbles>, i: nat)
    requires i < 2 * |code|
    ensures Unpack(code)[i] == IndexAt(code, i)
  {
    if i >= 2 {
      UnpackAt(code[1..], i - 2);
      assert (i - 2) / 2 == i / 2 - 1 && (i - 2) % 2 == i % 2;
    }
  }

  lemma UnpackAll(code: seq<Nibbles>)
    ensures forall i :: 0 <= i < 2 * |code| ==> Unpack(code)[i] == IndexAt(code, i)
  {
    forall i | 0 <= i < 2 * |code| {
      UnpackAt(code, i);
    }
  }

  /** Number of code bytes a logical length of `length` indices occupies:
      two indices per byte, an odd length leaving the last `lo` unused. */
  function BytesFor(length: nat): (n: nat)
    ensures length <= 2 * n && 2 * n <= length + 1
  {
    (length + 1) / 2
  }

  /** The code bytes that positions 0 .. length-1 address: exactly bytes
      0 .. BytesFor(length)-1, none beyond and none skipped. */
  function BytesTouched(length: nat): (s: set<nat>)
    ensures forall j: nat :: j in s <==> j < BytesFor(length)
  {
    if length == 0 then {} else BytesTouched(length - 1) + {(length - 1) / 2}
  }

  /** A packed code of logical length `length` can be decoded against a
      dictionary of `dictSize` entries: its storage holds `length` indices and
      each of them names an entry. */
  predicate Fits(dictSize: nat, code: seq<Nibbles>, length: nat)
  {
    BytesFor(length) <= |code| &&
    forall i :: 0 <= i < length ==> IndexAt(code, i) < dictSize
  }

  /** Every index stored in `code`, used or not, names one of `dictSize` entries. */
  predicate IndicesWithin(code: seq<Nibbles>, dictSize: nat)
  {
    forall j :: 0 <= j < |code| ==> code[j].hi < dictSize && code[j].lo < dictSize
  }

  /** Each index of such a code is within the bound. */
  lemma IndexBelow(code: seq<Nibbles>, dictSize: nat, i: nat)
    requires IndicesWithin(code, dictSize)
    requires i / 2 < |code|
    ensures IndexAt(code, i) < dictSize
  {
  }

  /** A code whose every stored index names a dictionary entry fits any length
      its storage holds: the indices past the length never matter. */
  lemma FitsByIndices(dictSize: nat, code: seq<Nibbles>, length: nat)
    requires BytesFor(length) <= |code|
    requires IndicesWithin(code, dictSize)
    ensures Fits(dictSize, code, length)
  {
    forall i | 0 <= i < length
      ensures IndexAt(code, i) < dictSize
    {
      IndexBelow(code, dictSize, i);
    }
  }

  /** Each index of `indices` resolved through `dict`. */
  function Lookup<T>(dict: seq<T>, indices: seq<Nibble>): (s: seq<T>)
    requires forall k :: 0 <= k < |indices| ==> indices[k] < |dict|
    ensures |s| == |indices|
    ensures forall k :: 0 <= k < |s| ==> s[k] == dict[indices[k]]
  {
    if indices == [] then [] else [dict[indices[0]]] + Lookup(dict, indices[1..])
  }

  /** The burst sequence a packed code denotes: the first `length` indices of
      its sequential string, each looked up in the dictionary. Its contract
      is the per-position rule the decoder implements. */
  function Decode<T>(dict: seq<T>, code: seq<Nibbles>, length: nat): (s: seq<T>)
    requires Fits(|dict|, code, length)
    ensures |s| == length
    ensures forall i :: 0 <= i < length ==> s[i] == dict[IndexAt(code, i)]
  {
    UnpackAll(code);
    Lookup(dict, Unpack(code)[..length])
  }

  /** Decoding depends on the code bytes 0 .. BytesFor(length)-1 only: two codes
      that agree there decode alike, whatever follows. */
  lemma DecodeReadsOnlyPrefix<T>(dict: seq<T>, code: seq<Nibbles>, other: seq<Nibbles>, length: nat)
    requires Fits(|dict|, code, length)
    requires BytesFor(length) <= |other|
    requires other[..BytesFor(length)] == code[..BytesFor(length)]
    ensures Fits(|dict|, other, length)
    ensures Decode(dict, other, length) == Decode(dict, code, length)
  {
    forall i | 0 <= i < length
      ensures IndexAt(other, i) == IndexAt(code, i)
    {
      assert other[..BytesFor(length)][i / 2] == code[..BytesFor(length)][i / 2];
    }
  }

  /** Dictionary entries past the 4-bit capacity never reach the output. */
  lemma DecodeIgnoresEntriesPastCapacity<T>(dict: seq<T>, code: seq<Nibbles>, length: nat)
    requires Fits(|dict|, code, length)
    requires |dict| > DICT_CAPACITY
    ensures Fits(DICT_CAPACITY, code, length)
    ensures Decode(dict[..DICT_CAPACITY], code, length) == Decode(dict, code, length)
  {
  }

  /** Where the compiler places the first-declared field `hi` inside the byte.
      C leaves the allocation order of bit-fields to the implementation, so
      the model keeps both possibilities. */
  datatype BitOrder = HiInLowBits | HiInHighBits

  /** The byte a `NibbleUnion` holds when its `Nibbles` member is `n`. */
  function PackByte(order: BitOrder, n: Nibbles): Byte
  {
    match order
    case HiInLowBits => n.hi + 0x10 * n.lo
    case HiInHighBits => 0x10 * n.hi + n.lo
  }

  /** The `Nibbles` member a `NibbleUnion` holds when its byte member is `b`;
      packing it again gives the same byte. */
  function UnpackByte(order: BitOrder, b: Byte): (n: Nibbles)
    ensures PackByte(order, n) == b
  {
    match order
    case HiInLowBits => Nibbles(b % 0x10, b / 0x10)
    case HiInHighBits => Nibbles(b / 0x10, b % 0x10)
  }

  /** One byte carries exactly two indices: unpacking a packed byte gives back
      both indices, for either placement of the fields. */
  lemma UnpackPackByte(order: BitOrder, n: Nibbles)
    ensures UnpackByte(order, PackByte(order, n)) == n
  {
  }
}
