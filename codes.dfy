/** The main format and its accessors: 16-bit burst pairs, a per-manufacturer
    dictionary, and a nibble-packed index sequence per command. Program-memory
    reads are reads of immutable sequences: a record carries the dictionary
    and the code its two pointers refer to. */
module Codes {
  import opened Platform
  import opened NibbleCode
  import RecordLayout

  /** One mark and the space after it, measured in cycles of the carrier. */
  datatype BurstPair = BurstPair(on: Word, off: Word)

  /** The pair a `BurstUnion` holds when its uint32_t member is `d`: `on` is
      declared first, so on the little-endian target it is the low half. */
  function PairOfDword(d: Dword): (p: BurstPair)
    ensures DwordOf(p.on, p.off) == d
  {
    BurstPair(d % 0x1_0000, d / 0x1_0000)
  }

  /** One dword read fetches one whole pair: the dword a pair is stored as
      reads back as that same pair. */
  lemma PairDwordRoundTrip(p: BurstPair)
    ensures PairOfDword(DwordOf(p.on, p.off)) == p
  {
  }

  /** One command for one manufacturer. `codeLength` counts indices (nibbles),
      not bytes. */
  datatype IRCode = IRCode(dict: seq<BurstPair>, code: seq<Nibbles>, codeLength: Byte, carrier: Byte)

  /** NUM_ELEM(x): sizeof(x) / sizeof(*x), the element count of a statically
      sized array whose elements occupy `elementSize` bytes each. */
  function NumElem<T>(table: seq<T>, elementSize: nat): (n: nat)
    requires elementSize > 0
    ensures n == |table|
  {
    MulDivCancel(|table|, elementSize);
    (|table| * elementSize) / elementSize
  }

  lemma MulDivCancel(a: nat, b: nat)
    requires b > 0
    ensures (a * b) / b == a
  {
    var q := (a * b) / b;
    ScaledGap(a - q, b);
    assert (a - q) * b == a * b - q * b;
  }

  /** A nonzero multiple of `b` is at least `b` away from zero. */
  lemma ScaledGap(x: int, b: int)
    requires b > 0
    ensures x >= 1 ==> x * b >= b
    ensures x <= -1 ==> x * b <= -b
  {
  }

  /** The record can be decoded: its storage holds `codeLength` indices and
      each names an entry of its dictionary. The format itself never checks
      this; the decoder demands it. */
  predicate WellFormed(r: IRCode)
  {
    Fits(|r.dict|, r.code, r.codeLength)
  }

  /** The burst sequence a record denotes. */
  function Expand(r: IRCode): seq<BurstPair>
    requires WellFormed(r)
  {
    Decode(r.dict, r.code, r.codeLength)
  }

  /** getLength: the byte at offset sizeof(BurstPair*) + sizeof(Nibbles*) of
      the record, which is its `codeLength`, whatever its pointers hold. */
  function GetLength(desired: IRCode): (n: int)
    ensures 0 <= n < 0x100
    ensures forall dictPtr: Word, codePtr: Word ::
      n == RecordLayout.ByteAt(RecordLayout.Image(dictPtr, codePtr, desired.codeLength, desired.carrier),
                               RecordLayout.LENGTH_OFFSET)
  {
    desired.codeLength
  }

  /** getCarrier: the byte one past the length, which is the `carrier`. */
  function GetCarrier(desired: IRCode): (n: int)
    ensures 0 <= n < 0x100
    ensures forall dictPtr: Word, codePtr: Word ::
      n == RecordLayout.ByteAt(RecordLayout.Image(dictPtr, codePtr, desired.codeLength, desired.carrier),
                               RecordLayout.CARRIER_OFFSET)
  {
    desired.carrier
  }

  /** getCode: allocates `codeLength` pairs and fills position i from byte
      i/2 of the code, its `lo` index when i is odd and its `hi` index when i
      is even. `codeBytesRead` records which code bytes the loop reads. */
  method GetCode(desired: IRCode) returns (pairs: array<BurstPair>, ghost codeBytesRead: set<nat>)
    requires WellFormed(desired)
    ensures fresh(pairs)
    ensures pairs.Length == GetLength(desired)
    ensures forall i :: 0 <= i < pairs.Length ==> pairs[i] == desired.dict[IndexAt(desired.code, i)]
    ensures pairs[..] == Expand(desired)
    ensures codeBytesRead == BytesTouched(desired.codeLength)
  {
    var dict := desired.dict;
    var code := desired.code;
    var codeLength := GetLength(desired);
    pairs := new BurstPair[codeLength];
    codeBytesRead := {};
    for i := 0 to codeLength
      invariant forall k :: 0 <= k < i ==> pairs[k] == dict[IndexAt(code, k)]
      invariant codeBytesRead == BytesTouched(i)
    {
      assert IndexAt(code, i) < |dict|;
      var n := code[i / 2];
      codeBytesRead := codeBytesRead + {i / 2};
      if i % 2 == 1 {
        pairs[i] := dict[n.lo];
      } else {
        pairs[i] := dict[n.hi];
      }
    }
  }

  /** Two calls on one record give two distinct arrays with equal contents:
      the accessor is deterministic and its results never alias. */
  method GetCodeTwice(desired: IRCode) returns (first: array<BurstPair>, second: array<BurstPair>)
    requires WellFormed(desired)
    ensures fresh(first) && fresh(second) && first != second
    ensures first[..] == second[..]
  {
    ghost var read;
    first, read := GetCode(desired);
    second, read := GetCode(desired);
  }
}
