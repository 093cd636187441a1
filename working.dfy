/** The unpacked variant: a record whose code stores one index per byte,
    kept beside the packed Panasonic power-on code it was expanded from. The
    variant has data only; decoding it is looking each byte up. */
module Working {
  import opened Platform
  import opened NibbleCode

  /** `int` on the 8-bit target: 16 bits, signed. */
  type Int16 = x: int | -0x8000 <= x < 0x8000

  /** One mark and the space after it, in cycles of the carrier. */
  datatype BurstPair = BurstPair(on: Int16, off: Int16)

  /** This variant's record: the carrier first, and the code as plain bytes,
      one dictionary index each. */
  datatype IRCode = IRCode(carrier: Byte, dict: seq<BurstPair>, code: seq<Byte>, codeLength: Byte)

  /** The burst sequence an unpacked code denotes: each of its first `length`
      bytes looked up in the dictionary. */
  function DecodeUnpacked<T>(dict: seq<T>, code: seq<Byte>, length: nat): (s: seq<T>)
    requires length <= |code|
    requires forall i :: 0 <= i < length ==> code[i] < |dict|
    ensures |s| == length
    ensures forall i :: 0 <= i < length ==> s[i] == dict[code[i]]
  {
    if length == 0 then [] else DecodeUnpacked(dict, code, length - 1) + [dict[code[length - 1]]]
  }

  /** Unpacking a packed code byte by byte, `hi` before `lo`, and then
      decoding it one byte per index gives what decoding the packed code
      gives. */
  lemma UnpackedDecodesAsPacked<T>(dict: seq<T>, code: seq<Nibbles>, length: nat)
    requires Fits(|dict|, code, length)
    ensures length <= |Unpack(code)|
    ensures forall i :: 0 <= i < length ==> Unpack(code)[i] < |dict|
    ensures DecodeUnpacked(dict, Unpack(code), length) == Decode(dict, code, length)
  {
    UnpackAll(code);
  }

  const dict_panasonic: seq<BurstPair> := [BurstPair(16, 16), BurstPair(16, 48), BurstPair(128, 63), BurstPair(16, 255)]

  const code_panasonic_POWER_ON: seq<Nibbles> := [
    Nibbles(2, 0), Nibbles(1, 0), Nibbles(0, 0), Nibbles(0, 0), Nibbles(0, 0), Nibbles(0, 0), Nibbles(0, 0),
    Nibbles(1, 0), Nibbles(0, 0), Nibbles(0, 0), Nibbles(0, 0), Nibbles(0, 0), Nibbles(1, 0), Nibbles(0, 0),
    Nibbles(0, 0), Nibbles(0, 0), Nibbles(0, 0), Nibbles(1, 1), Nibbles(1, 1), Nibbles(1, 0), Nibbles(0, 0),
    Nibbles(1, 1), Nibbles(1, 1), Nibbles(1, 0), Nibbles(1, 3)]

  const norm_dict: seq<BurstPair> := [BurstPair(16, 16), BurstPair(16, 48), BurstPair(128, 63), BurstPair(16, 255)]

  /** Written as five rows of ten bytes; the value is the one 50-byte array. */
  const norm_code: seq<Byte> :=
    [2, 0, 1, 0, 0, 0, 0, 0, 0, 0]
    + [0, 0, 0, 0, 1, 0, 0, 0, 0, 0]
    + [0, 0, 0, 0, 1, 0, 0, 0, 0, 0]
    + [0, 0, 0, 0, 1, 1, 1, 1, 1, 0]
    + [0, 0, 1, 1, 1, 1, 1, 0, 1, 3]

  /** The active record, carrier 14; the packed record it replaces stays
      commented out beside it. */
  const POWER_ON: seq<IRCode> := [IRCode(14, norm_dict, norm_code, 50)]

  /** Bytes 2j, 2j+1, ... of `norm` are the hi-then-lo expansion of bytes
      j, j+1, ... of `code`. */
  predicate ExpandsFrom(norm: seq<Byte>, code: seq<Nibbles>, j: nat)
    decreases |code| - j
  {
    if j >= |code| then |norm| == 2 * |code|
    else 2 * j + 1 < |norm| && norm[2 * j] == code[j].hi && norm[2 * j + 1] == code[j].lo && ExpandsFrom(norm, code, j + 1)
  }

  /** An expansion from byte j on is an expansion from every later byte on. */
  lemma {:induction false} ExpandsFromLater(norm: seq<Byte>, code: seq<Nibbles>, j: nat, k: nat)
    requires ExpandsFrom(norm, code, j)
    requires j <= k
    ensures ExpandsFrom(norm, code, k)
    decreases k - j
  {
    if j < k {
      ExpandsFromLater(norm, code, j + 1, k);
    }
  }

  /** A byte sequence that expands a packed code from its first byte on is
      the packed code's sequential string of indices. */
  lemma ExpansionIsUnpack(norm: seq<Byte>, code: seq<Nibbles>)
    requires ExpandsFrom(norm, code, 0)
    ensures |norm| == |Unpack(code)|
    ensures forall i :: 0 <= i < |norm| ==> norm[i] == Unpack(code)[i]
  {
    ExpandsFromLater(norm, code, 0, |code|);
    UnpackAll(code);
    forall i | 0 <= i < |norm|
      ensures norm[i] == IndexAt(code, i)
    {
      ExpandsFromLater(norm, code, 0, i / 2);
    }
  }

  // norm_code against code_panasonic_POWER_ON, five packed bytes at a time

  lemma NormCodeExpandsFrom20()
    ensures ExpandsFrom(norm_code, code_panasonic_POWER_ON, 20)
  {
    assert ExpandsFrom(norm_code, code_panasonic_POWER_ON, 25);
    assert ExpandsFrom(norm_code, code_panasonic_POWER_ON, 24);
    assert ExpandsFrom(norm_code, code_panasonic_POWER_ON, 23);
    assert ExpandsFrom(norm_code, code_panasonic_POWER_ON, 22);
    assert ExpandsFrom(norm_code, code_panasonic_POWER_ON, 21);
    assert ExpandsFrom(norm_code, code_panasonic_POWER_ON, 20);
  }

  lemma NormCodeExpandsFrom15()
    ensures ExpandsFrom(norm_code, code_panasonic_POWER_ON, 15)
  {
    NormCodeExpandsFrom20();
    assert ExpandsFrom(norm_code, code_panasonic_POWER_ON, 19);
    assert ExpandsFrom(norm_code, code_panasonic_POWER_ON, 18);
    assert ExpandsFrom(norm_code, code_panasonic_POWER_ON, 17);
    assert ExpandsFrom(norm_code, code_panasonic_POWER_ON, 16);
    assert ExpandsFrom(norm_code, code_panasonic_POWER_ON, 15);
  }

  lemma NormCodeExpandsFrom10()
    ensures ExpandsFrom(norm_code, code_panasonic_POWER_ON, 10)
  {
    NormCodeExpandsFrom15();
    assert ExpandsFrom(norm_code, code_panasonic_POWER_ON, 14);
    assert ExpandsFrom(norm_code, code_panasonic_POWER_ON, 13);
    assert ExpandsFrom(norm_code, code_panasonic_POWER_ON, 12);
    assert ExpandsFrom(norm_code, code_panasonic_POWER_ON, 11);
    assert ExpandsFrom(norm_code, code_panasonic_POWER_ON, 10);
  }

  lemma NormCodeExpandsFrom5()
    ensures ExpandsFrom(norm_code, code_panasonic_POWER_ON, 5)
  {
    NormCodeExpandsFrom10();
    assert ExpandsFrom(norm_code, code_panasonic_POWER_ON, 9);
    assert ExpandsFrom(norm_code, code_panasonic_POWER_ON, 8);
    assert ExpandsFrom(norm_code, code_panasonic_POWER_ON, 7);
    assert ExpandsFrom(norm_code, code_panasonic_POWER_ON, 6);
    assert ExpandsFrom(norm_code, code_panasonic_POWER_ON, 5);
  }

  lemma NormCodeExpandsFrom0()
    ensures ExpandsFrom(norm_code, code_panasonic_POWER_ON, 0)
  {
    NormCodeExpandsFrom5();
    assert ExpandsFrom(norm_code, code_panasonic_POWER_ON, 4);
    assert ExpandsFrom(norm_code, code_panasonic_POWER_ON, 3);
    assert ExpandsFrom(norm_code, code_panasonic_POWER_ON, 2);
    assert ExpandsFrom(norm_code, code_panasonic_POWER_ON, 1);
    assert ExpandsFrom(norm_code, code_panasonic_POWER_ON, 0);
  }

  /** The unpacked code is the hi-then-lo expansion of the packed one, and the
      two dictionaries are the same. */
  lemma NormalizedIsUnpacked()
    ensures norm_dict == dict_panasonic
    ensures |norm_code| == |Unpack(code_panasonic_POWER_ON)| == 50
    ensures forall i :: 0 <= i < 50 ==> norm_code[i] == Unpack(code_panasonic_POWER_ON)[i]
  {
    NormCodeExpandsFrom0();
    ExpansionIsUnpack(norm_code, code_panasonic_POWER_ON);
  }

  /** Every index stored in the packed code is below the four dictionary
      entries. */
  lemma PackedIndicesBelowFour()
    ensures |dict_panasonic| == 4
    ensures IndicesWithin(code_panasonic_POWER_ON, |dict_panasonic|)
  {
  }

  /** The active record holds exactly its 50 indices, every one below the
      four entries of its dictionary, and its carrier is 14. */
  lemma PowerOnRecord()
    ensures |POWER_ON| == 1 && POWER_ON[0].carrier == 14
    ensures |POWER_ON[0].code| == POWER_ON[0].codeLength == 50
    ensures |POWER_ON[0].dict| == 4
    ensures forall i :: 0 <= i < |POWER_ON[0].code| ==> POWER_ON[0].code[i] < |POWER_ON[0].dict|
  {
    var r := POWER_ON[0];
    assert r.code == norm_code && r.dict == norm_dict;
    NormCodeExpandsFrom0();
    PackedIndicesBelowFour();
    ExpansionWithin(norm_code, code_panasonic_POWER_ON, 4);
  }

  /** Expanding a packed code keeps every index it holds: a bound on the
      packed indices bounds every byte of the expansion. */
  lemma ExpansionWithin(norm: seq<Byte>, code: seq<Nibbles>, n: nat)
    requires ExpandsFrom(norm, code, 0)
    requires IndicesWithin(code, n)
    ensures |norm| == 2 * |code|
    ensures forall i :: 0 <= i < |norm| ==> norm[i] < n
  {
    ExpansionIsUnpack(norm, code);
    UnpackAll(code);
    forall i | 0 <= i < |norm|
      ensures norm[i] < n
    {
      IndexBelow(code, n, i);
    }
  }

  /** A byte sequence that expands a packed code decodes, one byte per index,
      to what the packed code decodes to. */
  lemma ExpansionDecodesAsPacked<T>(dict: seq<T>, norm: seq<Byte>, code: seq<Nibbles>, length: nat)
    requires ExpandsFrom(norm, code, 0)
    requires Fits(|dict|, code, length)
    ensures length <= |norm|
    ensures forall i :: 0 <= i < length ==> norm[i] < |dict|
    ensures DecodeUnpacked(dict, norm, length) == Decode(dict, code, length)
  {
    ExpansionIsUnpack(norm, code);
    UnpackedDecodesAsPacked(dict, code, length);
    DecodeUnpackedAgree(dict, Unpack(code), norm, length);
  }

  /** The active unpacked record and the commented packed record it replaces
      denote the same burst sequence. */
  lemma ActiveRecordMatchesPacked()
    ensures Fits(|dict_panasonic|, code_panasonic_POWER_ON, 50)
    ensures DecodeUnpacked(norm_dict, norm_code, 50) == Decode(dict_panasonic, code_panasonic_POWER_ON, 50)
  {
    PackedIndicesBelowFour();
    FitsByIndices(|dict_panasonic|, code_panasonic_POWER_ON, 50);
    NormCodeExpandsFrom0();
    ExpansionDecodesAsPacked(dict_panasonic, norm_code, code_panasonic_POWER_ON, 50);
    assert norm_dict == dict_panasonic;
  }

  /** Decoding reads only the first `length` bytes of an unpacked code: two
      codes that agree there decode alike. */
  lemma DecodeUnpackedAgree<T>(dict: seq<T>, code: seq<Byte>, other: seq<Byte>, length: nat)
    requires length <= |code| && length <= |other|
    requires forall i :: 0 <= i < length ==> code[i] == other[i]
    requires forall i :: 0 <= i < length ==> code[i] < |dict|
    ensures forall i :: 0 <= i < length ==> other[i] < |dict|
    ensures DecodeUnpacked(dict, code, length) == DecodeUnpacked(dict, other, length)
  {
  }
}
