# IR remote code store and decompressor

The firmware keeps every infrared command it can send in program memory. It
stores each one as an `IRCode` record with four fields:

- a pointer to a dictionary of burst pairs, shared by one manufacturer;
- a pointer to a packed code that holds two 4-bit dictionary indices per byte;
- the code's length, counted in indices;
- the carrier, one byte.

`getCode` allocates an array of `codeLength` burst pairs. It fills position
`i` from code byte `i/2`: it takes the byte's second field `lo` when `i` is
odd and its first field `hi` when `i` is even, and looks that index up in the
dictionary. `getLength` and `getCarrier` read the record's last two bytes.

There are three versions of the format:

- The main format (`Codes.cpp`, `Codes.h`) has 16-bit durations, one
  dictionary per TV manufacturer (fourteen of them), seven TV command tables
  and four projector tables.
- The 8-bit variant (`compressed/`) has one-byte durations and an accessor
  that reads the record and the dictionary at computed byte offsets.
- The unpacked variant (`working/Codes.cpp`) holds data only: one index per
  byte, next to the packed code it was expanded from.

Modules:

- `Platform` has the target's byte, word and dword types and their
  little-endian composition.
- `NibbleCode` holds the packed code that both packed formats share. It
  reads a code as one sequential string of indices and decodes it through a
  dictionary. A code byte is modelled as an ordered pair `(hi, lo)`. C leaves
  the placement of bit-fields to the compiler, so the byte-level packing
  takes a `BitOrder` and every property holds for both placements.
- `RecordLayout` is the six-byte image of a record: dict pointer at 0, code
  pointer at 2, length at 4, carrier at 5.
- `Codes` is the main format and its accessors. Program-memory reads become
  reads of immutable sequences: a record value carries the dictionary and
  code that its pointers refer to.
- `Tables` holds every dictionary, code and table of the main format, with
  proofs that each record can be decoded, that every manufacturer's records
  share one dictionary, and that the counts are right.
- `Compressed` models the 8-bit variant at byte level. Program memory is a
  function from 16-bit addresses to bytes, and the accessor is a method that
  reads it exactly as the firmware does.
- `Working` is the unpacked variant's data and its relation to the packed
  code.

## Model

| member | source | states |
|---|---|---|
| Platform.WordOf | compressed/Codes.h:28-32 | Definition: the 16-bit value of two consecutive bytes, the byte at the lower address the low one. Its properties are stated by `WordOfParts` and `WordSplit`. |
| Platform.DwordOf | Codes.h:21-25 | The 32-bit value of two halves gives back the low half under `% 2^16` and the high half under `/ 2^16`. |
| Platform.WordOfParts | compressed/Codes.h:28-32 | The 16-bit value of two bytes gives back the low byte under `% 256` and the high byte under `/ 256`. |
| Platform.WordSplit | compressed/Codes.h:28-32 | Splitting a word into its two bytes and composing them again gives the same word. |
| NibbleCode.IndexAt | Codes.cpp:40-42 | Definition: the index at position `i` of a packed code is byte `i/2`'s `lo` when `i` is odd and its `hi` when `i` is even. `UnpackAt` proves it agrees with the sequential string, and the contracts of `Decode` and `Codes.GetCode` are stated in its terms. |
| NibbleCode.IndexBelowCapacity | Codes.h:28-34 | Every index a code holds is below 16, so a dictionary entry past the 16th is unreachable. This holds by the 4-bit `Nibble` type alone. |
| NibbleCode.Unpack | Codes.h:28-34 | A code's sequential string of indices is twice as long as the code. |
| NibbleCode.UnpackAt | Codes.cpp:40-42 | Position `i` of the sequential string is byte `i/2`'s `lo` when `i` is odd and its `hi` when `i` is even. |
| NibbleCode.UnpackAll | Codes.cpp:36-43 | The parity rule agrees with the sequential string at every position. |
| NibbleCode.BytesFor | Codes.h:46 | `L` indices need `ceil(L/2)` bytes: `L <= 2n <= L+1`. |
| NibbleCode.BytesTouched | Codes.cpp:36-40 | Positions `0..L-1` address exactly code bytes `0..ceil(L/2)-1`: none beyond and none skipped. `L = 0` addresses none. |
| NibbleCode.IndexBelow | Codes.cpp:40-42 | If every stored index is below `n`, the index taken at any position is below `n`. |
| NibbleCode.FitsByIndices | Codes.cpp:74-207 | A code whose storage holds `L` indices and whose every stored index names a dictionary entry can be decoded at length `L`. |
| NibbleCode.Lookup | Codes.cpp:41-43 | Resolving indices through a dictionary keeps the length and maps position `k` to `dict[indices[k]]`. |
| NibbleCode.Decode | Codes.cpp:36-43 | A decoded code has exactly `L` pairs, and pair `i` is the dictionary entry at byte `i/2`'s `lo` (odd `i`) or `hi` (even `i`). |
| NibbleCode.DecodeReadsOnlyPrefix | Codes.cpp:36-40 | Decoding depends only on code bytes `0..ceil(L/2)-1`: two codes that agree there decode alike. |
| NibbleCode.DecodeIgnoresEntriesPastCapacity | Codes.h:31-32 | Truncating a dictionary to its first 16 entries does not change any decoding. |
| NibbleCode.PackByte | Codes.h:36-40 | Definition: the byte a `NibbleUnion` holds when its `Nibbles` member is `(hi, lo)`, for either field placement. `UnpackByte` and `UnpackPackByte` state the round trip in both directions. |
| NibbleCode.UnpackByte | Codes.h:36-40 | The two indices read out of a `NibbleUnion` byte pack back into the same byte, for either field placement. |
| NibbleCode.UnpackPackByte | Codes.h:36-40 | One byte carries exactly two indices: packing two indices and reading them back gives both, for either field placement. |
| RecordLayout.Image | Codes.h:42-48 | A record occupies six bytes. |
| RecordLayout.FieldsAtDeclaredOffsets | Codes.cpp:49-60 | Reading a record's image at offsets 0, 2, 4 and 5 gives back its dict pointer, code pointer, length and carrier. This holds whatever the pointers hold. |
| RecordLayout.WordsAfterEachPointer | compressed/Codes.cpp:13-15 | The word two bytes on from each pointer slot is the code pointer, and then the length and carrier read as one little-endian word. |
| Codes.PairOfDword | Codes.h:21-25 | The pair a `BurstUnion` holds, composed back into a dword, is that dword. |
| Codes.PairDwordRoundTrip | Codes.h:21-25 | One dword read fetches one whole pair: storing a pair as a dword and reading it back gives that pair. |
| Codes.NumElem | Codes.h:11 | `sizeof(x)/sizeof(*x)` is the element count of a table. |
| Codes.MulDivCancel | Codes.h:11 | Arithmetic helper for `NumElem`: multiplying by a positive size and dividing by it again gives the count back. |
| Codes.WellFormed | Codes.cpp:36-43 | Definition: a record the decoder can read. Its storage holds `codeLength` indices, and each of them names an entry of its dictionary. |
| Codes.Expand | Codes.cpp:36-43 | Definition: the burst sequence a decodable record denotes, its code decoded through its dictionary. `GetCode` is proved to return it. |
| Codes.GetLength | Codes.cpp:49-53 | The result is in 0..255, and it is the byte at offset `sizeof(BurstPair*) + sizeof(Nibbles*)` of the record's image, whatever the pointers hold. |
| Codes.GetCarrier | Codes.cpp:55-60 | The result is in 0..255, and it is the byte one past the length in the record's image. |
| Codes.GetCode | Codes.cpp:23-47 | Returns a fresh array of exactly `getLength` pairs. Pair `i` is the dictionary entry at index `IndexAt(code, i)`. The array is the record's decoded burst sequence. The code bytes read are exactly `0..ceil(L/2)-1`. |
| Codes.GetCodeTwice | Codes.cpp:26-44 | Two calls return two distinct fresh arrays with equal contents. |
| Tables.AuthoredByIndices | Codes.cpp:219-378 | A record can be decoded when its storage length matches its length and every stored index names an entry of its dictionary, which has 1 to 16 entries. |
| Tables.SamsungCodesWithinDictionary | Codes.cpp:74-81 | Every index in the seven Samsung codes is below the size of `dict_samsung_tv`. |
| Tables.LgeCodesWithinDictionary | Codes.cpp:83-90 | Every index in the seven LG codes is below the size of `dict_lge_tv`. |
| Tables.SonyCodesWithinDictionary | Codes.cpp:92-99 | Every index in the seven Sony codes is below the size of `dict_sony_tv`. |
| Tables.PanasonicPowerCodesWithinDictionary | Codes.cpp:101-104 | Every index in the Panasonic power and mute codes is below 3. |
| Tables.PanasonicVolumeCodesWithinDictionary | Codes.cpp:105-108 | Every index in the Panasonic volume and channel codes is below 3. |
| Tables.SharpCodesWithinDictionary | Codes.cpp:110-117 | Every index in the seven Sharp codes is below 2. |
| Tables.PhilipsCodesWithinDictionary | Codes.cpp:119-126 | Every index in the seven Philips codes is below 4. |
| Tables.VizioCodesWithinDictionary | Codes.cpp:128-136 | Every index in the eight Vizio codes, including mute-on and mute-off, is below 3. |
| Tables.PioneerCodesWithinDictionary | Codes.cpp:138-145 | Every index in the seven Pioneer codes is below 3. |
| Tables.MitsubishiCodesWithinDictionary | Codes.cpp:147-154 | Every index in the seven Mitsubishi codes is below 2. |
| Tables.FujitsuPowerCodesWithinDictionary | Codes.cpp:156-159 | Every index in the Fujitsu power and mute codes is below 3. |
| Tables.FujitsuVolumeCodesWithinDictionary | Codes.cpp:160-163 | Every index in the Fujitsu volume and channel codes is below 3. |
| Tables.ToshibaCodesWithinDictionary | Codes.cpp:165-172 | Every index in the seven Toshiba codes is below 3. |
| Tables.SanyoCodesWithinDictionary | Codes.cpp:174-181 | Every index in the seven Sanyo codes is below 3. |
| Tables.JvcCodesWithinDictionary | Codes.cpp:183-190 | Every index in the seven JVC codes is below 3. |
| Tables.RcaCodesWithinDictionary | Codes.cpp:192-199 | Every index in the seven RCA codes is below 5. |
| Tables.SharpProjectorCodesWithinDictionary | Codes.cpp:203-207 | Every index in the four projector codes is below 3. |
| Tables.PowerOnAuthored | Codes.cpp:219-234 | Every POWER_ON record can be decoded, and its storage is exactly `ceil(L/2)` bytes. |
| Tables.PowerOffAuthored | Codes.cpp:238-253 | Every POWER_OFF record can be decoded, and its storage is exactly `ceil(L/2)` bytes. |
| Tables.MuteAuthored | Codes.cpp:257-272 | Every MUTE record can be decoded, and its storage is exactly `ceil(L/2)` bytes. |
| Tables.VolumeUpAuthored | Codes.cpp:276-291 | Every VOLUME_UP record can be decoded, and its storage is exactly `ceil(L/2)` bytes. |
| Tables.VolumeDownAuthored | Codes.cpp:295-310 | Every VOLUME_DOWN record can be decoded, and its storage is exactly `ceil(L/2)` bytes. |
| Tables.ChannelUpAuthored | Codes.cpp:314-329 | Every CHANNEL_UP record can be decoded, and its storage is exactly `ceil(L/2)` bytes. |
| Tables.ChannelDownAuthored | Codes.cpp:333-348 | Every CHANNEL_DOWN record can be decoded, and its storage is exactly `ceil(L/2)` bytes. |
| Tables.TvTablesAuthored | Codes.cpp:219-349 | Every record of the seven TV tables can be decoded. |
| Tables.ProjectorTablesAuthored | Codes.cpp:356-378 | Every record of the four projector tables can be decoded. |
| Tables.OddLengthRecords | Codes.cpp:222-233 | Sony and Philips power-on use 13 of 14 nibbles. RCA uses 27 of 28 with the only five-entry dictionary. |
| Tables.SamsungSharesDictionary | Codes.cpp:220-334 | Every Samsung record in the seven TV tables carries `dict_samsung_tv`. |
| Tables.LgeSharesDictionary | Codes.cpp:221-335 | Every LG record carries `dict_lge_tv`. |
| Tables.SonySharesDictionary | Codes.cpp:222-336 | Every Sony record carries `dict_sony_tv`. |
| Tables.PanasonicSharesDictionary | Codes.cpp:223-337 | Every Panasonic record carries `dict_panasonic_tv`. |
| Tables.SharpSharesDictionary | Codes.cpp:224-338 | Every Sharp record carries `dict_sharp_tv`. |
| Tables.PhilipsSharesDictionary | Codes.cpp:225-339 | Every Philips record carries `dict_philips_tv`. |
| Tables.VizioSharesDictionary | Codes.cpp:226-340 | Every Vizio record of the six tables that have one carries `dict_vizio_tv`. |
| Tables.PioneerSharesDictionary | Codes.cpp:227-341 | Every Pioneer record carries `dict_pioneer_tv`. In MUTE it sits one slot earlier. |
| Tables.MitsubishiSharesDictionary | Codes.cpp:228-342 | Every Mitsubishi record carries `dict_mitsubishi_tv`. |
| Tables.FujitsuSharesDictionary | Codes.cpp:229-343 | Every Fujitsu record carries `dict_fujitsu_tv`. |
| Tables.ToshibaSharesDictionary | Codes.cpp:230-344 | Every Toshiba record carries `dict_toshiba_tv`. |
| Tables.SanyoSharesDictionary | Codes.cpp:231-345 | Every Sanyo record carries `dict_sanyo_tv`. |
| Tables.JvcSharesDictionary | Codes.cpp:232-346 | Every JVC record carries `dict_jvc_tv`. |
| Tables.RcaSharesDictionary | Codes.cpp:233-347 | Every RCA record carries `dict_rca_tv`. |
| Tables.ProjectorSharesDictionary | Codes.cpp:356-377 | All four projector records carry `dict_sharp_projector`. |
| Tables.Totals | Codes.cpp:235-378 | Six TV counts are 14. MUTE_TOTAL is 13, one less, because the Vizio record is commented out, so Pioneer follows Philips. Every projector count is 1. |
| Compressed.PairOfWord | compressed/Codes.h:28-32 | The pair a `BurstUnion` holds, composed back into a word, is that word. |
| Compressed.PairWordRoundTrip | compressed/Codes.h:21-32 | One word read fetches one whole two-byte pair. |
| Compressed.WellFormed | compressed/Codes.cpp:21-37 | Definition: a record the decoding loop can read. Its storage holds `codeLength` indices, each naming a dictionary entry. |
| Compressed.Expand | compressed/Codes.cpp:21-37 | Definition: the burst sequence a decodable record denotes. `DecodeAtResident` and `CorrectedDecodesResident` are proved to produce it. |
| Compressed.ReadByte | compressed/Codes.cpp:25 | Definition: `pgm_read_byte` at a 16-bit address; address arithmetic wraps at 2^16. |
| Compressed.ReadWord | compressed/Codes.cpp:14-15 | Definition: `pgm_read_word`, two consecutive bytes with the lower address as the low byte. |
| Compressed.DictBytes | compressed/Codes.cpp:32 | A stored dictionary is `2 * size` bytes. Entry `k` has its `on` byte at `2k` and its `off` byte at `2k+1`. |
| Compressed.CodeBytes | compressed/Codes.cpp:24-25 | A stored code is one byte per `Nibbles`, and each byte reads back as its pair of indices. |
| Compressed.Resident | compressed/Codes.h:34-40 | Definition: a record stored in program memory. Its six-byte image sits at `desired` with its two pointer fields, its dictionary sits at the dict pointer as 2-byte pairs, and its code sits at the code pointer one byte per `Nibbles`. |
| Compressed.GetLength | compressed/Codes.cpp:42-45 | The result is in 0..255. Which field it reads is stated by `LengthAndCarrierOfResident`. |
| Compressed.GetCarrier | compressed/Codes.cpp:47-50 | The result is in 0..255. Which field it reads is stated by `LengthAndCarrierOfResident`. |
| Compressed.FetchIndex | compressed/Codes.cpp:24-29 | Definition: the index the loop takes at position `i`. It reads byte `code + i/2` as a `NibbleUnion` and takes `lo` for odd `i`, `hi` for even `i`. |
| Compressed.FetchPair | compressed/Codes.cpp:31-36 | Definition: the pair the loop loads for an index, the word at `dict + sizeof(BurstPair)*index` read as a `BurstUnion`. |
| Compressed.DecodeAt | compressed/Codes.cpp:21-37 | A decoding loop over `L` positions produces exactly `L` pairs. |
| Compressed.ReadCodeByte | compressed/Codes.cpp:24-29 | A stored code byte, read back and split by the same field placement, gives the stored indices. |
| Compressed.ReadDictPair | compressed/Codes.cpp:31-36 | The word at `dict + sizeof(BurstPair)*index` of a stored dictionary is entry `index`. |
| Compressed.DecodeAtResident | compressed/Codes.cpp:21-37 | Decoding from a record's own dictionary and code pointers gives exactly the burst sequence the record denotes. |
| Compressed.LengthAndCarrierOfResident | compressed/Codes.cpp:42-50 | On a stored record, offsets 4 and 5 hold `codeLength` and `carrier`, where the field order puts them. |
| Compressed.FetchedPointers | compressed/Codes.cpp:13-15 | On a stored record, the words at offsets 2 and 4 are the code pointer, and then the length and carrier bytes taken together. |
| Compressed.DeclaredPointers | compressed/Codes.h:34-40 | On a stored record, the words at offsets 0 and 2 are the dictionary and code pointers. |
| Compressed.CorrectedDecodesResident | compressed/Codes.cpp:10-40 | With the pointers fetched at offsets 0 and 2, every stored, decodable record decodes to exactly the burst sequence it denotes, at exactly `getLength` pairs. |
| Compressed.LoadPair | compressed/Codes.cpp:24-36 | One loop iteration yields the word at stride 2 from `dict`, at the index taken from byte `i/2` of `code` (`lo` for odd `i`, `hi` for even). |
| Compressed.DecodeInto | compressed/Codes.cpp:18-37 | Allocates exactly `codeLength` fresh pairs and fills them so the array equals what a decoding loop over the given dictionary and code addresses produces. |
| Compressed.GetCode | compressed/Codes.cpp:10-40 | As written: a fresh array of `getLength` pairs. It decodes with the word at offset 2 as the dictionary and the word at offset 4 as the code. |
| Compressed.GetCodeCorrected | compressed/Codes.cpp:10-40 | With the pointers fetched at offsets 0 and 2: a fresh array of `getLength` pairs, decoded from the record's declared dictionary and code. |
| Compressed.PowerOnIndices | compressed/Codes.cpp:59-60 | The dictionary has 4 entries, the code has 25 bytes, and every stored index is below 4. |
| Compressed.PowerOnRecord | compressed/Codes.cpp:59-72 | POWER_ON_TOTAL is 1, and 25 bytes is exactly `ceil(50/2)`. The record can be decoded into 50 pairs, starting with (128, 63) and ending with (16, 255). |
| Compressed.SmallIndicesPackSmall | compressed/Codes.h:7-19 | A byte whose two indices are below 4 is at most 0x33, for either field placement. |
| Compressed.BytesAfterDictionarySmall | compressed/Codes.cpp:59-72 | With the record placed after its code, every byte from the code start to the record end is at most 0x33. |
| Compressed.FirstOnByte | compressed/Codes.cpp:32-35 | The first pair's `on` byte is the byte at `dict + 2 * first index`. |
| Compressed.AsWrittenMisreadsPowerOn | compressed/Codes.cpp:13-15 | As written, the accessor returns 50 pairs for the stored record, but the first pair's `on` is at most 0x33. The result is not the sequence the record denotes, whose first `on` is 128. |
| Compressed.CorrectedDecodesPowerOn | compressed/Codes.cpp:10-40 | With the corrected fetches, the same stored record decodes to exactly its 50-pair sequence, from (128, 63) to (16, 255). |
| Working.DecodeUnpacked | working/Codes.cpp:22-29 | An unpacked code of length `L` decodes to `L` pairs, and pair `i` is `dict[code[i]]`. |
| Working.UnpackedDecodesAsPacked | working/Codes.cpp:43-46 | Unpacking a packed code `hi` before `lo` and decoding it one byte per index gives what decoding the packed code gives. |
| Working.ExpandsFromLater | working/Codes.cpp:43-46 | An expansion from byte `j` on is an expansion from every later byte on. |
| Working.ExpansionIsUnpack | working/Codes.cpp:43-46 | A byte sequence that expands a packed code is that code's sequential string of indices. |
| Working.NormCodeExpandsFrom0 | working/Codes.cpp:43-46 | `norm_code` is the `hi`-then-`lo` expansion of `code_panasonic_POWER_ON`, byte for byte. |
| Working.NormalizedIsUnpacked | working/Codes.cpp:42-46 | `norm_dict` equals `dict_panasonic`. `norm_code` has 50 entries and equals the packed code's sequential string at every position. |
| Working.PackedIndicesBelowFour | working/Codes.cpp:42-43 | The packed dictionary has 4 entries, and every stored index is below 4. |
| Working.ExpansionWithin | working/Codes.cpp:43-46 | Expanding a code keeps its bound: if every packed index is below `n`, so is every byte of the expansion. |
| Working.PowerOnRecord | working/Codes.cpp:45-56 | The active record has carrier 14 and length 50. Its code has exactly 50 entries, each below the 4 entries of its dictionary. |
| Working.ExpansionDecodesAsPacked | working/Codes.cpp:43-46 | A byte sequence that expands a packed code decodes one byte per index to what the packed code decodes to. |
| Working.ActiveRecordMatchesPacked | working/Codes.cpp:53-56 | The active unpacked record and the commented-out packed record denote the same burst sequence. |
| Working.DecodeUnpackedAgree | working/Codes.cpp:22-29 | Two unpacked codes that agree on their first `L` bytes decode alike. |

## Left out

- Program-memory access (`pgm_read_byte`, `pgm_read_word`, `pgm_read_dword`, `PROGMEM`) in the main format: a record carries its dictionary and code by value. Only the 8-bit variant is modelled at byte level.
- The physical bit positions of the `hi:4` and `lo:4` fields are compiler-defined. Both placements are modelled through `BitOrder`, and nothing depends on which one the compiler picks.
- `new[]` and `delete[]`: the result is a fresh array, and releasing it is the caller's concern.
- The IR transmitter, carrier timing and command dispatch that consume these records are not part of this model.
- Pointer identity: the shared dictionaries are stated by value. `dict_vizio_tv`, `dict_toshiba_tv` and `dict_sanyo_tv` hold equal values, so sharing is not distinguished from equal contents.
- The out-of-range index path: the firmware never checks an index against its dictionary. `GetCode` therefore requires a decodable record, and the tables are proved decodable.
- The projector names declared in `Codes.h:74-77` (`PROJ_POWER_OFF`, `PROJ_POWER_ON_TOTAL`) are not the names defined in `Codes.cpp:356-365` (`PROJ_POWER_STANDBY`, `PROJ_POWER_OFF_TOTAL`). The model keeps the definitions' names; the linkage mismatch is not modelled.
- `NUM_ELEM` ends in a semicolon (`Codes.h:11`). This is harmless where it is used, and it is not modelled.
- The working variant's `BurstPair` has `int` fields, 16 bits wide on the target. They are modelled as a signed 16-bit range; no arithmetic touches them.
- Compressed.GetLength: the contract states only the range. The field it reads on a stored record is stated by `Compressed.LengthAndCarrierOfResident`.
- Compressed.GetCarrier: the contract states only the range. The field it reads on a stored record is stated by `Compressed.LengthAndCarrierOfResident`.
- Compressed.AsWrittenMisreadsPowerOn: it is proved for one concrete placement (dictionary, then code, then record). It is not proved for every placement, since a contrived placement can make the misread coincide with the right result.
- The 8-bit variant's data is only its one Panasonic record; it has no other tables.

## Findings

| source | as written | input that shows it | evidently intended | confidence | as-written member | corrected member |
|---|---|---|---|---|---|---|
| compressed/Codes.cpp:13-15 | `current += 2` runs before each pointer fetch, so `dict` is read at record offset 2 and `code` at offset 4, although `getLength`/`getCarrier` (offsets 4 and 5) place `dict` at 0 and `code` at 2 | `POWER_ON[0]` of the 8-bit variant, with its dictionary at 0x100, its code at 0x108 and the record at 0x121: the first pair comes back with `on` at most 0x33 instead of 128 | fetch `dict` at offset 0 and `code` at offset 2, as the main format does (`Codes.cpp:26-29`) | high (not executed) | Compressed.AsWrittenMisreadsPowerOn | Compressed.CorrectedDecodesPowerOn |
