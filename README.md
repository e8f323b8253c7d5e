# QuarkChain cluster RPC catalog and utility helpers, in Dafny

This project models two pieces of pyquarkchain and proves what they promise.

- **The cluster RPC message catalog and opcode registry** (`quarkchain/cluster/rpc.py`). It covers:
  - every `Serializable` message class, with its `FIELDS` layout and constructor normalisation;
  - the `ClusterOp` opcode constants over `CLUSTER_OP_BASE`;
  - the `CLUSTER_OP_SERIALIZER_MAP` dictionary.
- **The integer and token-name helpers** (`quarkchain/utils.py`):
  - the helpers `check`, `int_left_most_bit`, `masks_have_overlap`, `is_p2` and `p2_roundup`;
  - the native-token name codec (`token_char_encode/decode`, `token_id_encode/decode`) with its constants.

Modules, one per file:

- `Results` (results.dfy): the Option and Result wrappers
- `Utils` (utils.dfy): `check`, bit length (a loop, as in the source), `&`, shard-mask overlap, powers of two
- `Tokens` (tokens.dfy): the token name codec. Both directions are loops, as in the source, each proved equal to a specification function.
- `External` (external.dfy): the record types defined outside rpc.py, as abstract types with an abstract codec
- `Wire` (wire.dfy): field kinds, the record codec driven by a FIELDS list, round trip and canonicity
- `Catalog` (catalog.dfy): one constructor per message class and its FIELDS list
- `Registry` (registry.dfy): the opcode constants, the dictionary as a lookup, and the facts about the opcode table
- `Messages` (messages.dfy): typed messages, the conversion to and from field values, and the constructors' normalisation
- `Serialization` (serialization.dfy): whole payloads: serialize, deserialize, lookup by opcode, rejection of bad payloads, byte layouts

Where the code relies on a module that is not part of this model, the model states an assumption:

- **The serializer classes.** `uint16` … `uint256`, `boolean`, `hash256`, `PreprendedSizeBytesSerializer`, `PreprendedSizeListSerializer` and the `Serializable` record codec live in quarkchain/core.py, which is not part of this model. They are modelled as their names state:
  - unsigned big-endian integers of 2, 4, 8, 16 and 32 bytes;
  - one byte 0 or 1 for a boolean;
  - 32 raw bytes for a hash;
  - a blob or a list behind a big-endian length or count of the given width;
  - a record as its fields in declared order, with nothing between them.
- **The record types.** `RootBlock`, `MinorBlock`, `MinorBlockHeader`, `Transaction`, `TransactionReceipt`, `CrossShardTransactionList`, `Branch`, `Address` and `ShardMask` come from quarkchain/core.py and quarkchain/cluster/core.py. Each is an abstract type, and their serializers are a parameter `ext`. Every wire theorem assumes `Sound(ext)`, which has two parts:
  - decoding an encoding gives the value and leaves what followed it;
  - a successful decode consumed exactly one value's encoding.

## Model

| member | source | states |
|---|---|---|
| Utils.Check | quarkchain/utils.py:63-68 | `check(c, msg)` succeeds exactly when c holds and otherwise fails with `AssertionError(msg)` |
| Utils.BitLength | quarkchain/utils.py:15-22 | the bit length of v is 0 exactly for v = 0, and for v > 0 it is the b with 2^(b-1) <= v < 2^b |
| Utils.BitLengthUnique | quarkchain/utils.py:15-22 | that b is unique: any b >= 1 bracketing v between 2^(b-1) and 2^b is the bit length |
| Utils.IntLeftMostBit | quarkchain/utils.py:15-22 | the halving loop of `int_left_most_bit` returns the bit length: 0 for v = 0, and 2^(b-1) <= v < 2^b for v > 0 |
| Utils.NegativeNeverReachesZero | quarkchain/utils.py:19-21 | for v < 0, halving with `//= 2` any number of times never reaches 0, so the loop does not terminate |
| Utils.BitAnd | quarkchain/utils.py:33-39 | no contract; Python `&` on unbounded integers, bit by bit in two's complement. Its properties are in the rows Utils.BitAndSelf, Utils.BitAndNegative and Utils.BitAndLowMask |
| Utils.BitAndSelf | quarkchain/utils.py:38-39 | two's-complement `a & a == a` for a >= 0 |
| Utils.BitAndNegative | quarkchain/utils.py:38-39 | the `&` of two negative integers is negative |
| Utils.BitAndLowMask | quarkchain/utils.py:33-34 | `x & ((1 << k) - 1)` is x mod 2^k, the low k bits |
| Utils.MasksHaveOverlap | quarkchain/utils.py:25-35 | succeeds exactly when both masks are positive (otherwise the `check` failure), and then is true iff the masks agree modulo 2^(k) where k is one less than the shorter bit length |
| Utils.MasksHaveOverlapExamples | quarkchain/utils.py:26-29 | the documented cases: (0b101, 0b11) gives True and (0b101, 0b10) gives False |
| Utils.MasksHaveOverlapSymmetric | quarkchain/utils.py:25-35 | swapping the two masks does not change the result, including the error case |
| Utils.MasksHaveOverlapSelf | quarkchain/utils.py:25-35 | every positive mask overlaps itself |
| Utils.OverlapHasCommonShard | quarkchain/utils.py:25-35 | overlapping masks have a shard id that both cover (agrees with each mask below its leading bit) |
| Utils.CommonShardMeansOverlap | quarkchain/utils.py:25-35 | conversely, two masks covering a common shard id overlap |
| Utils.IsP2 | quarkchain/utils.py:38-39 | no contract; `(v & (v - 1)) == 0` for every integer v. Its properties are in the rows Utils.IsP2Correct and Utils.IsP2NonPositive |
| Utils.IsP2Correct | quarkchain/utils.py:38-39 | for v > 0, `v & (v - 1) == 0` holds iff v is a power of two |
| Utils.IsP2NonPositive | quarkchain/utils.py:38-39 | for v <= 0, `is_p2` holds only at 0 (0 & -1 == 0); no negative number passes |
| Utils.P2Roundup | quarkchain/utils.py:42-45 | no contract; `2 ** (v - 1).bit_length()`, with the bit length of a negative number taken of its magnitude. Its properties are in the rows Utils.P2RoundupIsLeastPowerOfTwo and Utils.P2RoundupZero |
| Utils.P2RoundupIsLeastPowerOfTwo | quarkchain/utils.py:42-45 | for v >= 1, `2 ** (v - 1).bit_length()` is a power of two, is >= v, and is <= every power of two that is >= v |
| Utils.P2RoundupZero | quarkchain/utils.py:42-45 | outside the documented domain, `p2_roundup(0)` is 2, because the bit length of -1 is 1 |
| Tokens.TokenCharEncode | quarkchain/utils.py:457-462 | succeeds exactly on 0-9 and A-Z with a value below 36, and fails with "unknown character c" on any other character |
| Tokens.TokenCharDecode | quarkchain/utils.py:465-469 | succeeds exactly on 0..35 with a character of 0-9A-Z, and fails with "invalid char" otherwise |
| Tokens.TokenCharOrder | quarkchain/utils.py:457-462 | the character codes keep the order of the characters: c < d iff code(c) < code(d) |
| Tokens.TokenCharRoundTrip | quarkchain/utils.py:457-469 | decoding the code of a 0-9A-Z character gives the character back |
| Tokens.TokenCharDecodeRoundTrip | quarkchain/utils.py:457-469 | encoding the character of a code in 0..35 gives the code back |
| Tokens.NameToId | quarkchain/utils.py:472-484 | succeeds exactly on names of 1 to 12 characters over 0-9A-Z, with a result <= TOKEN_ID_MAX; a name of 13 or more characters fails with "name too long", one the pattern rejects with "name can only contain 0-9, A-Z", and one the pattern accepts with a trailing newline with "unknown character" |
| Tokens.TokenIdEncode | quarkchain/utils.py:472-484 | the loop over the name from its second-to-last character backwards computes exactly NameToId, including each error |
| Tokens.PrependDigit | quarkchain/utils.py:480-482 | one loop step: a character in front of s adds 36^|s| * (code + 1) to the value |
| Tokens.NameValue | quarkchain/utils.py:472-484 | no contract; the bijective base-36 value the encoding loop computes, most significant character first. Its properties are in the rows Tokens.PrependDigit, Tokens.NameValueRange, Tokens.ValueDigits and Tokens.NameRoundTrip |
| Tokens.NameValueRange | quarkchain/utils.py:472-484 | the value of a name of length n lies from the number of shorter names up to (not including) the number of names of length <= n |
| Tokens.RangeIsNamesOfLength | quarkchain/utils.py:472-496 | conversely, every id in that range is the value of a name of exactly n characters, the digit string of the id |
| Tokens.TokenIdMaxIsLastTwelveCharId | quarkchain/utils.py:453-454 | TOKEN_ID_MAX is one less than the number of names of 1 to 12 characters |
| Tokens.IdToName | quarkchain/utils.py:486-496 | succeeds exactly for 0 <= id <= TOKEN_ID_MAX, with a valid 1-12 character name, and fails with "id too big or negative" otherwise |
| Tokens.TokenIdDecode | quarkchain/utils.py:486-496 | the loop that appends digits and then reverses the name computes exactly IdToName, including the error |
| Tokens.IdToDigits | quarkchain/utils.py:486-496 | no contract; the digit string the decoding loop builds, most significant digit first. Its properties are in the rows Tokens.DigitsValue, Tokens.ValueDigits and Tokens.TokenIdDecode |
| Tokens.DigitsValue | quarkchain/utils.py:486-496 | the digit string of an id is a 0-9A-Z string whose value is the id |
| Tokens.ValueDigits | quarkchain/utils.py:472-496 | the digit string of a name's value is the name itself |
| Tokens.DigitsAreValidName | quarkchain/utils.py:486-496 | an id up to TOKEN_ID_MAX has a digit string of at most 12 characters |
| Tokens.NameRoundTrip | quarkchain/utils.py:472-496 | `token_id_decode(token_id_encode(name)) == name` for every accepted name |
| Tokens.IdRoundTrip | quarkchain/utils.py:472-496 | `token_id_encode(token_id_decode(id)) == id` for every id in 0..TOKEN_ID_MAX |
| Tokens.TokenMaxEncodesToIdMax | quarkchain/utils.py:453-454 | `token_id_encode("ZZZZZZZZZZZZ") == TOKEN_ID_MAX` |
| Wire.BigEndian | quarkchain/cluster/rpc.py:1-5 | a number below 256^size in `size` bytes has exactly that length and spells the number back |
| Wire.BigEndianOfFromBigEndian | quarkchain/cluster/rpc.py:1-5 | every byte string is the fixed-width form of the number it spells, so fixed-width fields are canonical |
| Wire.Fits | quarkchain/cluster/rpc.py:1-5 | no contract; a value fits a field kind when it has that kind's shape: an integer below 256^width, a hash of 32 bytes, a blob or list whose length is below 256^prefix-width, list elements and record fields that fit in turn, and an external value of the declared type. Its properties are in the rows Wire.DecodeEncode and Wire.DecodedIsEncoding |
| Wire.Encode | quarkchain/cluster/rpc.py:1-5 | no contract; the bytes the imported serializers write for a value. Its properties are in the rows Wire.DecodeEncode, Wire.EncodeInjective and Wire.ProperPrefixIsIncomplete |
| Wire.Decode | quarkchain/cluster/rpc.py:1-5 | no contract; the reading the imported serializers do from the front of a byte string. Its properties are in the rows Wire.DecodeEncode, Wire.DecodedIsEncoding and Wire.DecodeErrors |
| Wire.DecodeEncode | quarkchain/cluster/rpc.py:1-5 | for every field kind the model gives the imported serializers, decoding an encoding followed by any bytes gives the value and exactly those bytes |
| Wire.DecodeItemsEncode | quarkchain/cluster/rpc.py:1-5 | the elements of a count-prefixed list decode back, in order, leaving what follows |
| Wire.DecodeFieldsEncode | quarkchain/cluster/rpc.py:1-5 | the fields of a record decode back in declared order, leaving what follows |
| Wire.DecodedIsEncoding | quarkchain/cluster/rpc.py:1-5 | whatever decodes is a fitting value followed by the undecoded rest, and the consumed bytes are its encoding |
| Wire.DecodedItemsAreEncoding | quarkchain/cluster/rpc.py:1-5 | a decoded list has the announced number of fitting elements and the bytes consumed are their encodings |
| Wire.DecodedFieldsAreEncoding | quarkchain/cluster/rpc.py:1-5 | a decoded record has one fitting value per field and the bytes consumed are their encodings |
| Wire.EncodeInjective | quarkchain/cluster/rpc.py:1-5 | two fitting values with the same encoding are equal |
| Wire.ProperPrefixIsIncomplete | quarkchain/cluster/rpc.py:1-5 | no proper prefix of an encoding decodes at all |
| Wire.DecodeErrors | quarkchain/cluster/rpc.py:1-5 | decoding fails only with a truncated-input or malformed-element error |
| Registry.Opcode | quarkchain/cluster/rpc.py:547-583 | no contract; the `ClusterOp` constant each class is sent under. Its properties are in the rows Registry.OpcodeRange, Registry.ResolveOpcode and Registry.OpcodeInjective |
| Registry.SerializerFor | quarkchain/cluster/rpc.py:586-624 | no contract; `CLUSTER_OP_SERIALIZER_MAP.get(op)`, one case per dictionary entry. Its properties are in the rows Registry.RegisteredOpcodes, Registry.ConstantsAreKeys and Registry.RegisteredCount |
| Registry.Resolve | quarkchain/cluster/rpc.py:586-624 | no contract; the class registered under an opcode, or the unknown-opcode error. Its properties are in the rows Registry.ResolveOpcode, Registry.OpcodeResolve and Registry.UnassignedOpcodes |
| Registry.ResponseTo | quarkchain/cluster/rpc.py:547-583 | no contract; the response class each request (and Ping) is answered with. Its properties are in the rows Registry.ResponseAtNextOpcode, Registry.RequestsAtOddIndex and Registry.DestroyIsOneWay |
| Registry.OpcodeRange | quarkchain/cluster/rpc.py:541-583 | every opcode is CLUSTER_OP_BASE (128) plus an index in 1..38 other than 28, so it lies in 129..166 |
| Registry.OpcodesIncreasing | quarkchain/cluster/rpc.py:547-583 | the 37 opcode constants, in declaration order, are strictly increasing |
| Registry.ConstantsAreKeys | quarkchain/cluster/rpc.py:547-624 | an opcode is one of the 37 `ClusterOp` constants exactly when CLUSTER_OP_SERIALIZER_MAP has a key for it |
| Registry.OpcodeIsConstant | quarkchain/cluster/rpc.py:547-583 | the opcode of every class is one of the 37 constants |
| Registry.RegisteredCount | quarkchain/cluster/rpc.py:547-624 | the 37 constants are pairwise distinct and are exactly the dictionary's keys, and every class's opcode is one of them, so the dictionary has 37 entries and none is lost to a duplicate key |
| Registry.RegisteredOpcodes | quarkchain/cluster/rpc.py:586-624 | an opcode has a class in CLUSTER_OP_SERIALIZER_MAP iff it is in 129..166 and is not 156 |
| Registry.ResolveOpcode | quarkchain/cluster/rpc.py:586-624 | looking up the opcode of a class in the dictionary gives that class |
| Registry.OpcodeResolve | quarkchain/cluster/rpc.py:586-624 | the class found under a registered opcode has that opcode |
| Registry.OpcodeInjective | quarkchain/cluster/rpc.py:586-624 | no two classes share an opcode |
| Registry.UnassignedOpcodes | quarkchain/cluster/rpc.py:573-574 | 156 (28 past the base) and every value outside 129..166 resolve to the unknown-opcode error |
| Registry.ResponseAtNextOpcode | quarkchain/cluster/rpc.py:547-583 | each request class and Ping has its response class at the next opcode |
| Registry.RequestsAtOddIndex | quarkchain/cluster/rpc.py:547-583 | the classes that have a response are exactly those at an odd index, other than DestroyClusterPeerConnectionCommand |
| Registry.DestroyIsOneWay | quarkchain/cluster/rpc.py:424-433 | DestroyClusterPeerConnectionCommand has no response, and nothing is registered at the opcode above it |
| Messages.AsciiEncode | quarkchain/cluster/rpc.py:29-29 | `bytes(s, "ascii")`: succeeds iff every character is below 128, one byte per character with its code; otherwise an encoding error |
| Messages.AsciiRoundTrip | quarkchain/cluster/rpc.py:26-29 | the ASCII bytes of a string decode back to the string |
| Messages.AsciiBytesRoundTrip | quarkchain/cluster/rpc.py:26-29 | bytes below 128 are the ASCII encoding of the characters they stand for |
| Messages.IdBytes | quarkchain/cluster/rpc.py:26-29 | no contract; the id normalisation of Ping, Pong and SlaveInfo: a bytes id as given, a string id as `bytes(id, "ascii")`. Its properties are in the rows Messages.NewPing, Messages.NewPong and Messages.NewSlaveInfo |
| Messages.NewPing | quarkchain/cluster/rpc.py:24-31 | a bytes id is stored unchanged; a string id is stored as its ASCII bytes, and a non-ASCII one fails; the other fields are kept |
| Messages.NewPong | quarkchain/cluster/rpc.py:40-46 | the same id normalisation as Ping, other fields kept |
| Messages.NewSlaveInfo | quarkchain/cluster/rpc.py:57-64 | the same id normalisation, ip, port and shard masks kept |
| Messages.NewGetMinorBlockRequest | quarkchain/cluster/rpc.py:96-99 | a missing or empty hash is stored as 32 zero bytes, any other hash as given; branch and height are kept |
| Messages.GetMinorBlockRequestDefaults | quarkchain/cluster/rpc.py:96-99 | with only a branch the request holds the zero hash and height 0, and an empty hash is treated like a missing one |
| Messages.SlaveInfoInverse | quarkchain/cluster/rpc.py:49-64 | the nested SlaveInfo record and its field record convert into each other without loss, in both directions |
| Messages.EcoInfoInverse | quarkchain/cluster/rpc.py:211-226 | the nested EcoInfo record and its field record convert into each other without loss, in both directions |
| Messages.ArtificialTxConfigInverse | quarkchain/cluster/rpc.py:247-255 | the nested ArtificialTxConfig record and its field record convert into each other without loss, in both directions |
| Messages.HeadersInfoInverse | quarkchain/cluster/rpc.py:300-308 | the nested HeadersInfo record and its field record convert into each other without loss, in both directions |
| Messages.AccountBranchDataInverse | quarkchain/cluster/rpc.py:338-348 | the nested AccountBranchData record and its field record convert into each other without loss, in both directions |
| Messages.ShardStatsInverse | quarkchain/cluster/rpc.py:439-469 | the nested ShardStats record and its field record convert into each other without loss, in both directions |
| Messages.XshardTxListInverse | quarkchain/cluster/rpc.py:501-511 | the body of AddXshardTxListRequest as a batch element and its field record convert into each other without loss, in both directions |
| Messages.ToFields | quarkchain/cluster/rpc.py:17-538 | no contract; the attribute values of a message in the order of its class's FIELDS list. Its properties are in the rows Messages.FieldsRoundTrip and Messages.FieldsCanonical |
| Messages.FromFields | quarkchain/cluster/rpc.py:17-538 | no contract; the message a class builds from field values in FIELDS order, None when they do not have its fields' shapes. Its properties are in the rows Messages.FieldsRoundTrip and Messages.FieldsCanonical |
| Messages.FieldsRoundTrip | quarkchain/cluster/rpc.py:17-538 | every message is rebuilt from its field values by the class it belongs to: for each of the 37 classes, its field values in FIELDS order rebuild the same message (one lemma per class, such as Messages.PingFieldsRoundTrip) |
| Messages.FieldsCanonical | quarkchain/cluster/rpc.py:17-538 | field values that rebuild a message of class t give a message of class t with exactly those field values, again one lemma per class (such as Messages.PingFieldsCanonical) |
| Catalog.Fields | quarkchain/cluster/rpc.py:17-538 | no contract; the FIELDS list of each of the 37 classes (one Catalog.MessageType constructor per class), field by field in declared order. What the lists mean on the wire is in the rows Serialization.SerializeRoundTrip and the layout rows |
| Catalog.Schema | quarkchain/cluster/rpc.py:17-538 | no contract; a class's FIELDS list as one record field, the way `Serializable` reads and writes it. Its properties are in the rows Serialization.SerializeRoundTrip and Serialization.DeserializeCanonical |
| Serialization.Valid | quarkchain/cluster/rpc.py:17-538 | no contract; the message's field values fit its class's FIELDS list. Its meaning on the wire is in the rows Serialization.Serialize and Serialization.SerializeRoundTrip |
| Serialization.Serialize | quarkchain/cluster/rpc.py:17-538 | serializing succeeds exactly when every field fits its declared width and prefix, and otherwise fails with a range error |
| Serialization.Deserialize | quarkchain/cluster/rpc.py:17-538 | no contract; `cls.deserialize(payload)`: the fields in declared order, then nothing left over. Its properties are in the rows Serialization.SerializeRoundTrip, Serialization.DeserializeCanonical, Serialization.DeserializeErrors, Serialization.TruncatedPayloadRejected and Serialization.TrailingBytesRejected |
| Serialization.DeserializeOpcode | quarkchain/cluster/rpc.py:586-624 | no contract; the class the dictionary registers under an opcode deserializes the payload. Its properties are in the rows Serialization.OpcodeRoundTrip, Serialization.OpcodeCanonical and Serialization.UnknownOpcodeRejected |
| Serialization.SerializeRoundTrip | quarkchain/cluster/rpc.py:17-538 | deserializing a message's payload with its own class gives the message back |
| Serialization.DeserializeCanonical | quarkchain/cluster/rpc.py:17-538 | whatever payload deserializes as class t gives a message of class t whose payload is exactly those bytes |
| Serialization.SerializeInjective | quarkchain/cluster/rpc.py:17-538 | two messages of one class with the same payload are equal |
| Serialization.OpcodeRoundTrip | quarkchain/cluster/rpc.py:586-624 | a payload deserialized with the class registered under its message's opcode gives that message back |
| Serialization.OpcodeCanonical | quarkchain/cluster/rpc.py:586-624 | what deserializes under an opcode is a message whose class has that opcode and whose payload is exactly the bytes read |
| Serialization.UnknownOpcodeRejected | quarkchain/cluster/rpc.py:586-624 | an opcode with no class in the dictionary is rejected with the unknown-opcode error, whatever the payload |
| Serialization.DeserializeErrors | quarkchain/cluster/rpc.py:17-538 | deserializing fails only with a truncated-input, malformed-element or malformed-message error |
| Serialization.TruncatedPayloadRejected | quarkchain/cluster/rpc.py:17-538 | a payload cut short anywhere is rejected with a truncated-input or malformed-element error |
| Serialization.TrailingBytesRejected | quarkchain/cluster/rpc.py:17-538 | bytes after the last field make a payload malformed |
| Serialization.AddRootBlockResponseLayout | quarkchain/cluster/rpc.py:200-208 | the payload is the error code in 4 big-endian bytes followed by one byte 0 or 1 for `switched` |
| Serialization.GetEcoInfoListRequestLayout | quarkchain/cluster/rpc.py:229-233 | an empty FIELDS list gives the empty payload |
| Serialization.ConnectToSlavesResponseLayout | quarkchain/cluster/rpc.py:77-86 | the payload is a 4-byte count followed by each result behind its 4-byte length, in list order |
| Serialization.PingLayout | quarkchain/cluster/rpc.py:17-31 | a Ping with no shard masks is the id behind its 4-byte length, a zero count, then the root block's own encoding |
| Serialization.PingTextIdLayout | quarkchain/cluster/rpc.py:17-31 | `Ping("abcd", [], rootTip)` is 00 00 00 04, 61 62 63 64, 00 00 00 00, then the root block |
| Serialization.BatchLayout | quarkchain/cluster/rpc.py:523-529 | a batch is a 4-byte count followed by each element exactly as the payload of the AddXshardTxListRequest with the same fields |

## Left out

- Logging (`Logger`, `QKCLogger`, `QKCLogFormatter`, the log prefix and colour helpers, the throttles, the Kafka sender): output, stack introspection and the clock.
- `call_async`, `assert_true_with_timeout`, `crash`, `time_ms` and `main`: asyncio, a ctypes memory write, the clock and a demo driver.
- `sha3_256` and `sha256`: foreign hash libraries, not needed by the modelled code.
- `SHARD_KEY_MAX`: it is not used by the modelled code.
- The internals of the serializers and of the record types from quarkchain/core.py and quarkchain/cluster/core.py: these files are not part of this model. The serializers are modelled as the fixed-width codecs described above, and the record types' codec is the parameter `ext`.
- Placing the opcode and the payload in a transport frame, and the master and slave handlers that act on error codes and payloads: not part of the codec or the registry.
- Serialization.Deserialize: a payload with bytes left after the last field is rejected, and a boolean byte other than 0 or 1 is malformed. This is the strict reading of core.py's decoders, which are not part of this model.
- External.Sound: besides the round trip, it assumes that the record types' decoders reject every byte string that does not start with an encoding of the asked type (External.AcceptsOnlyEncodings). Serialization.DeserializeCanonical, Serialization.OpcodeCanonical, Serialization.TruncatedPayloadRejected and Wire.ProperPrefixIsIncomplete rest on that part. The decoders of quarkchain/core.py and quarkchain/cluster/core.py are not part of this model, so it is not shown that they are this strict.
- Serialization.Serialize: integer fields are `nat`, so a negative Python int, which the fixed-width serializers cannot write, cannot be built at all. Oversized values are modelled and give the range error.
- Utils.IntLeftMostBit: requires v >= 0. For negative v the Python loop never ends: floor halving keeps the value negative. Utils.NegativeNeverReachesZero proves this; a Dafny method must terminate.
- Registry.SerializerFor: the dictionary literal is written as a lookup with one case per entry, in the literal's order. A case label must be a literal, so each key is written as the constant's value with the constant's name in a comment. Registry.ConstantsAreKeys proves that these keys are exactly the 37 constants, and Registry.RegisteredCount that the constants are distinct, so it makes no difference which of two equal keys would win.
- Registry.ResponseTo: the pairing of each request with its response class is read off the class names. The source does not state it as data.
- Messages: the Python constructors of the other classes only store their arguments. They are the datatype constructors themselves and need no function of their own.
- Messages.NewGetMinorBlockRequest: Python's default arguments (`minorBlockHash=None, height=0`) are explicit parameters. Messages.GetMinorBlockRequestDefaults states the defaulted call.
