/**
 * The wire format of `Serializable` records, driven by their FIELDS lists. The serializer
 * classes (`uint16` ... `uint256`, `boolean`, `hash256`, `PreprendedSizeBytesSerializer`,
 * `PreprendedSizeListSerializer` and the record codec itself) live in quarkchain/core.py,
 * which is not part of this model: they are modelled here as the fixed-width big-endian
 * codecs their names state.
 */
module Wire {
  import opened Results
  import opened External

  /** The codec-level failures; application errors travel in `errorCode` fields instead. */
  datatype Error =
    | RangeError        // a value does not fit its declared field
    | TruncatedInput    // fewer bytes remain than a field or a prefix needs
    | MalformedElement  // a byte sequence that no value of the field encodes to
    | MalformedMessage  // trailing bytes after the last field, or a record of the wrong shape
    | UnknownOpcode     // no message class is registered under the opcode
    | EncodingError     // a string id that is not ASCII

  /** How one field is serialized. */
  datatype Field =
    | UInt(size: nat)                        // unsigned big-endian integer of `size` bytes
    | Boolean                                // one byte, 0 or 1
    | Hash256                                // exactly 32 raw bytes
    | SizedBytes(sizeBytes: nat)             // PreprendedSizeBytesSerializer(sizeBytes)
    | SizedList(sizeBytes: nat, elem: Field) // PreprendedSizeListSerializer(sizeBytes, elem)
    | Record(fields: seq<Field>)             // a nested Serializable: its fields in order
    | External(kind: ExternalType)           // a type whose codec is not part of this model

  const uint16: Field := UInt(2)
  const uint32: Field := UInt(4)
  const uint64: Field := UInt(8)
  const uint128: Field := UInt(16)
  const uint256: Field := UInt(32)
  const boolean: Field := Boolean
  const hash256: Field := Hash256

  /** A field's value, before encoding or after decoding. */
  datatype Value =
    | Num(n: nat)
    | Flag(b: bool)
    | Blob(bytes: seq<byte>)
    | ListValue(items: seq<Value>)
    | RecordValue(values: seq<Value>)
    | Ext(x: ExternalValue)

  function Pow256(k: nat): (r: nat)
    ensures r >= 1
  {
    if k == 0 then 1 else 256 * Pow256(k - 1)
  }

  /** The unsigned big-endian number a byte string spells. */
  function FromBigEndian(bs: seq<byte>): (n: nat)
    ensures n < Pow256(|bs|)
  {
    if |bs| == 0 then 0 else FromBigEndian(bs[..|bs| - 1]) * 256 + bs[|bs| - 1]
  }

  /** n as `size` big-endian bytes. */
  function BigEndian(size: nat, n: nat): (bs: seq<byte>)
    requires n < Pow256(size)
    ensures |bs| == size
    ensures FromBigEndian(bs) == n
  {
    if size == 0 then []
    else
      var bs := BigEndian(size - 1, n / 256) + [n % 256];
      assert bs[..size - 1] == BigEndian(size - 1, n / 256);
      bs
  }

  /** Every byte string of length `size` is the big-endian form of the number it spells. */
  lemma {:induction false} BigEndianOfFromBigEndian(bs: seq<byte>)
    ensures BigEndian(|bs|, FromBigEndian(bs)) == bs
  {
    if |bs| > 0 {
      var init, last := bs[..|bs| - 1], bs[|bs| - 1];
      var n := FromBigEndian(bs);
      assert n == FromBigEndian(init) * 256 + last;
      assert n / 256 == FromBigEndian(init) && n % 256 == last;
      BigEndianOfFromBigEndian(init);
      assert BigEndian(|bs|, n) == BigEndian(|init|, FromBigEndian(init)) + [last];
      assert init + [last] == bs;
    }
  }

  /** The value has the shape of the field and fits its widths and prefixes. */
  predicate Fits(f: Field, v: Value)
    decreases f
  {
    match f
    case UInt(size) => v.Num? && v.n < Pow256(size)
    case Boolean => v.Flag?
    case Hash256 => v.Blob? && |v.bytes| == 32
    case SizedBytes(k) => v.Blob? && |v.bytes| < Pow256(k)
    case SizedList(k, e) =>
      v.ListValue? && |v.items| < Pow256(k) &&
      forall i :: 0 <= i < |v.items| ==> Fits(e, v.items[i])
    case Record(fs) =>
      v.RecordValue? && |v.values| == |fs| &&
      forall i :: 0 <= i < |fs| ==> Fits(fs[i], v.values[i])
    case External(t) => v.Ext? && TypeOf(v.x) == t
  }

  /** The bytes of a value that fits its field. */
  function Encode(ext: ExternalCodec, f: Field, v: Value): seq<byte>
    requires Fits(f, v)
    decreases f, 0
  {
    match f
    case UInt(size) => BigEndian(size, v.n)
    case Boolean => [if v.b then 1 else 0]
    case Hash256 => v.bytes
    case SizedBytes(k) => BigEndian(k, |v.bytes|) + v.bytes
    case SizedList(k, e) => BigEndian(k, |v.items|) + EncodeItems(ext, e, v.items)
    case Record(fs) => EncodeFields(ext, fs, v.values)
    case External(_) => ext.encode(v.x)
  }

  /** List elements, one after the other. */
  function EncodeItems(ext: ExternalCodec, e: Field, items: seq<Value>): seq<byte>
    requires forall i :: 0 <= i < |items| ==> Fits(e, items[i])
    decreases e, 1, |items|
  {
    if |items| == 0 then [] else Encode(ext, e, items[0]) + EncodeItems(ext, e, items[1..])
  }

  /** Record fields in declared order, with no tags or separators. */
  function EncodeFields(ext: ExternalCodec, fs: seq<Field>, vs: seq<Value>): seq<byte>
    requires |fs| == |vs| && forall i :: 0 <= i < |fs| ==> Fits(fs[i], vs[i])
    decreases fs
  {
    if |fs| == 0 then [] else Encode(ext, fs[0], vs[0]) + EncodeFields(ext, fs[1..], vs[1..])
  }

  /** Read one value of field f from the front of bs; return it with the bytes after it. */
  function Decode(ext: ExternalCodec, f: Field, bs: seq<byte>): Result<(Value, seq<byte>), Error>
    decreases f, 0
  {
    match f
    case UInt(size) =>
      if |bs| < size then Err(TruncatedInput)
      else Ok((Num(FromBigEndian(bs[..size])), bs[size..]))
    case Boolean =>
      if |bs| < 1 then Err(TruncatedInput)
      else if bs[0] == 0 then Ok((Flag(false), bs[1..]))
      else if bs[0] == 1 then Ok((Flag(true), bs[1..]))
      else Err(MalformedElement)
    case Hash256 =>
      if |bs| < 32 then Err(TruncatedInput) else Ok((Blob(bs[..32]), bs[32..]))
    case SizedBytes(k) =>
      if |bs| < k then Err(TruncatedInput)
      else
        var n := FromBigEndian(bs[..k]);
        if |bs| - k < n then Err(TruncatedInput)
        else Ok((Blob(bs[k..k + n]), bs[k + n..]))
    case SizedList(k, e) =>
      if |bs| < k then Err(TruncatedInput)
      else
        var items :- DecodeItems(ext, e, FromBigEndian(bs[..k]), bs[k..]);
        Ok((ListValue(items.0), items.1))
    case Record(fs) =>
      var values :- DecodeFields(ext, fs, bs);
      Ok((RecordValue(values.0), values.1))
    case External(t) =>
      match ext.decode(t, bs)
      case None => Err(MalformedElement)
      case Some(r) => Ok((Ext(r.0), r.1))
  }

  /** Read `count` elements of field e, in order. */
  function DecodeItems(ext: ExternalCodec, e: Field, count: nat, bs: seq<byte>)
    : Result<(seq<Value>, seq<byte>), Error>
    decreases e, 1, count
  {
    if count == 0 then Ok(([], bs))
    else
      var first :- Decode(ext, e, bs);
      var more :- DecodeItems(ext, e, count - 1, first.1);
      Ok(([first.0] + more.0, more.1))
  }

  /** Read the fields fs, in order. */
  function DecodeFields(ext: ExternalCodec, fs: seq<Field>, bs: seq<byte>)
    : Result<(seq<Value>, seq<byte>), Error>
    decreases fs
  {
    if |fs| == 0 then Ok(([], bs))
    else
      var first :- Decode(ext, fs[0], bs);
      var more :- DecodeFields(ext, fs[1..], first.1);
      Ok(([first.0] + more.0, more.1))
  }

  /** Decoding an encoding gives the value back and leaves whatever followed it. */
  lemma {:induction false} DecodeEncode(ext: ExternalCodec, f: Field, v: Value, rest: seq<byte>)
    requires Sound(ext) && Fits(f, v)
    ensures Decode(ext, f, Encode(ext, f, v) + rest) == Ok((v, rest))
    decreases f, 0
  {
    match f
    case UInt(size) => UIntRoundTrip(ext, size, v.n, rest);
    case Boolean => BooleanRoundTrip(ext, v.b, rest);
    case Hash256 => Hash256RoundTrip(ext, v.bytes, rest);
    case SizedBytes(k) => SizedBytesRoundTrip(ext, k, v.bytes, rest);
    case SizedList(k, e) =>
      DecodeItemsEncode(ext, e, v.items, rest);
      SizedListRoundTrip(ext, k, e, v.items, rest);
    case Record(fs) =>
      DecodeFieldsEncode(ext, fs, v.values, rest);
    case External(t) =>
      assert ext.decode(TypeOf(v.x), ext.encode(v.x) + rest) == Some((v.x, rest));
  }

  lemma UIntRoundTrip(ext: ExternalCodec, size: nat, n: nat, rest: seq<byte>)
    requires n < Pow256(size)
    ensures Decode(ext, UInt(size), Encode(ext, UInt(size), Num(n)) + rest) == Ok((Num(n), rest))
  {
    var bs := BigEndian(size, n) + rest;
    assert bs[..size] == BigEndian(size, n) && bs[size..] == rest;
  }

  lemma BooleanRoundTrip(ext: ExternalCodec, b: bool, rest: seq<byte>)
    ensures Decode(ext, Boolean, Encode(ext, Boolean, Flag(b)) + rest) == Ok((Flag(b), rest))
  {
    var bs := [if b then 1 else 0] + rest;
    assert bs[1..] == rest;
  }

  lemma Hash256RoundTrip(ext: ExternalCodec, h: seq<byte>, rest: seq<byte>)
    requires |h| == 32
    ensures Decode(ext, Hash256, Encode(ext, Hash256, Blob(h)) + rest) == Ok((Blob(h), rest))
  {
    var bs := h + rest;
    assert bs[..32] == h && bs[32..] == rest;
  }

  lemma SizedBytesRoundTrip(ext: ExternalCodec, k: nat, b: seq<byte>, rest: seq<byte>)
    requires |b| < Pow256(k)
    ensures Decode(ext, SizedBytes(k), Encode(ext, SizedBytes(k), Blob(b)) + rest) == Ok((Blob(b), rest))
  {
    Split3(Encode(ext, SizedBytes(k), Blob(b)) + rest, BigEndian(k, |b|), b, rest);
  }

  lemma SizedListRoundTrip(ext: ExternalCodec, k: nat, e: Field, items: seq<Value>, rest: seq<byte>)
    requires |items| < Pow256(k) && forall i :: 0 <= i < |items| ==> Fits(e, items[i])
    requires DecodeItems(ext, e, |items|, EncodeItems(ext, e, items) + rest) == Ok((items, rest))
    ensures Decode(ext, SizedList(k, e), Encode(ext, SizedList(k, e), ListValue(items)) + rest)
      == Ok((ListValue(items), rest))
  {
    Split3(Encode(ext, SizedList(k, e), ListValue(items)) + rest, BigEndian(k, |items|), EncodeItems(ext, e, items), rest);
  }

  /** Cutting a concatenation of three strings at the seams. */
  lemma Split3(bs: seq<byte>, a: seq<byte>, b: seq<byte>, c: seq<byte>)
    requires bs == a + b + c
    ensures bs[..|a|] == a && bs[|a|..] == b + c
    ensures bs[|a|..|a| + |b|] == b && bs[|a| + |b|..] == c
  {
    assert bs == a + (b + c);
  }

  /** Gluing the pieces of a string cut at two points. */
  lemma Join3(bs: seq<byte>, i: nat, j: nat)
    requires i <= j <= |bs|
    ensures bs == bs[..i] + bs[i..j] + bs[j..]
  {
  }

  lemma {:induction false} DecodeItemsEncode(ext: ExternalCodec, e: Field, items: seq<Value>, rest: seq<byte>)
    requires Sound(ext) && forall i :: 0 <= i < |items| ==> Fits(e, items[i])
    ensures DecodeItems(ext, e, |items|, EncodeItems(ext, e, items) + rest) == Ok((items, rest))
    decreases e, 1, |items|
  {
    if |items| > 0 {
      var tail := EncodeItems(ext, e, items[1..]) + rest;
      assert EncodeItems(ext, e, items) + rest == Encode(ext, e, items[0]) + tail;
      DecodeEncode(ext, e, items[0], tail);
      DecodeItemsEncode(ext, e, items[1..], rest);
      assert [items[0]] + items[1..] == items;
    } else {
      assert EncodeItems(ext, e, items) + rest == rest;
    }
  }

  lemma {:induction false} DecodeFieldsEncode(ext: ExternalCodec, fs: seq<Field>, vs: seq<Value>, rest: seq<byte>)
    requires Sound(ext) && |fs| == |vs| && forall i :: 0 <= i < |fs| ==> Fits(fs[i], vs[i])
    ensures DecodeFields(ext, fs, EncodeFields(ext, fs, vs) + rest) == Ok((vs, rest))
    decreases fs
  {
    if |fs| > 0 {
      var tail := EncodeFields(ext, fs[1..], vs[1..]) + rest;
      assert EncodeFields(ext, fs, vs) + rest == Encode(ext, fs[0], vs[0]) + tail;
      DecodeEncode(ext, fs[0], vs[0], tail);
      DecodeFieldsEncode(ext, fs[1..], vs[1..], rest);
      assert [vs[0]] + vs[1..] == vs;
    } else {
      assert EncodeFields(ext, fs, vs) + rest == rest;
    }
  }

  /** Whatever decodes is a fitting value followed by the undecoded rest: encodings are canonical. */
  lemma {:induction false} DecodedIsEncoding(ext: ExternalCodec, f: Field, bs: seq<byte>)
    requires Sound(ext) && Decode(ext, f, bs).Ok?
    ensures Fits(f, Decode(ext, f, bs).value.0)
    ensures bs == Encode(ext, f, Decode(ext, f, bs).value.0) + Decode(ext, f, bs).value.1
    decreases f, 0
  {
    match f
    case UInt(size) => UIntCanonical(ext, size, bs);
    case Boolean => BooleanCanonical(ext, bs);
    case Hash256 => Hash256Canonical(ext, bs);
    case SizedBytes(k) => SizedBytesCanonical(ext, k, bs);
    case SizedList(k, e) =>
      var n := FromBigEndian(bs[..k]);
      DecodedItemsAreEncoding(ext, e, n, bs[k..]);
      var r := DecodeItems(ext, e, n, bs[k..]).value;
      SizedListCanonical(ext, k, e, bs, r.0, r.1);
    case Record(fs) =>
      DecodedFieldsAreEncoding(ext, fs, bs);
    case External(t) =>
  }

  lemma UIntCanonical(ext: ExternalCodec, size: nat, bs: seq<byte>)
    requires Decode(ext, UInt(size), bs).Ok?
    ensures Fits(UInt(size), Decode(ext, UInt(size), bs).value.0)
    ensures bs == Encode(ext, UInt(size), Decode(ext, UInt(size), bs).value.0) + Decode(ext, UInt(size), bs).value.1
  {
    BigEndianOfFromBigEndian(bs[..size]);
    assert bs == bs[..size] + bs[size..];
  }

  lemma BooleanCanonical(ext: ExternalCodec, bs: seq<byte>)
    requires Decode(ext, Boolean, bs).Ok?
    ensures Fits(Boolean, Decode(ext, Boolean, bs).value.0)
    ensures bs == Encode(ext, Boolean, Decode(ext, Boolean, bs).value.0) + Decode(ext, Boolean, bs).value.1
  {
    assert bs == [bs[0]] + bs[1..];
  }

  lemma Hash256Canonical(ext: ExternalCodec, bs: seq<byte>)
    requires Decode(ext, Hash256, bs).Ok?
    ensures Fits(Hash256, Decode(ext, Hash256, bs).value.0)
    ensures bs == Encode(ext, Hash256, Decode(ext, Hash256, bs).value.0) + Decode(ext, Hash256, bs).value.1
  {
    assert bs == bs[..32] + bs[32..];
  }

  lemma SizedBytesCanonical(ext: ExternalCodec, k: nat, bs: seq<byte>)
    requires Decode(ext, SizedBytes(k), bs).Ok?
    ensures Fits(SizedBytes(k), Decode(ext, SizedBytes(k), bs).value.0)
    ensures bs == Encode(ext, SizedBytes(k), Decode(ext, SizedBytes(k), bs).value.0) + Decode(ext, SizedBytes(k), bs).value.1
  {
    var n := FromBigEndian(bs[..k]);
    assert Decode(ext, SizedBytes(k), bs) == Ok((Blob(bs[k..k + n]), bs[k + n..]));
    BigEndianOfFromBigEndian(bs[..k]);
    Join3(bs, k, k + n);
  }

  lemma SizedListCanonical(ext: ExternalCodec, k: nat, e: Field, bs: seq<byte>, items: seq<Value>, rest: seq<byte>)
    requires |bs| >= k && |items| == FromBigEndian(bs[..k])
    requires forall i :: 0 <= i < |items| ==> Fits(e, items[i])
    requires bs[k..] == EncodeItems(ext, e, items) + rest
    ensures Fits(SizedList(k, e), ListValue(items))
    ensures bs == Encode(ext, SizedList(k, e), ListValue(items)) + rest
  {
    BigEndianOfFromBigEndian(bs[..k]);
    assert bs == bs[..k] + (EncodeItems(ext, e, items) + rest);
  }

  lemma {:induction false} DecodedItemsAreEncoding(ext: ExternalCodec, e: Field, count: nat, bs: seq<byte>)
    requires Sound(ext) && DecodeItems(ext, e, count, bs).Ok?
    ensures var (items, rest) := DecodeItems(ext, e, count, bs).value;
      |items| == count && (forall i :: 0 <= i < |items| ==> Fits(e, items[i])) &&
      bs == EncodeItems(ext, e, items) + rest
    decreases e, 1, count
  {
    if count > 0 {
      var first := Decode(ext, e, bs).value;
      DecodedIsEncoding(ext, e, bs);
      DecodedItemsAreEncoding(ext, e, count - 1, first.1);
      var more := DecodeItems(ext, e, count - 1, first.1).value;
      ItemsCons(ext, e, first.0, more.0, bs, first.1, more.1);
    }
  }

  /** An element's encoding followed by the encoding of more elements encodes the longer list. */
  lemma ItemsCons(ext: ExternalCodec, e: Field, x: Value, xs: seq<Value>, bs: seq<byte>, mid: seq<byte>, rest: seq<byte>)
    requires Fits(e, x) && forall i :: 0 <= i < |xs| ==> Fits(e, xs[i])
    requires bs == Encode(ext, e, x) + mid && mid == EncodeItems(ext, e, xs) + rest
    ensures forall i :: 0 <= i < |[x] + xs| ==> Fits(e, ([x] + xs)[i])
    ensures bs == EncodeItems(ext, e, [x] + xs) + rest
  {
    assert ([x] + xs)[1..] == xs;
  }

  lemma {:induction false} DecodedFieldsAreEncoding(ext: ExternalCodec, fs: seq<Field>, bs: seq<byte>)
    requires Sound(ext) && DecodeFields(ext, fs, bs).Ok?
    ensures var (vs, rest) := DecodeFields(ext, fs, bs).value;
      |vs| == |fs| && (forall i :: 0 <= i < |fs| ==> Fits(fs[i], vs[i])) &&
      bs == EncodeFields(ext, fs, vs) + rest
    decreases fs
  {
    if |fs| > 0 {
      var first := Decode(ext, fs[0], bs).value;
      DecodedIsEncoding(ext, fs[0], bs);
      DecodedFieldsAreEncoding(ext, fs[1..], first.1);
      var more := DecodeFields(ext, fs[1..], first.1).value;
      var vs := [first.0] + more.0;
      assert vs[1..] == more.0;
    }
  }

  /** Decoding fails only for input that is cut short or holds a byte string no value encodes to. */
  predicate DecodeFailure(e: Error)
  {
    e == TruncatedInput || e == MalformedElement
  }

  lemma {:induction false} DecodeErrors(ext: ExternalCodec, f: Field, bs: seq<byte>)
    ensures Decode(ext, f, bs).Err? ==> DecodeFailure(Decode(ext, f, bs).error)
    decreases f, 0
  {
    match f
    case SizedList(k, e) =>
      if |bs| >= k {
        DecodeItemsErrors(ext, e, FromBigEndian(bs[..k]), bs[k..]);
      }
    case Record(fs) => DecodeFieldsErrors(ext, fs, bs);
    case _ =>
  }

  lemma {:induction false} DecodeItemsErrors(ext: ExternalCodec, e: Field, count: nat, bs: seq<byte>)
    ensures DecodeItems(ext, e, count, bs).Err? ==> DecodeFailure(DecodeItems(ext, e, count, bs).error)
    decreases e, 1, count
  {
    if count > 0 {
      DecodeErrors(ext, e, bs);
      if Decode(ext, e, bs).Ok? {
        DecodeItemsErrors(ext, e, count - 1, Decode(ext, e, bs).value.1);
      }
    }
  }

  lemma {:induction false} DecodeFieldsErrors(ext: ExternalCodec, fs: seq<Field>, bs: seq<byte>)
    ensures DecodeFields(ext, fs, bs).Err? ==> DecodeFailure(DecodeFields(ext, fs, bs).error)
    decreases fs
  {
    if |fs| > 0 {
      DecodeErrors(ext, fs[0], bs);
      if Decode(ext, fs[0], bs).Ok? {
        DecodeFieldsErrors(ext, fs[1..], Decode(ext, fs[0], bs).value.1);
      }
    }
  }

  /** Distinct values of a field have distinct encodings. */
  lemma EncodeInjective(ext: ExternalCodec, f: Field, v: Value, w: Value)
    requires Sound(ext) && Fits(f, v) && Fits(f, w)
    requires Encode(ext, f, v) == Encode(ext, f, w)
    ensures v == w
  {
    DecodeEncode(ext, f, v, []);
    DecodeEncode(ext, f, w, []);
  }

  /** No proper prefix of an encoding decodes at all: a cut-off value is always an error. */
  lemma ProperPrefixIsIncomplete(ext: ExternalCodec, f: Field, v: Value, k: nat)
    requires Sound(ext) && Fits(f, v) && k < |Encode(ext, f, v)|
    ensures Decode(ext, f, Encode(ext, f, v)[..k]).Err?
  {
    var e := Encode(ext, f, v);
    assert e + [] == e;
    var p := e[..k];
    if Decode(ext, f, p).Ok? {
      DecodedIsEncoding(ext, f, p);
      var d := Decode(ext, f, p).value;
      PrefixSplit(e, p, e[k..], Encode(ext, f, d.0), d.1);
      DecodeEncode(ext, f, v, []);
      DecodeEncode(ext, f, d.0, d.1 + e[k..]);
    }
  }

  lemma PrefixSplit(e: seq<byte>, p: seq<byte>, tail: seq<byte>, head: seq<byte>, mid: seq<byte>)
    requires e == p + tail && p == head + mid
    ensures e == head + (mid + tail)
  {
  }
}
