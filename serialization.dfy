/**
 * Whole messages on the wire: a message's payload is the record of its fields encoded by
 * its FIELDS list, and a payload received under an opcode is decoded by the class that
 * CLUSTER_OP_SERIALIZER_MAP registers for it. Placing the opcode and the payload in a
 * transport frame is not part of this model.
 */
module Serialization {
  import opened Results
  import opened External
  import opened Wire
  import opened Messages
  import Catalog
  import Registry

  /** The message's fields fit the widths and prefixes of its class's FIELDS list. */
  predicate Valid(m: Message)
  {
    Fits(Catalog.Schema(Messages.TypeOf(m)), RecordValue(ToFields(m)))
  }

  /** `m.serialize()`: a range error when a field does not fit its declared width. */
  function Serialize(ext: ExternalCodec, m: Message): (r: Result<seq<byte>, Error>)
    ensures r.Ok? <==> Valid(m)
    ensures r.Err? ==> r.error == RangeError
  {
    if Valid(m) then Ok(Encode(ext, Catalog.Schema(Messages.TypeOf(m)), RecordValue(ToFields(m))))
    else Err(RangeError)
  }

  /**
   * `cls.deserialize(payload)` for the class of type t: the fields are read in declared
   * order and the payload must end exactly after the last one.
   */
  function Deserialize(ext: ExternalCodec, t: Catalog.MessageType, bs: seq<byte>): Result<Message, Error>
  {
    var (v, rest) :- Decode(ext, Catalog.Schema(t), bs);
    if rest != [] || !v.RecordValue? then Err(MalformedMessage)
    else
      match FromFields(t, v.values)
      case None => Err(MalformedMessage)
      case Some(m) => Ok(m)
  }

  /** A payload received under an opcode, decoded by the class registered for it. */
  function DeserializeOpcode(ext: ExternalCodec, op: int, bs: seq<byte>): Result<Message, Error>
  {
    var t :- Registry.Resolve(op);
    Deserialize(ext, t, bs)
  }

  /** Decoding a message's payload as its own class gives the message back. */
  lemma SerializeRoundTrip(ext: ExternalCodec, m: Message)
    requires Sound(ext) && Valid(m)
    ensures Deserialize(ext, Messages.TypeOf(m), Serialize(ext, m).value) == Ok(m)
  {
    var e := Encode(ext, Catalog.Schema(Messages.TypeOf(m)), RecordValue(ToFields(m)));
    assert e + [] == e;
    DecodeEncode(ext, Catalog.Schema(Messages.TypeOf(m)), RecordValue(ToFields(m)), []);
    FieldsRoundTrip(m);
  }

  /** Whatever payload decodes is the payload of the message it decodes to: payloads are canonical. */
  lemma DeserializeCanonical(ext: ExternalCodec, t: Catalog.MessageType, bs: seq<byte>)
    requires Sound(ext) && Deserialize(ext, t, bs).Ok?
    ensures Messages.TypeOf(Deserialize(ext, t, bs).value) == t
    ensures Serialize(ext, Deserialize(ext, t, bs).value) == Ok(bs)
  {
    var f := Catalog.Schema(t);
    var m := Deserialize(ext, t, bs).value;
    var d := Decode(ext, f, bs).value;
    assert d.1 == [] && d.0.RecordValue? && FromFields(t, d.0.values) == Some(m);
    DecodedIsEncoding(ext, f, bs);
    FieldsCanonical(t, d.0.values);
    SerializeIs(ext, m, f, d.0);
    assert bs == Encode(ext, f, d.0) + [] == Encode(ext, f, d.0);
  }

  /** The payload of a message, given its schema and its fields. */
  lemma SerializeIs(ext: ExternalCodec, m: Message, f: Field, v: Value)
    requires f == Catalog.Schema(Messages.TypeOf(m)) && v == RecordValue(ToFields(m))
    ensures Valid(m) == Fits(f, v)
    ensures Valid(m) ==> Serialize(ext, m) == Ok(Encode(ext, f, v))
  {
  }

  /** The payload of a message whose class declares the fields fs and whose fields are vs. */
  lemma PayloadIs(ext: ExternalCodec, m: Message, fs: seq<Field>, vs: seq<Value>)
    requires Catalog.Fields(Messages.TypeOf(m)) == fs && ToFields(m) == vs
    requires Fits(Record(fs), RecordValue(vs))
    ensures Valid(m) && Serialize(ext, m) == Ok(EncodeFields(ext, fs, vs))
  {
    SerializeIs(ext, m, Record(fs), RecordValue(vs));
  }

  /** A record with one more field in front: its payload has that field's encoding in front. */
  lemma FieldsCons(ext: ExternalCodec, f: Field, fs: seq<Field>, v: Value, vs: seq<Value>)
    requires Fits(f, v) && Fits(Record(fs), RecordValue(vs))
    ensures Fits(Record([f] + fs), RecordValue([v] + vs))
    ensures EncodeFields(ext, [f] + fs, [v] + vs) == Encode(ext, f, v) + EncodeFields(ext, fs, vs)
  {
    assert ([f] + fs)[1..] == fs && ([v] + vs)[1..] == vs;
  }

  lemma Fields1(ext: ExternalCodec, f0: Field, v0: Value)
    requires Fits(f0, v0)
    ensures Fits(Record([f0]), RecordValue([v0]))
    ensures EncodeFields(ext, [f0], [v0]) == Encode(ext, f0, v0)
  {
    FieldsCons(ext, f0, [], v0, []);
    assert [f0] + [] == [f0] && [v0] + [] == [v0];
    assert Encode(ext, f0, v0) + [] == Encode(ext, f0, v0);
  }

  lemma Fields2(ext: ExternalCodec, f0: Field, f1: Field, v0: Value, v1: Value)
    requires Fits(f0, v0) && Fits(f1, v1)
    ensures Fits(Record([f0, f1]), RecordValue([v0, v1]))
    ensures EncodeFields(ext, [f0, f1], [v0, v1]) == Encode(ext, f0, v0) + Encode(ext, f1, v1)
  {
    Fields1(ext, f1, v1);
    FieldsCons(ext, f0, [f1], v0, [v1]);
    assert [f0] + [f1] == [f0, f1] && [v0] + [v1] == [v0, v1];
  }

  lemma Fields3(ext: ExternalCodec, f0: Field, f1: Field, f2: Field, v0: Value, v1: Value, v2: Value)
    requires Fits(f0, v0) && Fits(f1, v1) && Fits(f2, v2)
    ensures Fits(Record([f0, f1, f2]), RecordValue([v0, v1, v2]))
    ensures EncodeFields(ext, [f0, f1, f2], [v0, v1, v2])
      == Encode(ext, f0, v0) + Encode(ext, f1, v1) + Encode(ext, f2, v2)
  {
    Fields2(ext, f1, f2, v1, v2);
    FieldsCons(ext, f0, [f1, f2], v0, [v1, v2]);
    assert [f0] + [f1, f2] == [f0, f1, f2] && [v0] + [v1, v2] == [v0, v1, v2];
  }

  /** Two messages with the same payload are the same message. */
  lemma SerializeInjective(ext: ExternalCodec, m: Message, n: Message)
    requires Sound(ext) && Valid(m) && Valid(n) && Messages.TypeOf(m) == Messages.TypeOf(n)
    requires Serialize(ext, m) == Serialize(ext, n)
    ensures m == n
  {
    SerializeRoundTrip(ext, m);
    SerializeRoundTrip(ext, n);
  }

  /** A payload sent under its class's opcode decodes to the message that was sent. */
  lemma OpcodeRoundTrip(ext: ExternalCodec, m: Message)
    requires Sound(ext) && Valid(m)
    ensures DeserializeOpcode(ext, Registry.Opcode(Messages.TypeOf(m)), Serialize(ext, m).value) == Ok(m)
  {
    Registry.ResolveOpcode(Messages.TypeOf(m));
    SerializeRoundTrip(ext, m);
  }

  /** What decodes under an opcode is a message of the class registered for it. */
  lemma OpcodeCanonical(ext: ExternalCodec, op: int, bs: seq<byte>)
    requires Sound(ext) && DeserializeOpcode(ext, op, bs).Ok?
    ensures Registry.Opcode(Messages.TypeOf(DeserializeOpcode(ext, op, bs).value)) == op
    ensures Serialize(ext, DeserializeOpcode(ext, op, bs).value) == Ok(bs)
  {
    Registry.OpcodeResolve(op);
    DeserializeCanonical(ext, Registry.Resolve(op).value, bs);
  }

  /** An opcode no class is registered under is rejected whatever the payload. */
  lemma UnknownOpcodeRejected(ext: ExternalCodec, op: int, bs: seq<byte>)
    requires Registry.SerializerFor(op).None?
    ensures DeserializeOpcode(ext, op, bs) == Err(UnknownOpcode)
  {
  }

  /** Decoding fails only with a truncated, malformed-element or malformed-message error. */
  lemma DeserializeErrors(ext: ExternalCodec, t: Catalog.MessageType, bs: seq<byte>)
    ensures Deserialize(ext, t, bs).Err? ==>
      DecodeFailure(Deserialize(ext, t, bs).error) || Deserialize(ext, t, bs).error == MalformedMessage
  {
    DecodeErrors(ext, Catalog.Schema(t), bs);
  }

  /** A payload cut short anywhere is rejected, with a truncated or malformed-element error. */
  lemma TruncatedPayloadRejected(ext: ExternalCodec, m: Message, k: nat)
    requires Sound(ext) && Valid(m) && k < |Serialize(ext, m).value|
    ensures Deserialize(ext, Messages.TypeOf(m), Serialize(ext, m).value[..k]).Err?
    ensures DecodeFailure(Deserialize(ext, Messages.TypeOf(m), Serialize(ext, m).value[..k]).error)
  {
    var f := Catalog.Schema(Messages.TypeOf(m));
    var p := Encode(ext, f, RecordValue(ToFields(m)))[..k];
    ProperPrefixIsIncomplete(ext, f, RecordValue(ToFields(m)), k);
    DecodeErrors(ext, f, p);
  }

  /** Bytes after the last field make a payload malformed. */
  lemma TrailingBytesRejected(ext: ExternalCodec, m: Message, extra: seq<byte>)
    requires Sound(ext) && Valid(m) && extra != []
    ensures Deserialize(ext, Messages.TypeOf(m), Serialize(ext, m).value + extra) == Err(MalformedMessage)
  {
    DecodeEncode(ext, Catalog.Schema(Messages.TypeOf(m)), RecordValue(ToFields(m)), extra);
  }

  // The layouts of some payloads, byte for byte.

  /** AddRootBlockResponse: the error code as 4 big-endian bytes, then one byte for `switched`. */
  lemma AddRootBlockResponseLayout(ext: ExternalCodec, errorCode: nat, switched: bool)
    requires errorCode < Pow256(4)
    ensures Serialize(ext, AddRootBlockResponse(errorCode, switched))
      == Ok(BigEndian(4, errorCode) + [if switched then 1 else 0])
  {
    var m := AddRootBlockResponse(errorCode, switched);
    assert Messages.TypeOf(m) == Catalog.MessageType.AddRootBlockResponse;
    assert Catalog.Fields(Catalog.MessageType.AddRootBlockResponse) == [uint32, boolean];
    Fields2(ext, uint32, boolean, Num(errorCode), Flag(switched));
    PayloadIs(ext, m, [uint32, boolean], [Num(errorCode), Flag(switched)]);
  }

  /** A class with an empty FIELDS list has the empty payload. */
  lemma GetEcoInfoListRequestLayout(ext: ExternalCodec)
    ensures Serialize(ext, GetEcoInfoListRequest) == Ok([])
  {
    assert Messages.TypeOf(GetEcoInfoListRequest) == Catalog.MessageType.GetEcoInfoListRequest;
    assert Catalog.Fields(Catalog.MessageType.GetEcoInfoListRequest) == [];
    PayloadIs(ext, GetEcoInfoListRequest, [], []);
  }

  /** Byte strings one after the other, each behind its 4-byte length. */
  function SizedBlobs(bs: seq<seq<byte>>): seq<byte>
    requires forall i :: 0 <= i < |bs| ==> |bs[i]| < Pow256(4)
  {
    if |bs| == 0 then [] else BigEndian(4, |bs[0]|) + bs[0] + SizedBlobs(bs[1..])
  }

  lemma {:induction false} BlobItemsLayout(ext: ExternalCodec, bs: seq<seq<byte>>, items: seq<Value>)
    requires forall i :: 0 <= i < |bs| ==> |bs[i]| < Pow256(4)
    requires |items| == |bs| && forall i :: 0 <= i < |bs| ==> items[i] == Blob(bs[i])
    ensures forall i :: 0 <= i < |items| ==> Fits(Catalog.Bytes4, items[i])
    ensures EncodeItems(ext, Catalog.Bytes4, items) == SizedBlobs(bs)
  {
    if |bs| > 0 {
      BlobItemsLayout(ext, bs[1..], items[1..]);
    }
  }

  /** ConnectToSlavesResponse: a 4-byte count, then each result behind its 4-byte length, in order. */
  lemma ConnectToSlavesResponseLayout(ext: ExternalCodec, resultList: seq<seq<byte>>)
    requires |resultList| < Pow256(4) && forall i :: 0 <= i < |resultList| ==> |resultList[i]| < Pow256(4)
    ensures Serialize(ext, ConnectToSlavesResponse(resultList))
      == Ok(BigEndian(4, |resultList|) + SizedBlobs(resultList))
  {
    var m := ConnectToSlavesResponse(resultList);
    var list := ListToValue(resultList, BytesToValue);
    var lf := Catalog.ListOf(Catalog.Bytes4);
    assert Messages.TypeOf(m) == Catalog.MessageType.ConnectToSlavesResponse;
    assert Catalog.Fields(Catalog.MessageType.ConnectToSlavesResponse) == [lf];
    assert ToFields(m) == [list];
    BlobItemsLayout(ext, resultList, list.items);
    Fields1(ext, lf, list);
    PayloadIs(ext, m, [lf], [list]);
  }

  /** Ping with no shard masks: the id behind its length, a zero count, then the root block. */
  lemma PingLayout(ext: ExternalCodec, id: seq<byte>, rootTip: RootBlock)
    requires |id| < Pow256(4)
    ensures Serialize(ext, Ping(id, [], rootTip))
      == Ok(BigEndian(4, |id|) + id + BigEndian(4, 0) + ext.encode(RootBlockValue(rootTip)))
  {
    var m := Ping(id, [], rootTip);
    var masks := ListToValue([], ShardMaskToValue);
    var lf := Catalog.ListOf(Catalog.ShardMaskField);
    assert masks == ListValue([]);
    assert Messages.TypeOf(m) == Catalog.MessageType.Ping;
    assert Catalog.Fields(Catalog.MessageType.Ping) == [Catalog.Bytes4, lf, Catalog.RootBlockField];
    assert ToFields(m) == [Blob(id), masks, RootBlockToValue(rootTip)];
    PingPieces(ext, id, masks, rootTip);
    Fields3(ext, Catalog.Bytes4, lf, Catalog.RootBlockField, Blob(id), masks, RootBlockToValue(rootTip));
    PayloadIs(ext, m, [Catalog.Bytes4, lf, Catalog.RootBlockField], [Blob(id), masks, RootBlockToValue(rootTip)]);
  }

  lemma PingPieces(ext: ExternalCodec, id: seq<byte>, masks: Value, rootTip: RootBlock)
    requires |id| < Pow256(4) && masks == ListValue([])
    ensures Fits(Catalog.Bytes4, Blob(id)) && Encode(ext, Catalog.Bytes4, Blob(id)) == BigEndian(4, |id|) + id
    ensures Fits(Catalog.ListOf(Catalog.ShardMaskField), masks)
    ensures Encode(ext, Catalog.ListOf(Catalog.ShardMaskField), masks) == BigEndian(4, 0)
    ensures Fits(Catalog.RootBlockField, RootBlockToValue(rootTip))
    ensures Encode(ext, Catalog.RootBlockField, RootBlockToValue(rootTip)) == ext.encode(RootBlockValue(rootTip))
  {
    assert BigEndian(4, 0) + [] == BigEndian(4, 0);
  }

  /** `Ping("abcd", [], rootTip)`: the id is sent as its four ASCII bytes. */
  lemma PingTextIdLayout(ext: ExternalCodec, rootTip: RootBlock)
    ensures NewPing(TextId("abcd"), [], rootTip).Ok?
    ensures Serialize(ext, NewPing(TextId("abcd"), [], rootTip).value)
      == Ok([0, 0, 0, 4] + [97, 98, 99, 100] + [0, 0, 0, 0] + ext.encode(RootBlockValue(rootTip)))
  {
    var id: seq<byte> := [97, 98, 99, 100];
    assert IsAscii("abcd");
    assert AsciiEncode("abcd").value == id;
    assert NewPing(TextId("abcd"), [], rootTip) == Ok(Ping(id, [], rootTip));
    PingLayout(ext, id, rootTip);
    SmallBigEndian(4);
    SmallBigEndian(0);
  }

  /** A number below 256 in four big-endian bytes. */
  lemma SmallBigEndian(n: nat)
    requires n < 256
    ensures BigEndian(4, n) == [0, 0, 0, n]
  {
    BigEndianStep(1, 0, []);
    BigEndianStep(2, 0, [0]);
    BigEndianStep(3, 0, [0, 0]);
    BigEndianStep(4, n, [0, 0, 0]);
  }

  lemma BigEndianStep(size: nat, n: nat, high: seq<byte>)
    requires 0 < size && n < Pow256(size) && BigEndian(size - 1, n / 256) == high
    ensures BigEndian(size, n) == high + [n % 256]
  {
  }

  /** The AddXshardTxListRequest message with the body of a batch element. */
  function ElementRequest(r: XshardTxList): Message
  {
    Message.AddXshardTxListRequest(r.branch, r.minorBlockHash, r.txList)
  }

  /** The payloads of the requests, one after the other. */
  function RequestPayloads(ext: ExternalCodec, rs: seq<XshardTxList>): seq<byte>
    requires forall i :: 0 <= i < |rs| ==> Valid(ElementRequest(rs[i]))
  {
    if |rs| == 0 then [] else Serialize(ext, ElementRequest(rs[0])).value + RequestPayloads(ext, rs[1..])
  }

  lemma ElementPayload(ext: ExternalCodec, r: XshardTxList, item: Value)
    requires Valid(ElementRequest(r)) && item == XshardTxListToValue(r)
    ensures Fits(Record(Catalog.AddXshardTxListRequestFields), item)
    ensures Encode(ext, Record(Catalog.AddXshardTxListRequestFields), item)
      == Serialize(ext, ElementRequest(r)).value
  {
    var m := ElementRequest(r);
    assert Messages.TypeOf(m) == Catalog.MessageType.AddXshardTxListRequest;
    assert Catalog.Schema(Catalog.MessageType.AddXshardTxListRequest) == Record(Catalog.AddXshardTxListRequestFields);
    assert ToFields(m) == item.values;
    SerializeIs(ext, m, Record(Catalog.AddXshardTxListRequestFields), item);
  }

  lemma {:induction false} ElementItemsLayout(ext: ExternalCodec, rs: seq<XshardTxList>, items: seq<Value>)
    requires forall i :: 0 <= i < |rs| ==> Valid(ElementRequest(rs[i]))
    requires |items| == |rs| && forall i :: 0 <= i < |rs| ==> items[i] == XshardTxListToValue(rs[i])
    ensures forall i :: 0 <= i < |items| ==> Fits(Record(Catalog.AddXshardTxListRequestFields), items[i])
    ensures EncodeItems(ext, Record(Catalog.AddXshardTxListRequestFields), items) == RequestPayloads(ext, rs)
  {
    forall i | 0 <= i < |items|
      ensures Fits(Record(Catalog.AddXshardTxListRequestFields), items[i])
    {
      ElementPayload(ext, rs[i], items[i]);
    }
    if |rs| > 0 {
      ElementPayload(ext, rs[0], items[0]);
      ElementItemsLayout(ext, rs[1..], items[1..]);
    }
  }

  /**
   * BatchAddXshardTxListRequest: a 4-byte count, then each element exactly as the payload of
   * the AddXshardTxListRequest with the same fields.
   */
  lemma BatchLayout(ext: ExternalCodec, rs: seq<XshardTxList>)
    requires |rs| < Pow256(4) && forall i :: 0 <= i < |rs| ==> Valid(ElementRequest(rs[i]))
    ensures Serialize(ext, BatchAddXshardTxListRequest(rs)) == Ok(BigEndian(4, |rs|) + RequestPayloads(ext, rs))
  {
    var m := BatchAddXshardTxListRequest(rs);
    var list := ListToValue(rs, XshardTxListToValue);
    var lf := Catalog.ListOf(Record(Catalog.AddXshardTxListRequestFields));
    assert Messages.TypeOf(m) == Catalog.MessageType.BatchAddXshardTxListRequest;
    assert Catalog.Fields(Catalog.MessageType.BatchAddXshardTxListRequest) == [lf];
    assert ToFields(m) == [list];
    ElementItemsLayout(ext, rs, list.items);
    Fields1(ext, lf, list);
    PayloadIs(ext, m, [lf], [list]);
  }
}
