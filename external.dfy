/**
 * The record types the cluster messages carry but do not define: they come from
 * quarkchain/core.py and quarkchain/cluster/core.py, which are not part of this model.
 * Each is an abstract type, and their wire codec is a parameter of the model, assumed
 * to be an exact inverse pair (Sound).
 */
module External {
  import opened Results

  type byte = b: int | 0 <= b < 256

  type RootBlock(==, !new)
  type MinorBlock(==, !new)
  type MinorBlockHeader(==, !new)
  type Transaction(==, !new)
  type TransactionReceipt(==, !new)
  type CrossShardTransactionList(==, !new)
  type Branch(==, !new)
  type Address(==, !new)
  type ShardMask(==, !new)

  /** Which external type a field holds. */
  datatype ExternalType =
    | RootBlockType
    | MinorBlockType
    | MinorBlockHeaderType
    | TransactionType
    | TransactionReceiptType
    | CrossShardTransactionListType
    | BranchType
    | AddressType
    | ShardMaskType

  /** A value of one of the external types. */
  datatype ExternalValue =
    | RootBlockValue(rootBlock: RootBlock)
    | MinorBlockValue(minorBlock: MinorBlock)
    | MinorBlockHeaderValue(header: MinorBlockHeader)
    | TransactionValue(tx: Transaction)
    | TransactionReceiptValue(receipt: TransactionReceipt)
    | CrossShardTransactionListValue(txList: CrossShardTransactionList)
    | BranchValue(branch: Branch)
    | AddressValue(address: Address)
    | ShardMaskValue(shardMask: ShardMask)

  function TypeOf(x: ExternalValue): ExternalType
  {
    match x
    case RootBlockValue(_) => RootBlockType
    case MinorBlockValue(_) => MinorBlockType
    case MinorBlockHeaderValue(_) => MinorBlockHeaderType
    case TransactionValue(_) => TransactionType
    case TransactionReceiptValue(_) => TransactionReceiptType
    case CrossShardTransactionListValue(_) => CrossShardTransactionListType
    case BranchValue(_) => BranchType
    case AddressValue(_) => AddressType
    case ShardMaskValue(_) => ShardMaskType
  }

  /**
   * The serializers of the external types: `encode` renders a value, `decode` reads a
   * value of the given type from the front of a byte string and returns it with the
   * bytes that follow, or None when the bytes do not hold one.
   */
  datatype ExternalCodec = ExternalCodec(
    encode: ExternalValue -> seq<byte>,
    decode: (ExternalType, seq<byte>) -> Option<(ExternalValue, seq<byte>)>)

  /** Decoding what was encoded gives the value back and leaves what followed. */
  ghost predicate DecodesEncoding(c: ExternalCodec)
  {
    forall x, rest :: c.decode(TypeOf(x), c.encode(x) + rest) == Some((x, rest))
  }

  /** A successful decode consumed exactly the encoding of a value of the asked type. */
  ghost predicate AcceptsOnlyEncodings(c: ExternalCodec)
  {
    forall t, bs :: c.decode(t, bs).Some? ==>
      var (x, rest) := c.decode(t, bs).value;
      TypeOf(x) == t && bs == c.encode(x) + rest
  }

  /** The assumption made of the external serializers. */
  ghost predicate Sound(c: ExternalCodec)
  {
    DecodesEncoding(c) && AcceptsOnlyEncodings(c)
  }
}
