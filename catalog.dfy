/**
 * The message classes of quarkchain/cluster/rpc.py, one constructor per class that the
 * opcode map registers, and the FIELDS layout of each: field codecs in declared order.
 */
module Catalog {
  import opened External
  import opened Wire

  datatype MessageType =
    | Ping
    | Pong
    | ConnectToSlavesRequest
    | ConnectToSlavesResponse
    | AddRootBlockRequest
    | AddRootBlockResponse
    | GetEcoInfoListRequest
    | GetEcoInfoListResponse
    | GetNextBlockToMineRequest
    | GetNextBlockToMineResponse
    | GetUnconfirmedHeadersRequest
    | GetUnconfirmedHeadersResponse
    | GetAccountDataRequest
    | GetAccountDataResponse
    | AddTransactionRequest
    | AddTransactionResponse
    | AddMinorBlockHeaderRequest
    | AddMinorBlockHeaderResponse
    | AddXshardTxListRequest
    | AddXshardTxListResponse
    | SyncMinorBlockListRequest
    | SyncMinorBlockListResponse
    | AddMinorBlockRequest
    | AddMinorBlockResponse
    | CreateClusterPeerConnectionRequest
    | CreateClusterPeerConnectionResponse
    | DestroyClusterPeerConnectionCommand
    | GetMinorBlockRequest
    | GetMinorBlockResponse
    | GetTransactionRequest
    | GetTransactionResponse
    | BatchAddXshardTxListRequest
    | BatchAddXshardTxListResponse
    | ExecuteTransactionRequest
    | ExecuteTransactionResponse
    | GetTransactionReceiptRequest
    | GetTransactionReceiptResponse

  const RootBlockField: Field := External(RootBlockType)
  const MinorBlockField: Field := External(MinorBlockType)
  const MinorBlockHeaderField: Field := External(MinorBlockHeaderType)
  const TransactionField: Field := External(TransactionType)
  const TransactionReceiptField: Field := External(TransactionReceiptType)
  const CrossShardTransactionListField: Field := External(CrossShardTransactionListType)
  const BranchField: Field := External(BranchType)
  const AddressField: Field := External(AddressType)
  const ShardMaskField: Field := External(ShardMaskType)

  /** PreprendedSizeBytesSerializer(4): a blob behind a 4-byte length. */
  const Bytes4: Field := SizedBytes(4)

  /** PreprendedSizeListSerializer(4, e): a list behind a 4-byte element count. */
  function ListOf(e: Field): Field
  {
    SizedList(4, e)
  }

  // The nested Serializable records, which have no opcode of their own.
  const SlaveInfoFields: seq<Field> := [Bytes4, uint128, uint16, ListOf(ShardMaskField)]
  const EcoInfoFields: seq<Field> := [BranchField, uint64, uint256, uint64, uint256]
  const ArtificialTxConfigFields: seq<Field> := [uint32, uint32]
  const HeadersInfoFields: seq<Field> := [BranchField, ListOf(MinorBlockHeaderField)]
  const AccountBranchDataFields: seq<Field> := [BranchField, uint256, uint256]
  const ShardStatsFields: seq<Field> :=
    [BranchField, uint64, uint64, uint32, uint32, uint32, uint32, uint32]
  const AddXshardTxListRequestFields: seq<Field> :=
    [BranchField, hash256, CrossShardTransactionListField]

  /** The FIELDS list of a message class. */
  function Fields(t: MessageType): seq<Field>
  {
    match t
    case Ping => [Bytes4, ListOf(ShardMaskField), RootBlockField]
    case Pong => [Bytes4, ListOf(ShardMaskField)]
    case ConnectToSlavesRequest => [ListOf(Record(SlaveInfoFields))]
    case ConnectToSlavesResponse => [ListOf(Bytes4)]
    case AddRootBlockRequest => [RootBlockField, boolean]
    case AddRootBlockResponse => [uint32, boolean]
    case GetEcoInfoListRequest => []
    case GetEcoInfoListResponse => [uint32, ListOf(Record(EcoInfoFields))]
    case GetNextBlockToMineRequest => [BranchField, AddressField, Record(ArtificialTxConfigFields)]
    case GetNextBlockToMineResponse => [uint32, MinorBlockField]
    case GetUnconfirmedHeadersRequest => []
    case GetUnconfirmedHeadersResponse => [uint32, ListOf(Record(HeadersInfoFields))]
    case GetAccountDataRequest => [AddressField]
    case GetAccountDataResponse => [uint32, ListOf(Record(AccountBranchDataFields))]
    case AddTransactionRequest => [TransactionField]
    case AddTransactionResponse => [uint32]
    case AddMinorBlockHeaderRequest =>
      [MinorBlockHeaderField, uint32, uint32, Record(ShardStatsFields)]
    case AddMinorBlockHeaderResponse => [uint32]
    case AddXshardTxListRequest => AddXshardTxListRequestFields
    case AddXshardTxListResponse => [uint32]
    case SyncMinorBlockListRequest => [ListOf(hash256), BranchField, uint64]
    case SyncMinorBlockListResponse => [uint32]
    case AddMinorBlockRequest => [Bytes4]
    case AddMinorBlockResponse => [uint32]
    case CreateClusterPeerConnectionRequest => [uint64]
    case CreateClusterPeerConnectionResponse => [uint32]
    case DestroyClusterPeerConnectionCommand => [uint64]
    case GetMinorBlockRequest => [BranchField, hash256, uint64]
    case GetMinorBlockResponse => [uint32, MinorBlockField]
    case GetTransactionRequest => [hash256, BranchField]
    case GetTransactionResponse => [uint32, MinorBlockField, uint32]
    case BatchAddXshardTxListRequest => [ListOf(Record(AddXshardTxListRequestFields))]
    case BatchAddXshardTxListResponse => [uint32]
    case ExecuteTransactionRequest => [TransactionField]
    case ExecuteTransactionResponse => [uint32, Bytes4]
    case GetTransactionReceiptRequest => [hash256, BranchField]
    case GetTransactionReceiptResponse => [uint32, MinorBlockField, uint32, TransactionReceiptField]
  }

  /** A message is serialized as the record of its fields. */
  function Schema(t: MessageType): Field
  {
    Record(Fields(t))
  }
}
