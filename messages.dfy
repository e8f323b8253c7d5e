/**
 * The message classes of quarkchain/cluster/rpc.py as values: one constructor per class,
 * with the fields its FIELDS list declares, in that order. A message is serialized as the
 * record of its fields (see Wire) and sent under the opcode of its class (see Registry and Serialization).
 */
module Messages {
  import opened Results
  import opened External
  import opened Wire
  import Catalog

  // The nested Serializable classes, which have no opcode of their own. XshardTxList is the
  // element type of BatchAddXshardTxListRequest: the AddXshardTxListRequest body on its own.
  datatype SlaveInfo = SlaveInfo(id: seq<byte>, ip: nat, port: nat, shardMaskList: seq<ShardMask>)

  datatype EcoInfo = EcoInfo(branch: Branch, height: nat, coinbaseAmount: nat, difficulty: nat, unconfirmedHeadersCoinbaseAmount: nat)

  datatype ArtificialTxConfig = ArtificialTxConfig(numTxPerBlock: nat, xShardTxPercent: nat)

  datatype HeadersInfo = HeadersInfo(branch: Branch, headerList: seq<MinorBlockHeader>)

  datatype AccountBranchData = AccountBranchData(branch: Branch, transactionCount: nat, balance: nat)

  datatype ShardStats = ShardStats(branch: Branch, height: nat, timestamp: nat, txCount60s: nat, pendingTxCount: nat, blockCount60s: nat, staleBlockCount60s: nat, lastBlockTime: nat)

  datatype XshardTxList = XshardTxList(branch: Branch, minorBlockHash: seq<byte>, txList: CrossShardTransactionList)

  datatype Message =
    | Ping(id: seq<byte>, shardMaskList: seq<ShardMask>, rootTip: RootBlock)
    | Pong(id: seq<byte>, shardMaskList: seq<ShardMask>)
    | ConnectToSlavesRequest(slaveInfoList: seq<SlaveInfo>)
    | ConnectToSlavesResponse(resultList: seq<seq<byte>>)
    | AddRootBlockRequest(rootBlock: RootBlock, expectSwitch: bool)
    | AddRootBlockResponse(errorCode: nat, switched: bool)
    | GetEcoInfoListRequest
    | GetEcoInfoListResponse(errorCode: nat, ecoInfoList: seq<EcoInfo>)
    | GetNextBlockToMineRequest(branch: Branch, address: Address, artificialTxConfig: ArtificialTxConfig)
    | GetNextBlockToMineResponse(errorCode: nat, block: MinorBlock)
    | GetUnconfirmedHeadersRequest
    | GetUnconfirmedHeadersResponse(errorCode: nat, headersInfoList: seq<HeadersInfo>)
    | GetAccountDataRequest(address: Address)
    | GetAccountDataResponse(errorCode: nat, accountBranchDataList: seq<AccountBranchData>)
    | AddTransactionRequest(tx: Transaction)
    | AddTransactionResponse(errorCode: nat)
    | AddMinorBlockHeaderRequest(minorBlockHeader: MinorBlockHeader, txCount: nat, xShardTxCount: nat, shardStats: ShardStats)
    | AddMinorBlockHeaderResponse(errorCode: nat)
    | AddXshardTxListRequest(branch: Branch, minorBlockHash: seq<byte>, txList: CrossShardTransactionList)
    | AddXshardTxListResponse(errorCode: nat)
    | SyncMinorBlockListRequest(minorBlockHashList: seq<seq<byte>>, branch: Branch, clusterPeerId: nat)
    | SyncMinorBlockListResponse(errorCode: nat)
    | AddMinorBlockRequest(minorBlockData: seq<byte>)
    | AddMinorBlockResponse(errorCode: nat)
    | CreateClusterPeerConnectionRequest(clusterPeerId: nat)
    | CreateClusterPeerConnectionResponse(errorCode: nat)
    | DestroyClusterPeerConnectionCommand(clusterPeerId: nat)
    | GetMinorBlockRequest(branch: Branch, minorBlockHash: seq<byte>, height: nat)
    | GetMinorBlockResponse(errorCode: nat, minorBlock: MinorBlock)
    | GetTransactionRequest(txHash: seq<byte>, branch: Branch)
    | GetTransactionResponse(errorCode: nat, minorBlock: MinorBlock, index: nat)
    | BatchAddXshardTxListRequest(addXshardTxListRequestList: seq<XshardTxList>)
    | BatchAddXshardTxListResponse(errorCode: nat)
    | ExecuteTransactionRequest(tx: Transaction)
    | ExecuteTransactionResponse(errorCode: nat, result: seq<byte>)
    | GetTransactionReceiptRequest(txHash: seq<byte>, branch: Branch)
    | GetTransactionReceiptResponse(errorCode: nat, minorBlock: MinorBlock, index: nat, receipt: TransactionReceipt)

  /** The class of a message. */
  function TypeOf(m: Message): Catalog.MessageType
  {
    match m
    case Ping(_, _, _) => Catalog.MessageType.Ping
    case Pong(_, _) => Catalog.MessageType.Pong
    case ConnectToSlavesRequest(_) => Catalog.MessageType.ConnectToSlavesRequest
    case ConnectToSlavesResponse(_) => Catalog.MessageType.ConnectToSlavesResponse
    case AddRootBlockRequest(_, _) => Catalog.MessageType.AddRootBlockRequest
    case AddRootBlockResponse(_, _) => Catalog.MessageType.AddRootBlockResponse
    case GetEcoInfoListRequest => Catalog.MessageType.GetEcoInfoListRequest
    case GetEcoInfoListResponse(_, _) => Catalog.MessageType.GetEcoInfoListResponse
    case GetNextBlockToMineRequest(_, _, _) => Catalog.MessageType.GetNextBlockToMineRequest
    case GetNextBlockToMineResponse(_, _) => Catalog.MessageType.GetNextBlockToMineResponse
    case GetUnconfirmedHeadersRequest => Catalog.MessageType.GetUnconfirmedHeadersRequest
    case GetUnconfirmedHeadersResponse(_, _) => Catalog.MessageType.GetUnconfirmedHeadersResponse
    case GetAccountDataRequest(_) => Catalog.MessageType.GetAccountDataRequest
    case GetAccountDataResponse(_, _) => Catalog.MessageType.GetAccountDataResponse
    case AddTransactionRequest(_) => Catalog.MessageType.AddTransactionRequest
    case AddTransactionResponse(_) => Catalog.MessageType.AddTransactionResponse
    case AddMinorBlockHeaderRequest(_, _, _, _) => Catalog.MessageType.AddMinorBlockHeaderRequest
    case AddMinorBlockHeaderResponse(_) => Catalog.MessageType.AddMinorBlockHeaderResponse
    case AddXshardTxListRequest(_, _, _) => Catalog.MessageType.AddXshardTxListRequest
    case AddXshardTxListResponse(_) => Catalog.MessageType.AddXshardTxListResponse
    case SyncMinorBlockListRequest(_, _, _) => Catalog.MessageType.SyncMinorBlockListRequest
    case SyncMinorBlockListResponse(_) => Catalog.MessageType.SyncMinorBlockListResponse
    case AddMinorBlockRequest(_) => Catalog.MessageType.AddMinorBlockRequest
    case AddMinorBlockResponse(_) => Catalog.MessageType.AddMinorBlockResponse
    case CreateClusterPeerConnectionRequest(_) => Catalog.MessageType.CreateClusterPeerConnectionRequest
    case CreateClusterPeerConnectionResponse(_) => Catalog.MessageType.CreateClusterPeerConnectionResponse
    case DestroyClusterPeerConnectionCommand(_) => Catalog.MessageType.DestroyClusterPeerConnectionCommand
    case GetMinorBlockRequest(_, _, _) => Catalog.MessageType.GetMinorBlockRequest
    case GetMinorBlockResponse(_, _) => Catalog.MessageType.GetMinorBlockResponse
    case GetTransactionRequest(_, _) => Catalog.MessageType.GetTransactionRequest
    case GetTransactionResponse(_, _, _) => Catalog.MessageType.GetTransactionResponse
    case BatchAddXshardTxListRequest(_) => Catalog.MessageType.BatchAddXshardTxListRequest
    case BatchAddXshardTxListResponse(_) => Catalog.MessageType.BatchAddXshardTxListResponse
    case ExecuteTransactionRequest(_) => Catalog.MessageType.ExecuteTransactionRequest
    case ExecuteTransactionResponse(_, _) => Catalog.MessageType.ExecuteTransactionResponse
    case GetTransactionReceiptRequest(_, _) => Catalog.MessageType.GetTransactionReceiptRequest
    case GetTransactionReceiptResponse(_, _, _, _) => Catalog.MessageType.GetTransactionReceiptResponse
  }

  /** Fixed-width and raw fields. */
  function AsNum(v: Value): (r: Option<nat>)
    ensures r.Some? ==> v == Num(r.value)
  {
    if v.Num? then Some(v.n) else None
  }

  function AsFlag(v: Value): (r: Option<bool>)
    ensures r.Some? ==> v == Flag(r.value)
  {
    if v.Flag? then Some(v.b) else None
  }

  function BytesToValue(b: seq<byte>): Value
  {
    Blob(b)
  }

  function AsBytes(v: Value): (r: Option<seq<byte>>)
    ensures r.Some? ==> v == BytesToValue(r.value)
  {
    if v.Blob? then Some(v.bytes) else None
  }

  lemma BytesInverse()
    ensures forall b :: AsBytes(BytesToValue(b)) == Some(b)
    ensures forall v :: AsBytes(v).Some? ==> BytesToValue(AsBytes(v).value) == v
  {
  }

  // Fields of the external types.
  function RootBlockToValue(x: RootBlock): Value { Ext(RootBlockValue(x)) }
  function MinorBlockToValue(x: MinorBlock): Value { Ext(MinorBlockValue(x)) }
  function MinorBlockHeaderToValue(x: MinorBlockHeader): Value { Ext(MinorBlockHeaderValue(x)) }
  function TransactionToValue(x: Transaction): Value { Ext(TransactionValue(x)) }
  function TransactionReceiptToValue(x: TransactionReceipt): Value { Ext(TransactionReceiptValue(x)) }
  function CrossShardTransactionListToValue(x: CrossShardTransactionList): Value
  {
    Ext(CrossShardTransactionListValue(x))
  }
  function BranchToValue(x: Branch): Value { Ext(BranchValue(x)) }
  function AddressToValue(x: Address): Value { Ext(AddressValue(x)) }
  function ShardMaskToValue(x: ShardMask): Value { Ext(ShardMaskValue(x)) }

  function AsRootBlock(v: Value): (r: Option<RootBlock>)
    ensures r.Some? ==> v == RootBlockToValue(r.value)
  {
    if v.Ext? && v.x.RootBlockValue? then Some(v.x.rootBlock) else None
  }

  function AsMinorBlock(v: Value): (r: Option<MinorBlock>)
    ensures r.Some? ==> v == MinorBlockToValue(r.value)
  {
    if v.Ext? && v.x.MinorBlockValue? then Some(v.x.minorBlock) else None
  }

  function AsMinorBlockHeader(v: Value): (r: Option<MinorBlockHeader>)
    ensures r.Some? ==> v == MinorBlockHeaderToValue(r.value)
  {
    if v.Ext? && v.x.MinorBlockHeaderValue? then Some(v.x.header) else None
  }

  function AsTransaction(v: Value): (r: Option<Transaction>)
    ensures r.Some? ==> v == TransactionToValue(r.value)
  {
    if v.Ext? && v.x.TransactionValue? then Some(v.x.tx) else None
  }

  function AsTransactionReceipt(v: Value): (r: Option<TransactionReceipt>)
    ensures r.Some? ==> v == TransactionReceiptToValue(r.value)
  {
    if v.Ext? && v.x.TransactionReceiptValue? then Some(v.x.receipt) else None
  }

  function AsCrossShardTransactionList(v: Value): (r: Option<CrossShardTransactionList>)
    ensures r.Some? ==> v == CrossShardTransactionListToValue(r.value)
  {
    if v.Ext? && v.x.CrossShardTransactionListValue? then Some(v.x.txList) else None
  }

  function AsBranch(v: Value): (r: Option<Branch>)
    ensures r.Some? ==> v == BranchToValue(r.value)
  {
    if v.Ext? && v.x.BranchValue? then Some(v.x.branch) else None
  }

  function AsAddress(v: Value): (r: Option<Address>)
    ensures r.Some? ==> v == AddressToValue(r.value)
  {
    if v.Ext? && v.x.AddressValue? then Some(v.x.address) else None
  }

  function AsShardMask(v: Value): (r: Option<ShardMask>)
    ensures r.Some? ==> v == ShardMaskToValue(r.value)
  {
    if v.Ext? && v.x.ShardMaskValue? then Some(v.x.shardMask) else None
  }

  lemma ShardMaskInverse()
    ensures forall x :: AsShardMask(ShardMaskToValue(x)) == Some(x)
    ensures forall v :: AsShardMask(v).Some? ==> ShardMaskToValue(AsShardMask(v).value) == v
  {
  }

  lemma MinorBlockHeaderInverse()
    ensures forall x :: AsMinorBlockHeader(MinorBlockHeaderToValue(x)) == Some(x)
    ensures forall v :: AsMinorBlockHeader(v).Some? ==> MinorBlockHeaderToValue(AsMinorBlockHeader(v).value) == v
  {
  }

  /** List fields: the elements converted one by one, in order. */
  function ListToValue<T>(xs: seq<T>, f: T -> Value): (v: Value)
    ensures v.ListValue? && |v.items| == |xs|
    ensures forall i :: 0 <= i < |xs| ==> v.items[i] == f(xs[i])
  {
    ListValue(seq(|xs|, i requires 0 <= i < |xs| => f(xs[i])))
  }

  function ListItems<T>(vs: seq<Value>, g: Value -> Option<T>): Option<seq<T>>
  {
    if |vs| == 0 then Some([])
    else
      var x :- g(vs[0]);
      var xs :- ListItems(vs[1..], g);
      Some([x] + xs)
  }

  function AsList<T>(v: Value, g: Value -> Option<T>): Option<seq<T>>
  {
    if v.ListValue? then ListItems(v.items, g) else None
  }

  lemma {:induction false} ListItemsRoundTrip<T>(xs: seq<T>, f: T -> Value, g: Value -> Option<T>)
    requires forall x :: g(f(x)) == Some(x)
    ensures ListItems(ListToValue(xs, f).items, g) == Some(xs)
  {
    if |xs| > 0 {
      ListItemsRoundTrip(xs[1..], f, g);
      assert ListToValue(xs, f).items[1..] == ListToValue(xs[1..], f).items;
      assert [xs[0]] + xs[1..] == xs;
    }
  }

  lemma AsListRoundTrip<T>(xs: seq<T>, f: T -> Value, g: Value -> Option<T>)
    requires forall x :: g(f(x)) == Some(x)
    ensures AsList(ListToValue(xs, f), g) == Some(xs)
  {
    ListItemsRoundTrip(xs, f, g);
  }

  lemma {:induction false} ListItemsCanonical<T>(vs: seq<Value>, f: T -> Value, g: Value -> Option<T>)
    requires forall v :: g(v).Some? ==> f(g(v).value) == v
    requires ListItems(vs, g).Some?
    ensures ListToValue(ListItems(vs, g).value, f).items == vs
  {
    if |vs| > 0 {
      ListItemsCanonical(vs[1..], f, g);
      var xs := ListItems(vs, g).value;
      assert xs[1..] == ListItems(vs[1..], g).value;
      assert ListToValue(xs, f).items == [vs[0]] + vs[1..];
    }
  }

  lemma AsListCanonical<T>(v: Value, f: T -> Value, g: Value -> Option<T>)
    requires forall w :: g(w).Some? ==> f(g(w).value) == w
    requires AsList(v, g).Some?
    ensures ListToValue(AsList(v, g).value, f) == v
  {
    ListItemsCanonical(v.items, f, g);
  }

  function SlaveInfoToValue(r: SlaveInfo): Value
  {
    RecordValue([Blob(r.id), Num(r.ip), Num(r.port), ListToValue(r.shardMaskList, ShardMaskToValue)])
  }

  function AsSlaveInfo(v: Value): Option<SlaveInfo>
  {
    if !v.RecordValue? then None
    else
      if |v.values| != 4 then None
      else
        var id :- AsBytes(v.values[0]);
        var ip :- AsNum(v.values[1]);
        var port :- AsNum(v.values[2]);
        var shardMaskList :- AsList(v.values[3], AsShardMask);
        Some(SlaveInfo(id, ip, port, shardMaskList))
  }

  /** SlaveInfo values and their records are converted into each other without loss. */
  lemma SlaveInfoInverse()
    ensures forall r :: AsSlaveInfo(SlaveInfoToValue(r)) == Some(r)
    ensures forall v :: AsSlaveInfo(v).Some? ==> SlaveInfoToValue(AsSlaveInfo(v).value) == v
  {
    forall r: SlaveInfo
      ensures AsSlaveInfo(SlaveInfoToValue(r)) == Some(r)
    {
      ShardMaskInverse(); AsListRoundTrip(r.shardMaskList, ShardMaskToValue, AsShardMask);
    }
    forall v | AsSlaveInfo(v).Some?
      ensures SlaveInfoToValue(AsSlaveInfo(v).value) == v
    {
      ShardMaskInverse(); AsListCanonical(v.values[3], ShardMaskToValue, AsShardMask);
      assert v.values == [v.values[0], v.values[1], v.values[2], v.values[3]];
    }
  }

  function EcoInfoToValue(r: EcoInfo): Value
  {
    RecordValue([BranchToValue(r.branch), Num(r.height), Num(r.coinbaseAmount), Num(r.difficulty), Num(r.unconfirmedHeadersCoinbaseAmount)])
  }

  function AsEcoInfo(v: Value): Option<EcoInfo>
  {
    if !v.RecordValue? then None
    else
      if |v.values| != 5 then None
      else
        var branch :- AsBranch(v.values[0]);
        var height :- AsNum(v.values[1]);
        var coinbaseAmount :- AsNum(v.values[2]);
        var difficulty :- AsNum(v.values[3]);
        var unconfirmedHeadersCoinbaseAmount :- AsNum(v.values[4]);
        Some(EcoInfo(branch, height, coinbaseAmount, difficulty, unconfirmedHeadersCoinbaseAmount))
  }

  /** EcoInfo values and their records are converted into each other without loss. */
  lemma EcoInfoInverse()
    ensures forall r :: AsEcoInfo(EcoInfoToValue(r)) == Some(r)
    ensures forall v :: AsEcoInfo(v).Some? ==> EcoInfoToValue(AsEcoInfo(v).value) == v
  {
    forall r: EcoInfo
      ensures AsEcoInfo(EcoInfoToValue(r)) == Some(r)
    {
    }
    forall v | AsEcoInfo(v).Some?
      ensures EcoInfoToValue(AsEcoInfo(v).value) == v
    {
      assert v.values == [v.values[0], v.values[1], v.values[2], v.values[3], v.values[4]];
    }
  }

  function ArtificialTxConfigToValue(r: ArtificialTxConfig): Value
  {
    RecordValue([Num(r.numTxPerBlock), Num(r.xShardTxPercent)])
  }

  function AsArtificialTxConfig(v: Value): Option<ArtificialTxConfig>
  {
    if !v.RecordValue? then None
    else
      if |v.values| != 2 then None
      else
        var numTxPerBlock :- AsNum(v.values[0]);
        var xShardTxPercent :- AsNum(v.values[1]);
        Some(ArtificialTxConfig(numTxPerBlock, xShardTxPercent))
  }

  /** ArtificialTxConfig values and their records are converted into each other without loss. */
  lemma ArtificialTxConfigInverse()
    ensures forall r :: AsArtificialTxConfig(ArtificialTxConfigToValue(r)) == Some(r)
    ensures forall v :: AsArtificialTxConfig(v).Some? ==> ArtificialTxConfigToValue(AsArtificialTxConfig(v).value) == v
  {
    forall r: ArtificialTxConfig
      ensures AsArtificialTxConfig(ArtificialTxConfigToValue(r)) == Some(r)
    {
    }
    forall v | AsArtificialTxConfig(v).Some?
      ensures ArtificialTxConfigToValue(AsArtificialTxConfig(v).value) == v
    {
      assert v.values == [v.values[0], v.values[1]];
    }
  }

  function HeadersInfoToValue(r: HeadersInfo): Value
  {
    RecordValue([BranchToValue(r.branch), ListToValue(r.headerList, MinorBlockHeaderToValue)])
  }

  function AsHeadersInfo(v: Value): Option<HeadersInfo>
  {
    if !v.RecordValue? then None
    else
      if |v.values| != 2 then None
      else
        var branch :- AsBranch(v.values[0]);
        var headerList :- AsList(v.values[1], AsMinorBlockHeader);
        Some(HeadersInfo(branch, headerList))
  }

  /** HeadersInfo values and their records are converted into each other without loss. */
  lemma HeadersInfoInverse()
    ensures forall r :: AsHeadersInfo(HeadersInfoToValue(r)) == Some(r)
    ensures forall v :: AsHeadersInfo(v).Some? ==> HeadersInfoToValue(AsHeadersInfo(v).value) == v
  {
    forall r: HeadersInfo
      ensures AsHeadersInfo(HeadersInfoToValue(r)) == Some(r)
    {
      MinorBlockHeaderInverse(); AsListRoundTrip(r.headerList, MinorBlockHeaderToValue, AsMinorBlockHeader);
    }
    forall v | AsHeadersInfo(v).Some?
      ensures HeadersInfoToValue(AsHeadersInfo(v).value) == v
    {
      MinorBlockHeaderInverse(); AsListCanonical(v.values[1], MinorBlockHeaderToValue, AsMinorBlockHeader);
      assert v.values == [v.values[0], v.values[1]];
    }
  }

  function AccountBranchDataToValue(r: AccountBranchData): Value
  {
    RecordValue([BranchToValue(r.branch), Num(r.transactionCount), Num(r.balance)])
  }

  function AsAccountBranchData(v: Value): Option<AccountBranchData>
  {
    if !v.RecordValue? then None
    else
      if |v.values| != 3 then None
      else
        var branch :- AsBranch(v.values[0]);
        var transactionCount :- AsNum(v.values[1]);
        var balance :- AsNum(v.values[2]);
        Some(AccountBranchData(branch, transactionCount, balance))
  }

  /** AccountBranchData values and their records are converted into each other without loss. */
  lemma AccountBranchDataInverse()
    ensures forall r :: AsAccountBranchData(AccountBranchDataToValue(r)) == Some(r)
    ensures forall v :: AsAccountBranchData(v).Some? ==> AccountBranchDataToValue(AsAccountBranchData(v).value) == v
  {
    forall r: AccountBranchData
      ensures AsAccountBranchData(AccountBranchDataToValue(r)) == Some(r)
    {
    }
    forall v | AsAccountBranchData(v).Some?
      ensures AccountBranchDataToValue(AsAccountBranchData(v).value) == v
    {
      assert v.values == [v.values[0], v.values[1], v.values[2]];
    }
  }

  function ShardStatsToValue(r: ShardStats): Value
  {
    RecordValue([BranchToValue(r.branch), Num(r.height), Num(r.timestamp), Num(r.txCount60s), Num(r.pendingTxCount), Num(r.blockCount60s), Num(r.staleBlockCount60s), Num(r.lastBlockTime)])
  }

  function AsShardStats(v: Value): Option<ShardStats>
  {
    if !v.RecordValue? then None
    else
      if |v.values| != 8 then None
      else
        var branch :- AsBranch(v.values[0]);
        var height :- AsNum(v.values[1]);
        var timestamp :- AsNum(v.values[2]);
        var txCount60s :- AsNum(v.values[3]);
        var pendingTxCount :- AsNum(v.values[4]);
        var blockCount60s :- AsNum(v.values[5]);
        var staleBlockCount60s :- AsNum(v.values[6]);
        var lastBlockTime :- AsNum(v.values[7]);
        Some(ShardStats(branch, height, timestamp, txCount60s, pendingTxCount, blockCount60s, staleBlockCount60s, lastBlockTime))
  }

  /** ShardStats values and their records are converted into each other without loss. */
  lemma ShardStatsInverse()
    ensures forall r :: AsShardStats(ShardStatsToValue(r)) == Some(r)
    ensures forall v :: AsShardStats(v).Some? ==> ShardStatsToValue(AsShardStats(v).value) == v
  {
    forall r: ShardStats
      ensures AsShardStats(ShardStatsToValue(r)) == Some(r)
    {
    }
    forall v | AsShardStats(v).Some?
      ensures ShardStatsToValue(AsShardStats(v).value) == v
    {
      assert v.values == [v.values[0], v.values[1], v.values[2], v.values[3], v.values[4], v.values[5], v.values[6], v.values[7]];
    }
  }

  function XshardTxListToValue(r: XshardTxList): Value
  {
    RecordValue([BranchToValue(r.branch), Blob(r.minorBlockHash), CrossShardTransactionListToValue(r.txList)])
  }

  function AsXshardTxList(v: Value): Option<XshardTxList>
  {
    if !v.RecordValue? then None
    else
      if |v.values| != 3 then None
      else
        var branch :- AsBranch(v.values[0]);
        var minorBlockHash :- AsBytes(v.values[1]);
        var txList :- AsCrossShardTransactionList(v.values[2]);
        Some(XshardTxList(branch, minorBlockHash, txList))
  }

  /** XshardTxList values and their records are converted into each other without loss. */
  lemma XshardTxListInverse()
    ensures forall r :: AsXshardTxList(XshardTxListToValue(r)) == Some(r)
    ensures forall v :: AsXshardTxList(v).Some? ==> XshardTxListToValue(AsXshardTxList(v).value) == v
  {
    forall r: XshardTxList
      ensures AsXshardTxList(XshardTxListToValue(r)) == Some(r)
    {
    }
    forall v | AsXshardTxList(v).Some?
      ensures XshardTxListToValue(AsXshardTxList(v).value) == v
    {
      assert v.values == [v.values[0], v.values[1], v.values[2]];
    }
  }

  /** The values of a message's fields, in FIELDS order. */
  function ToFields(m: Message): seq<Value>
  {
    match m
    case Ping(id, shardMaskList, rootTip) => [Blob(id), ListToValue(shardMaskList, ShardMaskToValue), RootBlockToValue(rootTip)]
    case Pong(id, shardMaskList) => [Blob(id), ListToValue(shardMaskList, ShardMaskToValue)]
    case ConnectToSlavesRequest(slaveInfoList) => [ListToValue(slaveInfoList, SlaveInfoToValue)]
    case ConnectToSlavesResponse(resultList) => [ListToValue(resultList, BytesToValue)]
    case AddRootBlockRequest(rootBlock, expectSwitch) => [RootBlockToValue(rootBlock), Flag(expectSwitch)]
    case AddRootBlockResponse(errorCode, switched) => [Num(errorCode), Flag(switched)]
    case GetEcoInfoListRequest => []
    case GetEcoInfoListResponse(errorCode, ecoInfoList) => [Num(errorCode), ListToValue(ecoInfoList, EcoInfoToValue)]
    case GetNextBlockToMineRequest(branch, address, artificialTxConfig) => [BranchToValue(branch), AddressToValue(address), ArtificialTxConfigToValue(artificialTxConfig)]
    case GetNextBlockToMineResponse(errorCode, block) => [Num(errorCode), MinorBlockToValue(block)]
    case GetUnconfirmedHeadersRequest => []
    case GetUnconfirmedHeadersResponse(errorCode, headersInfoList) => [Num(errorCode), ListToValue(headersInfoList, HeadersInfoToValue)]
    case GetAccountDataRequest(address) => [AddressToValue(address)]
    case GetAccountDataResponse(errorCode, accountBranchDataList) => [Num(errorCode), ListToValue(accountBranchDataList, AccountBranchDataToValue)]
    case AddTransactionRequest(tx) => [TransactionToValue(tx)]
    case AddTransactionResponse(errorCode) => [Num(errorCode)]
    case AddMinorBlockHeaderRequest(minorBlockHeader, txCount, xShardTxCount, shardStats) => [MinorBlockHeaderToValue(minorBlockHeader), Num(txCount), Num(xShardTxCount), ShardStatsToValue(shardStats)]
    case AddMinorBlockHeaderResponse(errorCode) => [Num(errorCode)]
    case AddXshardTxListRequest(branch, minorBlockHash, txList) => [BranchToValue(branch), Blob(minorBlockHash), CrossShardTransactionListToValue(txList)]
    case AddXshardTxListResponse(errorCode) => [Num(errorCode)]
    case SyncMinorBlockListRequest(minorBlockHashList, branch, clusterPeerId) => [ListToValue(minorBlockHashList, BytesToValue), BranchToValue(branch), Num(clusterPeerId)]
    case SyncMinorBlockListResponse(errorCode) => [Num(errorCode)]
    case AddMinorBlockRequest(minorBlockData) => [Blob(minorBlockData)]
    case AddMinorBlockResponse(errorCode) => [Num(errorCode)]
    case CreateClusterPeerConnectionRequest(clusterPeerId) => [Num(clusterPeerId)]
    case CreateClusterPeerConnectionResponse(errorCode) => [Num(errorCode)]
    case DestroyClusterPeerConnectionCommand(clusterPeerId) => [Num(clusterPeerId)]
    case GetMinorBlockRequest(branch, minorBlockHash, height) => [BranchToValue(branch), Blob(minorBlockHash), Num(height)]
    case GetMinorBlockResponse(errorCode, minorBlock) => [Num(errorCode), MinorBlockToValue(minorBlock)]
    case GetTransactionRequest(txHash, branch) => [Blob(txHash), BranchToValue(branch)]
    case GetTransactionResponse(errorCode, minorBlock, index) => [Num(errorCode), MinorBlockToValue(minorBlock), Num(index)]
    case BatchAddXshardTxListRequest(addXshardTxListRequestList) => [ListToValue(addXshardTxListRequestList, XshardTxListToValue)]
    case BatchAddXshardTxListResponse(errorCode) => [Num(errorCode)]
    case ExecuteTransactionRequest(tx) => [TransactionToValue(tx)]
    case ExecuteTransactionResponse(errorCode, result) => [Num(errorCode), Blob(result)]
    case GetTransactionReceiptRequest(txHash, branch) => [Blob(txHash), BranchToValue(branch)]
    case GetTransactionReceiptResponse(errorCode, minorBlock, index, receipt) => [Num(errorCode), MinorBlockToValue(minorBlock), Num(index), TransactionReceiptToValue(receipt)]
  }

  function PingFromFields(vs: seq<Value>): Option<Message>
  {
    if |vs| != 3 then None
    else
      var id :- AsBytes(vs[0]);
      var shardMaskList :- AsList(vs[1], AsShardMask);
      var rootTip :- AsRootBlock(vs[2]);
      Some(Message.Ping(id, shardMaskList, rootTip))
  }

  function PongFromFields(vs: seq<Value>): Option<Message>
  {
    if |vs| != 2 then None
    else
      var id :- AsBytes(vs[0]);
      var shardMaskList :- AsList(vs[1], AsShardMask);
      Some(Message.Pong(id, shardMaskList))
  }

  function ConnectToSlavesRequestFromFields(vs: seq<Value>): Option<Message>
  {
    if |vs| != 1 then None
    else
      var slaveInfoList :- AsList(vs[0], AsSlaveInfo);
      Some(Message.ConnectToSlavesRequest(slaveInfoList))
  }

  function ConnectToSlavesResponseFromFields(vs: seq<Value>): Option<Message>
  {
    if |vs| != 1 then None
    else
      var resultList :- AsList(vs[0], AsBytes);
      Some(Message.ConnectToSlavesResponse(resultList))
  }

  function AddRootBlockRequestFromFields(vs: seq<Value>): Option<Message>
  {
    if |vs| != 2 then None
    else
      var rootBlock :- AsRootBlock(vs[0]);
      var expectSwitch :- AsFlag(vs[1]);
      Some(Message.AddRootBlockRequest(rootBlock, expectSwitch))
  }

  function AddRootBlockResponseFromFields(vs: seq<Value>): Option<Message>
  {
    if |vs| != 2 then None
    else
      var errorCode :- AsNum(vs[0]);
      var switched :- AsFlag(vs[1]);
      Some(Message.AddRootBlockResponse(errorCode, switched))
  }

  function GetEcoInfoListRequestFromFields(vs: seq<Value>): Option<Message>
  {
    if |vs| != 0 then None
    else
      Some(Message.GetEcoInfoListRequest)
  }

  function GetEcoInfoListResponseFromFields(vs: seq<Value>): Option<Message>
  {
    if |vs| != 2 then None
    else
      var errorCode :- AsNum(vs[0]);
      var ecoInfoList :- AsList(vs[1], AsEcoInfo);
      Some(Message.GetEcoInfoListResponse(errorCode, ecoInfoList))
  }

  function GetNextBlockToMineRequestFromFields(vs: seq<Value>): Option<Message>
  {
    if |vs| != 3 then None
    else
      var branch :- AsBranch(vs[0]);
      var address :- AsAddress(vs[1]);
      var artificialTxConfig :- AsArtificialTxConfig(vs[2]);
      Some(Message.GetNextBlockToMineRequest(branch, address, artificialTxConfig))
  }

  function GetNextBlockToMineResponseFromFields(vs: seq<Value>): Option<Message>
  {
    if |vs| != 2 then None
    else
      var errorCode :- AsNum(vs[0]);
      var block :- AsMinorBlock(vs[1]);
      Some(Message.GetNextBlockToMineResponse(errorCode, block))
  }

  function GetUnconfirmedHeadersRequestFromFields(vs: seq<Value>): Option<Message>
  {
    if |vs| != 0 then None
    else
      Some(Message.GetUnconfirmedHeadersRequest)
  }

  function GetUnconfirmedHeadersResponseFromFields(vs: seq<Value>): Option<Message>
  {
    if |vs| != 2 then None
    else
      var errorCode :- AsNum(vs[0]);
      var headersInfoList :- AsList(vs[1], AsHeadersInfo);
      Some(Message.GetUnconfirmedHeadersResponse(errorCode, headersInfoList))
  }

  function GetAccountDataRequestFromFields(vs: seq<Value>): Option<Message>
  {
    if |vs| != 1 then None
    else
      var address :- AsAddress(vs[0]);
      Some(Message.GetAccountDataRequest(address))
  }

  function GetAccountDataResponseFromFields(vs: seq<Value>): Option<Message>
  {
    if |vs| != 2 then None
    else
      var errorCode :- AsNum(vs[0]);
      var accountBranchDataList :- AsList(vs[1], AsAccountBranchData);
      Some(Message.GetAccountDataResponse(errorCode, accountBranchDataList))
  }

  function AddTransactionRequestFromFields(vs: seq<Value>): Option<Message>
  {
    if |vs| != 1 then None
    else
      var tx :- AsTransaction(vs[0]);
      Some(Message.AddTransactionRequest(tx))
  }

  function AddTransactionResponseFromFields(vs: seq<Value>): Option<Message>
  {
    if |vs| != 1 then None
    else
      var errorCode :- AsNum(vs[0]);
      Some(Message.AddTransactionResponse(errorCode))
  }

  function AddMinorBlockHeaderRequestFromFields(vs: seq<Value>): Option<Message>
  {
    if |vs| != 4 then None
    else
      var minorBlockHeader :- AsMinorBlockHeader(vs[0]);
      var txCount :- AsNum(vs[1]);
      var xShardTxCount :- AsNum(vs[2]);
      var shardStats :- AsShardStats(vs[3]);
      Some(Message.AddMinorBlockHeaderRequest(minorBlockHeader, txCount, xShardTxCount, shardStats))
  }

  function AddMinorBlockHeaderResponseFromFields(vs: seq<Value>): Option<Message>
  {
    if |vs| != 1 then None
    else
      var errorCode :- AsNum(vs[0]);
      Some(Message.AddMinorBlockHeaderResponse(errorCode))
  }

  function AddXshardTxListRequestFromFields(vs: seq<Value>): Option<Message>
  {
    if |vs| != 3 then None
    else
      var branch :- AsBranch(vs[0]);
      var minorBlockHash :- AsBytes(vs[1]);
      var txList :- AsCrossShardTransactionList(vs[2]);
      Some(Message.AddXshardTxListRequest(branch, minorBlockHash, txList))
  }

  function AddXshardTxListResponseFromFields(vs: seq<Value>): Option<Message>
  {
    if |vs| != 1 then None
    else
      var errorCode :- AsNum(vs[0]);
      Some(Message.AddXshardTxListResponse(errorCode))
  }

  function SyncMinorBlockListRequestFromFields(vs: seq<Value>): Option<Message>
  {
    if |vs| != 3 then None
    else
      var minorBlockHashList :- AsList(vs[0], AsBytes);
      var branch :- AsBranch(vs[1]);
      var clusterPeerId :- AsNum(vs[2]);
      Some(Message.SyncMinorBlockListRequest(minorBlockHashList, branch, clusterPeerId))
  }

  function SyncMinorBlockListResponseFromFields(vs: seq<Value>): Option<Message>
  {
    if |vs| != 1 then None
    else
      var errorCode :- AsNum(vs[0]);
      Some(Message.SyncMinorBlockListResponse(errorCode))
  }

  function AddMinorBlockRequestFromFields(vs: seq<Value>): Option<Message>
  {
    if |vs| != 1 then None
    else
      var minorBlockData :- AsBytes(vs[0]);
      Some(Message.AddMinorBlockRequest(minorBlockData))
  }

  function AddMinorBlockResponseFromFields(vs: seq<Value>): Option<Message>
  {
    if |vs| != 1 then None
    else
      var errorCode :- AsNum(vs[0]);
      Some(Message.AddMinorBlockResponse(errorCode))
  }

  function CreateClusterPeerConnectionRequestFromFields(vs: seq<Value>): Option<Message>
  {
    if |vs| != 1 then None
    else
      var clusterPeerId :- AsNum(vs[0]);
      Some(Message.CreateClusterPeerConnectionRequest(clusterPeerId))
  }

  function CreateClusterPeerConnectionResponseFromFields(vs: seq<Value>): Option<Message>
  {
    if |vs| != 1 then None
    else
      var errorCode :- AsNum(vs[0]);
      Some(Message.CreateClusterPeerConnectionResponse(errorCode))
  }

  function DestroyClusterPeerConnectionCommandFromFields(vs: seq<Value>): Option<Message>
  {
    if |vs| != 1 then None
    else
      var clusterPeerId :- AsNum(vs[0]);
      Some(Message.DestroyClusterPeerConnectionCommand(clusterPeerId))
  }

  function GetMinorBlockRequestFromFields(vs: seq<Value>): Option<Message>
  {
    if |vs| != 3 then None
    else
      var branch :- AsBranch(vs[0]);
      var minorBlockHash :- AsBytes(vs[1]);
      var height :- AsNum(vs[2]);
      Some(Message.GetMinorBlockRequest(branch, minorBlockHash, height))
  }

  function GetMinorBlockResponseFromFields(vs: seq<Value>): Option<Message>
  {
    if |vs| != 2 then None
    else
      var errorCode :- AsNum(vs[0]);
      var minorBlock :- AsMinorBlock(vs[1]);
      Some(Message.GetMinorBlockResponse(errorCode, minorBlock))
  }

  function GetTransactionRequestFromFields(vs: seq<Value>): Option<Message>
  {
    if |vs| != 2 then None
    else
      var txHash :- AsBytes(vs[0]);
      var branch :- AsBranch(vs[1]);
      Some(Message.GetTransactionRequest(txHash, branch))
  }

  function GetTransactionResponseFromFields(vs: seq<Value>): Option<Message>
  {
    if |vs| != 3 then None
    else
      var errorCode :- AsNum(vs[0]);
      var minorBlock :- AsMinorBlock(vs[1]);
      var index :- AsNum(vs[2]);
      Some(Message.GetTransactionResponse(errorCode, minorBlock, index))
  }

  function BatchAddXshardTxListRequestFromFields(vs: seq<Value>): Option<Message>
  {
    if |vs| != 1 then None
    else
      var addXshardTxListRequestList :- AsList(vs[0], AsXshardTxList);
      Some(Message.BatchAddXshardTxListRequest(addXshardTxListRequestList))
  }

  function BatchAddXshardTxListResponseFromFields(vs: seq<Value>): Option<Message>
  {
    if |vs| != 1 then None
    else
      var errorCode :- AsNum(vs[0]);
      Some(Message.BatchAddXshardTxListResponse(errorCode))
  }

  function ExecuteTransactionRequestFromFields(vs: seq<Value>): Option<Message>
  {
    if |vs| != 1 then None
    else
      var tx :- AsTransaction(vs[0]);
      Some(Message.ExecuteTransactionRequest(tx))
  }

  function ExecuteTransactionResponseFromFields(vs: seq<Value>): Option<Message>
  {
    if |vs| != 2 then None
    else
      var errorCode :- AsNum(vs[0]);
      var result :- AsBytes(vs[1]);
      Some(Message.ExecuteTransactionResponse(errorCode, result))
  }

  function GetTransactionReceiptRequestFromFields(vs: seq<Value>): Option<Message>
  {
    if |vs| != 2 then None
    else
      var txHash :- AsBytes(vs[0]);
      var branch :- AsBranch(vs[1]);
      Some(Message.GetTransactionReceiptRequest(txHash, branch))
  }

  function GetTransactionReceiptResponseFromFields(vs: seq<Value>): Option<Message>
  {
    if |vs| != 4 then None
    else
      var errorCode :- AsNum(vs[0]);
      var minorBlock :- AsMinorBlock(vs[1]);
      var index :- AsNum(vs[2]);
      var receipt :- AsTransactionReceipt(vs[3]);
      Some(Message.GetTransactionReceiptResponse(errorCode, minorBlock, index, receipt))
  }

  /** The message of class t whose fields have the values vs, if they have the shapes FIELDS declares. */
  function FromFields(t: Catalog.MessageType, vs: seq<Value>): Option<Message>
  {
    match t
    case Ping => PingFromFields(vs)
    case Pong => PongFromFields(vs)
    case ConnectToSlavesRequest => ConnectToSlavesRequestFromFields(vs)
    case ConnectToSlavesResponse => ConnectToSlavesResponseFromFields(vs)
    case AddRootBlockRequest => AddRootBlockRequestFromFields(vs)
    case AddRootBlockResponse => AddRootBlockResponseFromFields(vs)
    case GetEcoInfoListRequest => GetEcoInfoListRequestFromFields(vs)
    case GetEcoInfoListResponse => GetEcoInfoListResponseFromFields(vs)
    case GetNextBlockToMineRequest => GetNextBlockToMineRequestFromFields(vs)
    case GetNextBlockToMineResponse => GetNextBlockToMineResponseFromFields(vs)
    case GetUnconfirmedHeadersRequest => GetUnconfirmedHeadersRequestFromFields(vs)
    case GetUnconfirmedHeadersResponse => GetUnconfirmedHeadersResponseFromFields(vs)
    case GetAccountDataRequest => GetAccountDataRequestFromFields(vs)
    case GetAccountDataResponse => GetAccountDataResponseFromFields(vs)
    case AddTransactionRequest => AddTransactionRequestFromFields(vs)
    case AddTransactionResponse => AddTransactionResponseFromFields(vs)
    case AddMinorBlockHeaderRequest => AddMinorBlockHeaderRequestFromFields(vs)
    case AddMinorBlockHeaderResponse => AddMinorBlockHeaderResponseFromFields(vs)
    case AddXshardTxListRequest => AddXshardTxListRequestFromFields(vs)
    case AddXshardTxListResponse => AddXshardTxListResponseFromFields(vs)
    case SyncMinorBlockListRequest => SyncMinorBlockListRequestFromFields(vs)
    case SyncMinorBlockListResponse => SyncMinorBlockListResponseFromFields(vs)
    case AddMinorBlockRequest => AddMinorBlockRequestFromFields(vs)
    case AddMinorBlockResponse => AddMinorBlockResponseFromFields(vs)
    case CreateClusterPeerConnectionRequest => CreateClusterPeerConnectionRequestFromFields(vs)
    case CreateClusterPeerConnectionResponse => CreateClusterPeerConnectionResponseFromFields(vs)
    case DestroyClusterPeerConnectionCommand => DestroyClusterPeerConnectionCommandFromFields(vs)
    case GetMinorBlockRequest => GetMinorBlockRequestFromFields(vs)
    case GetMinorBlockResponse => GetMinorBlockResponseFromFields(vs)
    case GetTransactionRequest => GetTransactionRequestFromFields(vs)
    case GetTransactionResponse => GetTransactionResponseFromFields(vs)
    case BatchAddXshardTxListRequest => BatchAddXshardTxListRequestFromFields(vs)
    case BatchAddXshardTxListResponse => BatchAddXshardTxListResponseFromFields(vs)
    case ExecuteTransactionRequest => ExecuteTransactionRequestFromFields(vs)
    case ExecuteTransactionResponse => ExecuteTransactionResponseFromFields(vs)
    case GetTransactionReceiptRequest => GetTransactionReceiptRequestFromFields(vs)
    case GetTransactionReceiptResponse => GetTransactionReceiptResponseFromFields(vs)
  }

  lemma PingFieldsRoundTrip(m: Message)
    requires m.Ping?
    ensures FromFields(TypeOf(m), ToFields(m)) == Some(m)
  {
    ShardMaskInverse(); AsListRoundTrip(m.shardMaskList, ShardMaskToValue, AsShardMask);
  }

  lemma PongFieldsRoundTrip(m: Message)
    requires m.Pong?
    ensures FromFields(TypeOf(m), ToFields(m)) == Some(m)
  {
    ShardMaskInverse(); AsListRoundTrip(m.shardMaskList, ShardMaskToValue, AsShardMask);
  }

  lemma ConnectToSlavesRequestFieldsRoundTrip(m: Message)
    requires m.ConnectToSlavesRequest?
    ensures FromFields(TypeOf(m), ToFields(m)) == Some(m)
  {
    SlaveInfoInverse(); AsListRoundTrip(m.slaveInfoList, SlaveInfoToValue, AsSlaveInfo);
  }

  lemma ConnectToSlavesResponseFieldsRoundTrip(m: Message)
    requires m.ConnectToSlavesResponse?
    ensures FromFields(TypeOf(m), ToFields(m)) == Some(m)
  {
    BytesInverse(); AsListRoundTrip(m.resultList, BytesToValue, AsBytes);
  }

  lemma AddRootBlockRequestFieldsRoundTrip(m: Message)
    requires m.AddRootBlockRequest?
    ensures FromFields(TypeOf(m), ToFields(m)) == Some(m)
  {
  }

  lemma AddRootBlockResponseFieldsRoundTrip(m: Message)
    requires m.AddRootBlockResponse?
    ensures FromFields(TypeOf(m), ToFields(m)) == Some(m)
  {
  }

  lemma GetEcoInfoListRequestFieldsRoundTrip(m: Message)
    requires m.GetEcoInfoListRequest?
    ensures FromFields(TypeOf(m), ToFields(m)) == Some(m)
  {
  }

  lemma GetEcoInfoListResponseFieldsRoundTrip(m: Message)
    requires m.GetEcoInfoListResponse?
    ensures FromFields(TypeOf(m), ToFields(m)) == Some(m)
  {
    EcoInfoInverse(); AsListRoundTrip(m.ecoInfoList, EcoInfoToValue, AsEcoInfo);
  }

  lemma GetNextBlockToMineRequestFieldsRoundTrip(m: Message)
    requires m.GetNextBlockToMineRequest?
    ensures FromFields(TypeOf(m), ToFields(m)) == Some(m)
  {
    ArtificialTxConfigInverse();
  }

  lemma GetNextBlockToMineResponseFieldsRoundTrip(m: Message)
    requires m.GetNextBlockToMineResponse?
    ensures FromFields(TypeOf(m), ToFields(m)) == Some(m)
  {
  }

  lemma GetUnconfirmedHeadersRequestFieldsRoundTrip(m: Message)
    requires m.GetUnconfirmedHeadersRequest?
    ensures FromFields(TypeOf(m), ToFields(m)) == Some(m)
  {
  }

  lemma GetUnconfirmedHeadersResponseFieldsRoundTrip(m: Message)
    requires m.GetUnconfirmedHeadersResponse?
    ensures FromFields(TypeOf(m), ToFields(m)) == Some(m)
  {
    HeadersInfoInverse(); AsListRoundTrip(m.headersInfoList, HeadersInfoToValue, AsHeadersInfo);
  }

  lemma GetAccountDataRequestFieldsRoundTrip(m: Message)
    requires m.GetAccountDataRequest?
    ensures FromFields(TypeOf(m), ToFields(m)) == Some(m)
  {
  }

  lemma GetAccountDataResponseFieldsRoundTrip(m: Message)
    requires m.GetAccountDataResponse?
    ensures FromFields(TypeOf(m), ToFields(m)) == Some(m)
  {
    AccountBranchDataInverse(); AsListRoundTrip(m.accountBranchDataList, AccountBranchDataToValue, AsAccountBranchData);
  }

  lemma AddTransactionRequestFieldsRoundTrip(m: Message)
    requires m.AddTransactionRequest?
    ensures FromFields(TypeOf(m), ToFields(m)) == Some(m)
  {
  }

  lemma AddTransactionResponseFieldsRoundTrip(m: Message)
    requires m.AddTransactionResponse?
    ensures FromFields(TypeOf(m), ToFields(m)) == Some(m)
  {
  }

  lemma AddMinorBlockHeaderRequestFieldsRoundTrip(m: Message)
    requires m.AddMinorBlockHeaderRequest?
    ensures FromFields(TypeOf(m), ToFields(m)) == Some(m)
  {
    ShardStatsInverse();
  }

  lemma AddMinorBlockHeaderResponseFieldsRoundTrip(m: Message)
    requires m.AddMinorBlockHeaderResponse?
    ensures FromFields(TypeOf(m), ToFields(m)) == Some(m)
  {
  }

  lemma AddXshardTxListRequestFieldsRoundTrip(m: Message)
    requires m.AddXshardTxListRequest?
    ensures FromFields(TypeOf(m), ToFields(m)) == Some(m)
  {
  }

  lemma AddXshardTxListResponseFieldsRoundTrip(m: Message)
    requires m.AddXshardTxListResponse?
    ensures FromFields(TypeOf(m), ToFields(m)) == Some(m)
  {
  }

  lemma SyncMinorBlockListRequestFieldsRoundTrip(m: Message)
    requires m.SyncMinorBlockListRequest?
    ensures FromFields(TypeOf(m), ToFields(m)) == Some(m)
  {
    BytesInverse(); AsListRoundTrip(m.minorBlockHashList, BytesToValue, AsBytes);
  }

  lemma SyncMinorBlockListResponseFieldsRoundTrip(m: Message)
    requires m.SyncMinorBlockListResponse?
    ensures FromFields(TypeOf(m), ToFields(m)) == Some(m)
  {
  }

  lemma AddMinorBlockRequestFieldsRoundTrip(m: Message)
    requires m.AddMinorBlockRequest?
    ensures FromFields(TypeOf(m), ToFields(m)) == Some(m)
  {
  }

  lemma AddMinorBlockResponseFieldsRoundTrip(m: Message)
    requires m.AddMinorBlockResponse?
    ensures FromFields(TypeOf(m), ToFields(m)) == Some(m)
  {
  }

  lemma CreateClusterPeerConnectionRequestFieldsRoundTrip(m: Message)
    requires m.CreateClusterPeerConnectionRequest?
    ensures FromFields(TypeOf(m), ToFields(m)) == Some(m)
  {
  }

  lemma CreateClusterPeerConnectionResponseFieldsRoundTrip(m: Message)
    requires m.CreateClusterPeerConnectionResponse?
    ensures FromFields(TypeOf(m), ToFields(m)) == Some(m)
  {
  }

  lemma DestroyClusterPeerConnectionCommandFieldsRoundTrip(m: Message)
    requires m.DestroyClusterPeerConnectionCommand?
    ensures FromFields(TypeOf(m), ToFields(m)) == Some(m)
  {
  }

  lemma GetMinorBlockRequestFieldsRoundTrip(m: Message)
    requires m.GetMinorBlockRequest?
    ensures FromFields(TypeOf(m), ToFields(m)) == Some(m)
  {
  }

  lemma GetMinorBlockResponseFieldsRoundTrip(m: Message)
    requires m.GetMinorBlockResponse?
    ensures FromFields(TypeOf(m), ToFields(m)) == Some(m)
  {
  }

  lemma GetTransactionRequestFieldsRoundTrip(m: Message)
    requires m.GetTransactionRequest?
    ensures FromFields(TypeOf(m), ToFields(m)) == Some(m)
  {
  }

  lemma GetTransactionResponseFieldsRoundTrip(m: Message)
    requires m.GetTransactionResponse?
    ensures FromFields(TypeOf(m), ToFields(m)) == Some(m)
  {
  }

  lemma BatchAddXshardTxListRequestFieldsRoundTrip(m: Message)
    requires m.BatchAddXshardTxListRequest?
    ensures FromFields(TypeOf(m), ToFields(m)) == Some(m)
  {
    XshardTxListInverse(); AsListRoundTrip(m.addXshardTxListRequestList, XshardTxListToValue, AsXshardTxList);
  }

  lemma BatchAddXshardTxListResponseFieldsRoundTrip(m: Message)
    requires m.BatchAddXshardTxListResponse?
    ensures FromFields(TypeOf(m), ToFields(m)) == Some(m)
  {
  }

  lemma ExecuteTransactionRequestFieldsRoundTrip(m: Message)
    requires m.ExecuteTransactionRequest?
    ensures FromFields(TypeOf(m), ToFields(m)) == Some(m)
  {
  }

  lemma ExecuteTransactionResponseFieldsRoundTrip(m: Message)
    requires m.ExecuteTransactionResponse?
    ensures FromFields(TypeOf(m), ToFields(m)) == Some(m)
  {
  }

  lemma GetTransactionReceiptRequestFieldsRoundTrip(m: Message)
    requires m.GetTransactionReceiptRequest?
    ensures FromFields(TypeOf(m), ToFields(m)) == Some(m)
  {
  }

  lemma GetTransactionReceiptResponseFieldsRoundTrip(m: Message)
    requires m.GetTransactionReceiptResponse?
    ensures FromFields(TypeOf(m), ToFields(m)) == Some(m)
  {
  }

  /** Reading back the fields of a message gives the message. */
  lemma FieldsRoundTrip(m: Message)
    ensures FromFields(TypeOf(m), ToFields(m)) == Some(m)
  {
    match m
    case Ping(_, _, _) => PingFieldsRoundTrip(m);
    case Pong(_, _) => PongFieldsRoundTrip(m);
    case ConnectToSlavesRequest(_) => ConnectToSlavesRequestFieldsRoundTrip(m);
    case ConnectToSlavesResponse(_) => ConnectToSlavesResponseFieldsRoundTrip(m);
    case AddRootBlockRequest(_, _) => AddRootBlockRequestFieldsRoundTrip(m);
    case AddRootBlockResponse(_, _) => AddRootBlockResponseFieldsRoundTrip(m);
    case GetEcoInfoListRequest => GetEcoInfoListRequestFieldsRoundTrip(m);
    case GetEcoInfoListResponse(_, _) => GetEcoInfoListResponseFieldsRoundTrip(m);
    case GetNextBlockToMineRequest(_, _, _) => GetNextBlockToMineRequestFieldsRoundTrip(m);
    case GetNextBlockToMineResponse(_, _) => GetNextBlockToMineResponseFieldsRoundTrip(m);
    case GetUnconfirmedHeadersRequest => GetUnconfirmedHeadersRequestFieldsRoundTrip(m);
    case GetUnconfirmedHeadersResponse(_, _) => GetUnconfirmedHeadersResponseFieldsRoundTrip(m);
    case GetAccountDataRequest(_) => GetAccountDataRequestFieldsRoundTrip(m);
    case GetAccountDataResponse(_, _) => GetAccountDataResponseFieldsRoundTrip(m);
    case AddTransactionRequest(_) => AddTransactionRequestFieldsRoundTrip(m);
    case AddTransactionResponse(_) => AddTransactionResponseFieldsRoundTrip(m);
    case AddMinorBlockHeaderRequest(_, _, _, _) => AddMinorBlockHeaderRequestFieldsRoundTrip(m);
    case AddMinorBlockHeaderResponse(_) => AddMinorBlockHeaderResponseFieldsRoundTrip(m);
    case AddXshardTxListRequest(_, _, _) => AddXshardTxListRequestFieldsRoundTrip(m);
    case AddXshardTxListResponse(_) => AddXshardTxListResponseFieldsRoundTrip(m);
    case SyncMinorBlockListRequest(_, _, _) => SyncMinorBlockListRequestFieldsRoundTrip(m);
    case SyncMinorBlockListResponse(_) => SyncMinorBlockListResponseFieldsRoundTrip(m);
    case AddMinorBlockRequest(_) => AddMinorBlockRequestFieldsRoundTrip(m);
    case AddMinorBlockResponse(_) => AddMinorBlockResponseFieldsRoundTrip(m);
    case CreateClusterPeerConnectionRequest(_) => CreateClusterPeerConnectionRequestFieldsRoundTrip(m);
    case CreateClusterPeerConnectionResponse(_) => CreateClusterPeerConnectionResponseFieldsRoundTrip(m);
    case DestroyClusterPeerConnectionCommand(_) => DestroyClusterPeerConnectionCommandFieldsRoundTrip(m);
    case GetMinorBlockRequest(_, _, _) => GetMinorBlockRequestFieldsRoundTrip(m);
    case GetMinorBlockResponse(_, _) => GetMinorBlockResponseFieldsRoundTrip(m);
    case GetTransactionRequest(_, _) => GetTransactionRequestFieldsRoundTrip(m);
    case GetTransactionResponse(_, _, _) => GetTransactionResponseFieldsRoundTrip(m);
    case BatchAddXshardTxListRequest(_) => BatchAddXshardTxListRequestFieldsRoundTrip(m);
    case BatchAddXshardTxListResponse(_) => BatchAddXshardTxListResponseFieldsRoundTrip(m);
    case ExecuteTransactionRequest(_) => ExecuteTransactionRequestFieldsRoundTrip(m);
    case ExecuteTransactionResponse(_, _) => ExecuteTransactionResponseFieldsRoundTrip(m);
    case GetTransactionReceiptRequest(_, _) => GetTransactionReceiptRequestFieldsRoundTrip(m);
    case GetTransactionReceiptResponse(_, _, _, _) => GetTransactionReceiptResponseFieldsRoundTrip(m);
  }

  lemma PingFieldsCanonical(vs: seq<Value>)
    requires FromFields(Catalog.MessageType.Ping, vs).Some?
    ensures TypeOf(FromFields(Catalog.MessageType.Ping, vs).value) == Catalog.MessageType.Ping
    ensures ToFields(FromFields(Catalog.MessageType.Ping, vs).value) == vs
  {
    ShardMaskInverse(); AsListCanonical(vs[1], ShardMaskToValue, AsShardMask);
    assert vs == [vs[0], vs[1], vs[2]];
  }

  lemma PongFieldsCanonical(vs: seq<Value>)
    requires FromFields(Catalog.MessageType.Pong, vs).Some?
    ensures TypeOf(FromFields(Catalog.MessageType.Pong, vs).value) == Catalog.MessageType.Pong
    ensures ToFields(FromFields(Catalog.MessageType.Pong, vs).value) == vs
  {
    ShardMaskInverse(); AsListCanonical(vs[1], ShardMaskToValue, AsShardMask);
    assert vs == [vs[0], vs[1]];
  }

  lemma ConnectToSlavesRequestFieldsCanonical(vs: seq<Value>)
    requires FromFields(Catalog.MessageType.ConnectToSlavesRequest, vs).Some?
    ensures TypeOf(FromFields(Catalog.MessageType.ConnectToSlavesRequest, vs).value) == Catalog.MessageType.ConnectToSlavesRequest
    ensures ToFields(FromFields(Catalog.MessageType.ConnectToSlavesRequest, vs).value) == vs
  {
    SlaveInfoInverse(); AsListCanonical(vs[0], SlaveInfoToValue, AsSlaveInfo);
    assert vs == [vs[0]];
  }

  lemma ConnectToSlavesResponseFieldsCanonical(vs: seq<Value>)
    requires FromFields(Catalog.MessageType.ConnectToSlavesResponse, vs).Some?
    ensures TypeOf(FromFields(Catalog.MessageType.ConnectToSlavesResponse, vs).value) == Catalog.MessageType.ConnectToSlavesResponse
    ensures ToFields(FromFields(Catalog.MessageType.ConnectToSlavesResponse, vs).value) == vs
  {
    BytesInverse(); AsListCanonical(vs[0], BytesToValue, AsBytes);
    assert vs == [vs[0]];
  }

  lemma AddRootBlockRequestFieldsCanonical(vs: seq<Value>)
    requires FromFields(Catalog.MessageType.AddRootBlockRequest, vs).Some?
    ensures TypeOf(FromFields(Catalog.MessageType.AddRootBlockRequest, vs).value) == Catalog.MessageType.AddRootBlockRequest
    ensures ToFields(FromFields(Catalog.MessageType.AddRootBlockRequest, vs).value) == vs
  {
    assert vs == [vs[0], vs[1]];
  }

  lemma AddRootBlockResponseFieldsCanonical(vs: seq<Value>)
    requires FromFields(Catalog.MessageType.AddRootBlockResponse, vs).Some?
    ensures TypeOf(FromFields(Catalog.MessageType.AddRootBlockResponse, vs).value) == Catalog.MessageType.AddRootBlockResponse
    ensures ToFields(FromFields(Catalog.MessageType.AddRootBlockResponse, vs).value) == vs
  {
    assert vs == [vs[0], vs[1]];
  }

  lemma GetEcoInfoListRequestFieldsCanonical(vs: seq<Value>)
    requires FromFields(Catalog.MessageType.GetEcoInfoListRequest, vs).Some?
    ensures TypeOf(FromFields(Catalog.MessageType.GetEcoInfoListRequest, vs).value) == Catalog.MessageType.GetEcoInfoListRequest
    ensures ToFields(FromFields(Catalog.MessageType.GetEcoInfoListRequest, vs).value) == vs
  {
    assert vs == [];
  }

  lemma GetEcoInfoListResponseFieldsCanonical(vs: seq<Value>)
    requires FromFields(Catalog.MessageType.GetEcoInfoListResponse, vs).Some?
    ensures TypeOf(FromFields(Catalog.MessageType.GetEcoInfoListResponse, vs).value) == Catalog.MessageType.GetEcoInfoListResponse
    ensures ToFields(FromFields(Catalog.MessageType.GetEcoInfoListResponse, vs).value) == vs
  {
    EcoInfoInverse(); AsListCanonical(vs[1], EcoInfoToValue, AsEcoInfo);
    assert vs == [vs[0], vs[1]];
  }

  lemma GetNextBlockToMineRequestFieldsCanonical(vs: seq<Value>)
    requires FromFields(Catalog.MessageType.GetNextBlockToMineRequest, vs).Some?
    ensures TypeOf(FromFields(Catalog.MessageType.GetNextBlockToMineRequest, vs).value) == Catalog.MessageType.GetNextBlockToMineRequest
    ensures ToFields(FromFields(Catalog.MessageType.GetNextBlockToMineRequest, vs).value) == vs
  {
    ArtificialTxConfigInverse();
    assert vs == [vs[0], vs[1], vs[2]];
  }

  lemma GetNextBlockToMineResponseFieldsCanonical(vs: seq<Value>)
    requires FromFields(Catalog.MessageType.GetNextBlockToMineResponse, vs).Some?
    ensures TypeOf(FromFields(Catalog.MessageType.GetNextBlockToMineResponse, vs).value) == Catalog.MessageType.GetNextBlockToMineResponse
    ensures ToFields(FromFields(Catalog.MessageType.GetNextBlockToMineResponse, vs).value) == vs
  {
    assert vs == [vs[0], vs[1]];
  }

  lemma GetUnconfirmedHeadersRequestFieldsCanonical(vs: seq<Value>)
    requires FromFields(Catalog.MessageType.GetUnconfirmedHeadersRequest, vs).Some?
    ensures TypeOf(FromFields(Catalog.MessageType.GetUnconfirmedHeadersRequest, vs).value) == Catalog.MessageType.GetUnconfirmedHeadersRequest
    ensures ToFields(FromFields(Catalog.MessageType.GetUnconfirmedHeadersRequest, vs).value) == vs
  {
    assert vs == [];
  }

  lemma GetUnconfirmedHeadersResponseFieldsCanonical(vs: seq<Value>)
    requires FromFields(Catalog.MessageType.GetUnconfirmedHeadersResponse, vs).Some?
    ensures TypeOf(FromFields(Catalog.MessageType.GetUnconfirmedHeadersResponse, vs).value) == Catalog.MessageType.GetUnconfirmedHeadersResponse
    ensures ToFields(FromFields(Catalog.MessageType.GetUnconfirmedHeadersResponse, vs).value) == vs
  {
    HeadersInfoInverse(); AsListCanonical(vs[1], HeadersInfoToValue, AsHeadersInfo);
    assert vs == [vs[0], vs[1]];
  }

  lemma GetAccountDataRequestFieldsCanonical(vs: seq<Value>)
    requires FromFields(Catalog.MessageType.GetAccountDataRequest, vs).Some?
    ensures TypeOf(FromFields(Catalog.MessageType.GetAccountDataRequest, vs).value) == Catalog.MessageType.GetAccountDataRequest
    ensures ToFields(FromFields(Catalog.MessageType.GetAccountDataRequest, vs).value) == vs
  {
    assert vs == [vs[0]];
  }

  lemma GetAccountDataResponseFieldsCanonical(vs: seq<Value>)
    requires FromFields(Catalog.MessageType.GetAccountDataResponse, vs).Some?
    ensures TypeOf(FromFields(Catalog.MessageType.GetAccountDataResponse, vs).value) == Catalog.MessageType.GetAccountDataResponse
    ensures ToFields(FromFields(Catalog.MessageType.GetAccountDataResponse, vs).value) == vs
  {
    AccountBranchDataInverse(); AsListCanonical(vs[1], AccountBranchDataToValue, AsAccountBranchData);
    assert vs == [vs[0], vs[1]];
  }

  lemma AddTransactionRequestFieldsCanonical(vs: seq<Value>)
    requires FromFields(Catalog.MessageType.AddTransactionRequest, vs).Some?
    ensures TypeOf(FromFields(Catalog.MessageType.AddTransactionRequest, vs).value) == Catalog.MessageType.AddTransactionRequest
    ensures ToFields(FromFields(Catalog.MessageType.AddTransactionRequest, vs).value) == vs
  {
    assert vs == [vs[0]];
  }

  lemma AddTransactionResponseFieldsCanonical(vs: seq<Value>)
    requires FromFields(Catalog.MessageType.AddTransactionResponse, vs).Some?
    ensures TypeOf(FromFields(Catalog.MessageType.AddTransactionResponse, vs).value) == Catalog.MessageType.AddTransactionResponse
    ensures ToFields(FromFields(Catalog.MessageType.AddTransactionResponse, vs).value) == vs
  {
    assert vs == [vs[0]];
  }

  lemma AddMinorBlockHeaderRequestFieldsCanonical(vs: seq<Value>)
    requires FromFields(Catalog.MessageType.AddMinorBlockHeaderRequest, vs).Some?
    ensures TypeOf(FromFields(Catalog.MessageType.AddMinorBlockHeaderRequest, vs).value) == Catalog.MessageType.AddMinorBlockHeaderRequest
    ensures ToFields(FromFields(Catalog.MessageType.AddMinorBlockHeaderRequest, vs).value) == vs
  {
    ShardStatsInverse();
    assert vs == [vs[0], vs[1], vs[2], vs[3]];
  }

  lemma AddMinorBlockHeaderResponseFieldsCanonical(vs: seq<Value>)
    requires FromFields(Catalog.MessageType.AddMinorBlockHeaderResponse, vs).Some?
    ensures TypeOf(FromFields(Catalog.MessageType.AddMinorBlockHeaderResponse, vs).value) == Catalog.MessageType.AddMinorBlockHeaderResponse
    ensures ToFields(FromFields(Catalog.MessageType.AddMinorBlockHeaderResponse, vs).value) == vs
  {
    assert vs == [vs[0]];
  }

  lemma AddXshardTxListRequestFieldsCanonical(vs: seq<Value>)
    requires FromFields(Catalog.MessageType.AddXshardTxListRequest, vs).Some?
    ensures TypeOf(FromFields(Catalog.MessageType.AddXshardTxListRequest, vs).value) == Catalog.MessageType.AddXshardTxListRequest
    ensures ToFields(FromFields(Catalog.MessageType.AddXshardTxListRequest, vs).value) == vs
  {
    assert vs == [vs[0], vs[1], vs[2]];
  }

  lemma AddXshardTxListResponseFieldsCanonical(vs: seq<Value>)
    requires FromFields(Catalog.MessageType.AddXshardTxListResponse, vs).Some?
    ensures TypeOf(FromFields(Catalog.MessageType.AddXshardTxListResponse, vs).value) == Catalog.MessageType.AddXshardTxListResponse
    ensures ToFields(FromFields(Catalog.MessageType.AddXshardTxListResponse, vs).value) == vs
  {
    assert vs == [vs[0]];
  }

  lemma SyncMinorBlockListRequestFieldsCanonical(vs: seq<Value>)
    requires FromFields(Catalog.MessageType.SyncMinorBlockListRequest, vs).Some?
    ensures TypeOf(FromFields(Catalog.MessageType.SyncMinorBlockListRequest, vs).value) == Catalog.MessageType.SyncMinorBlockListRequest
    ensures ToFields(FromFields(Catalog.MessageType.SyncMinorBlockListRequest, vs).value) == vs
  {
    BytesInverse(); AsListCanonical(vs[0], BytesToValue, AsBytes);
    assert vs == [vs[0], vs[1], vs[2]];
  }

  lemma SyncMinorBlockListResponseFieldsCanonical(vs: seq<Value>)
    requires FromFields(Catalog.MessageType.SyncMinorBlockListResponse, vs).Some?
    ensures TypeOf(FromFields(Catalog.MessageType.SyncMinorBlockListResponse, vs).value) == Catalog.MessageType.SyncMinorBlockListResponse
    ensures ToFields(FromFields(Catalog.MessageType.SyncMinorBlockListResponse, vs).value) == vs
  {
    assert vs == [vs[0]];
  }

  lemma AddMinorBlockRequestFieldsCanonical(vs: seq<Value>)
    requires FromFields(Catalog.MessageType.AddMinorBlockRequest, vs).Some?
    ensures TypeOf(FromFields(Catalog.MessageType.AddMinorBlockRequest, vs).value) == Catalog.MessageType.AddMinorBlockRequest
    ensures ToFields(FromFields(Catalog.MessageType.AddMinorBlockRequest, vs).value) == vs
  {
    assert vs == [vs[0]];
  }

  lemma AddMinorBlockResponseFieldsCanonical(vs: seq<Value>)
    requires FromFields(Catalog.MessageType.AddMinorBlockResponse, vs).Some?
    ensures TypeOf(FromFields(Catalog.MessageType.AddMinorBlockResponse, vs).value) == Catalog.MessageType.AddMinorBlockResponse
    ensures ToFields(FromFields(Catalog.MessageType.AddMinorBlockResponse, vs).value) == vs
  {
    assert vs == [vs[0]];
  }

  lemma CreateClusterPeerConnectionRequestFieldsCanonical(vs: seq<Value>)
    requires FromFields(Catalog.MessageType.CreateClusterPeerConnectionRequest, vs).Some?
    ensures TypeOf(FromFields(Catalog.MessageType.CreateClusterPeerConnectionRequest, vs).value) == Catalog.MessageType.CreateClusterPeerConnectionRequest
    ensures ToFields(FromFields(Catalog.MessageType.CreateClusterPeerConnectionRequest, vs).value) == vs
  {
    assert vs == [vs[0]];
  }

  lemma CreateClusterPeerConnectionResponseFieldsCanonical(vs: seq<Value>)
    requires FromFields(Catalog.MessageType.CreateClusterPeerConnectionResponse, vs).Some?
    ensures TypeOf(FromFields(Catalog.MessageType.CreateClusterPeerConnectionResponse, vs).value) == Catalog.MessageType.CreateClusterPeerConnectionResponse
    ensures ToFields(FromFields(Catalog.MessageType.CreateClusterPeerConnectionResponse, vs).value) == vs
  {
    assert vs == [vs[0]];
  }

  lemma DestroyClusterPeerConnectionCommandFieldsCanonical(vs: seq<Value>)
    requires FromFields(Catalog.MessageType.DestroyClusterPeerConnectionCommand, vs).Some?
    ensures TypeOf(FromFields(Catalog.MessageType.DestroyClusterPeerConnectionCommand, vs).value) == Catalog.MessageType.DestroyClusterPeerConnectionCommand
    ensures ToFields(FromFields(Catalog.MessageType.DestroyClusterPeerConnectionCommand, vs).value) == vs
  {
    assert vs == [vs[0]];
  }

  lemma GetMinorBlockRequestFieldsCanonical(vs: seq<Value>)
    requires FromFields(Catalog.MessageType.GetMinorBlockRequest, vs).Some?
    ensures TypeOf(FromFields(Catalog.MessageType.GetMinorBlockRequest, vs).value) == Catalog.MessageType.GetMinorBlockRequest
    ensures ToFields(FromFields(Catalog.MessageType.GetMinorBlockRequest, vs).value) == vs
  {
    assert vs == [vs[0], vs[1], vs[2]];
  }

  lemma GetMinorBlockResponseFieldsCanonical(vs: seq<Value>)
    requires FromFields(Catalog.MessageType.GetMinorBlockResponse, vs).Some?
    ensures TypeOf(FromFields(Catalog.MessageType.GetMinorBlockResponse, vs).value) == Catalog.MessageType.GetMinorBlockResponse
    ensures ToFields(FromFields(Catalog.MessageType.GetMinorBlockResponse, vs).value) == vs
  {
    assert vs == [vs[0], vs[1]];
  }

  lemma GetTransactionRequestFieldsCanonical(vs: seq<Value>)
    requires FromFields(Catalog.MessageType.GetTransactionRequest, vs).Some?
    ensures TypeOf(FromFields(Catalog.MessageType.GetTransactionRequest, vs).value) == Catalog.MessageType.GetTransactionRequest
    ensures ToFields(FromFields(Catalog.MessageType.GetTransactionRequest, vs).value) == vs
  {
    assert vs == [vs[0], vs[1]];
  }

  lemma GetTransactionResponseFieldsCanonical(vs: seq<Value>)
    requires FromFields(Catalog.MessageType.GetTransactionResponse, vs).Some?
    ensures TypeOf(FromFields(Catalog.MessageType.GetTransactionResponse, vs).value) == Catalog.MessageType.GetTransactionResponse
    ensures ToFields(FromFields(Catalog.MessageType.GetTransactionResponse, vs).value) == vs
  {
    assert vs == [vs[0], vs[1], vs[2]];
  }

  lemma BatchAddXshardTxListRequestFieldsCanonical(vs: seq<Value>)
    requires FromFields(Catalog.MessageType.BatchAddXshardTxListRequest, vs).Some?
    ensures TypeOf(FromFields(Catalog.MessageType.BatchAddXshardTxListRequest, vs).value) == Catalog.MessageType.BatchAddXshardTxListRequest
    ensures ToFields(FromFields(Catalog.MessageType.BatchAddXshardTxListRequest, vs).value) == vs
  {
    XshardTxListInverse(); AsListCanonical(vs[0], XshardTxListToValue, AsXshardTxList);
    assert vs == [vs[0]];
  }

  lemma BatchAddXshardTxListResponseFieldsCanonical(vs: seq<Value>)
    requires FromFields(Catalog.MessageType.BatchAddXshardTxListResponse, vs).Some?
    ensures TypeOf(FromFields(Catalog.MessageType.BatchAddXshardTxListResponse, vs).value) == Catalog.MessageType.BatchAddXshardTxListResponse
    ensures ToFields(FromFields(Catalog.MessageType.BatchAddXshardTxListResponse, vs).value) == vs
  {
    assert vs == [vs[0]];
  }

  lemma ExecuteTransactionRequestFieldsCanonical(vs: seq<Value>)
    requires FromFields(Catalog.MessageType.ExecuteTransactionRequest, vs).Some?
    ensures TypeOf(FromFields(Catalog.MessageType.ExecuteTransactionRequest, vs).value) == Catalog.MessageType.ExecuteTransactionRequest
    ensures ToFields(FromFields(Catalog.MessageType.ExecuteTransactionRequest, vs).value) == vs
  {
    assert vs == [vs[0]];
  }

  lemma ExecuteTransactionResponseFieldsCanonical(vs: seq<Value>)
    requires FromFields(Catalog.MessageType.ExecuteTransactionResponse, vs).Some?
    ensures TypeOf(FromFields(Catalog.MessageType.ExecuteTransactionResponse, vs).value) == Catalog.MessageType.ExecuteTransactionResponse
    ensures ToFields(FromFields(Catalog.MessageType.ExecuteTransactionResponse, vs).value) == vs
  {
    assert vs == [vs[0], vs[1]];
  }

  lemma GetTransactionReceiptRequestFieldsCanonical(vs: seq<Value>)
    requires FromFields(Catalog.MessageType.GetTransactionReceiptRequest, vs).Some?
    ensures TypeOf(FromFields(Catalog.MessageType.GetTransactionReceiptRequest, vs).value) == Catalog.MessageType.GetTransactionReceiptRequest
    ensures ToFields(FromFields(Catalog.MessageType.GetTransactionReceiptRequest, vs).value) == vs
  {
    assert vs == [vs[0], vs[1]];
  }

  lemma GetTransactionReceiptResponseFieldsCanonical(vs: seq<Value>)
    requires FromFields(Catalog.MessageType.GetTransactionReceiptResponse, vs).Some?
    ensures TypeOf(FromFields(Catalog.MessageType.GetTransactionReceiptResponse, vs).value) == Catalog.MessageType.GetTransactionReceiptResponse
    ensures ToFields(FromFields(Catalog.MessageType.GetTransactionReceiptResponse, vs).value) == vs
  {
    assert vs == [vs[0], vs[1], vs[2], vs[3]];
  }

  /** Field values that convert to a message are exactly that message's fields. */
  lemma FieldsCanonical(t: Catalog.MessageType, vs: seq<Value>)
    requires FromFields(t, vs).Some?
    ensures TypeOf(FromFields(t, vs).value) == t
    ensures ToFields(FromFields(t, vs).value) == vs
  {
    match t
    case Ping => PingFieldsCanonical(vs);
    case Pong => PongFieldsCanonical(vs);
    case ConnectToSlavesRequest => ConnectToSlavesRequestFieldsCanonical(vs);
    case ConnectToSlavesResponse => ConnectToSlavesResponseFieldsCanonical(vs);
    case AddRootBlockRequest => AddRootBlockRequestFieldsCanonical(vs);
    case AddRootBlockResponse => AddRootBlockResponseFieldsCanonical(vs);
    case GetEcoInfoListRequest => GetEcoInfoListRequestFieldsCanonical(vs);
    case GetEcoInfoListResponse => GetEcoInfoListResponseFieldsCanonical(vs);
    case GetNextBlockToMineRequest => GetNextBlockToMineRequestFieldsCanonical(vs);
    case GetNextBlockToMineResponse => GetNextBlockToMineResponseFieldsCanonical(vs);
    case GetUnconfirmedHeadersRequest => GetUnconfirmedHeadersRequestFieldsCanonical(vs);
    case GetUnconfirmedHeadersResponse => GetUnconfirmedHeadersResponseFieldsCanonical(vs);
    case GetAccountDataRequest => GetAccountDataRequestFieldsCanonical(vs);
    case GetAccountDataResponse => GetAccountDataResponseFieldsCanonical(vs);
    case AddTransactionRequest => AddTransactionRequestFieldsCanonical(vs);
    case AddTransactionResponse => AddTransactionResponseFieldsCanonical(vs);
    case AddMinorBlockHeaderRequest => AddMinorBlockHeaderRequestFieldsCanonical(vs);
    case AddMinorBlockHeaderResponse => AddMinorBlockHeaderResponseFieldsCanonical(vs);
    case AddXshardTxListRequest => AddXshardTxListRequestFieldsCanonical(vs);
    case AddXshardTxListResponse => AddXshardTxListResponseFieldsCanonical(vs);
    case SyncMinorBlockListRequest => SyncMinorBlockListRequestFieldsCanonical(vs);
    case SyncMinorBlockListResponse => SyncMinorBlockListResponseFieldsCanonical(vs);
    case AddMinorBlockRequest => AddMinorBlockRequestFieldsCanonical(vs);
    case AddMinorBlockResponse => AddMinorBlockResponseFieldsCanonical(vs);
    case CreateClusterPeerConnectionRequest => CreateClusterPeerConnectionRequestFieldsCanonical(vs);
    case CreateClusterPeerConnectionResponse => CreateClusterPeerConnectionResponseFieldsCanonical(vs);
    case DestroyClusterPeerConnectionCommand => DestroyClusterPeerConnectionCommandFieldsCanonical(vs);
    case GetMinorBlockRequest => GetMinorBlockRequestFieldsCanonical(vs);
    case GetMinorBlockResponse => GetMinorBlockResponseFieldsCanonical(vs);
    case GetTransactionRequest => GetTransactionRequestFieldsCanonical(vs);
    case GetTransactionResponse => GetTransactionResponseFieldsCanonical(vs);
    case BatchAddXshardTxListRequest => BatchAddXshardTxListRequestFieldsCanonical(vs);
    case BatchAddXshardTxListResponse => BatchAddXshardTxListResponseFieldsCanonical(vs);
    case ExecuteTransactionRequest => ExecuteTransactionRequestFieldsCanonical(vs);
    case ExecuteTransactionResponse => ExecuteTransactionResponseFieldsCanonical(vs);
    case GetTransactionReceiptRequest => GetTransactionReceiptRequestFieldsCanonical(vs);
    case GetTransactionReceiptResponse => GetTransactionReceiptResponseFieldsCanonical(vs);
  }

  /** The `id` argument of Ping, Pong and SlaveInfo: bytes, or a string to be stored as ASCII. */
  datatype IdArg = BytesId(raw: seq<byte>) | TextId(text: string)

  predicate IsAscii(s: string)
  {
    forall i :: 0 <= i < |s| ==> s[i] as int < 128
  }

  /** `bytes(s, "ascii")`: one byte per character, an encoding error for any character above 127. */
  function AsciiEncode(s: string): (r: Result<seq<byte>, Error>)
    ensures r.Ok? <==> IsAscii(s)
    ensures r.Ok? ==> |r.value| == |s| && forall i :: 0 <= i < |s| ==> r.value[i] == s[i] as int
    ensures r.Err? ==> r.error == EncodingError
  {
    if |s| == 0 then Ok([])
    else if s[0] as int >= 128 then Err(EncodingError)
    else
      var rest :- AsciiEncode(s[1..]);
      Ok([s[0] as int] + rest)
  }

  /** The characters that ASCII bytes stand for. */
  function AsciiDecode(bs: seq<byte>): (s: string)
    ensures |s| == |bs| && forall i :: 0 <= i < |bs| ==> s[i] as int == bs[i]
  {
    seq(|bs|, i requires 0 <= i < |bs| => bs[i] as char)
  }

  lemma AsciiRoundTrip(s: string)
    requires IsAscii(s)
    ensures AsciiDecode(AsciiEncode(s).value) == s
  {
  }

  lemma AsciiBytesRoundTrip(bs: seq<byte>)
    requires forall i :: 0 <= i < |bs| ==> bs[i] < 128
    ensures AsciiEncode(AsciiDecode(bs)) == Ok(bs)
  {
    var s := AsciiDecode(bs);
    assert IsAscii(s);
    assert AsciiEncode(s).value == bs;
  }

  /** The id the constructors store: bytes unchanged, a string as its ASCII encoding. */
  function IdBytes(id: IdArg): Result<seq<byte>, Error>
  {
    match id
    case BytesId(b) => Ok(b)
    case TextId(s) => AsciiEncode(s)
  }

  /** `Ping(id, shardMaskList, rootTip)`; an empty shard mask list stands for the root. */
  function NewPing(id: IdArg, shardMaskList: seq<ShardMask>, rootTip: RootBlock): (r: Result<Message, Error>)
    ensures id.BytesId? ==> r == Ok(Ping(id.raw, shardMaskList, rootTip))
    ensures id.TextId? ==> (r.Ok? <==> IsAscii(id.text))
    ensures id.TextId? && r.Ok? ==>
      r.value.Ping? && AsciiDecode(r.value.id) == id.text &&
      r.value.shardMaskList == shardMaskList && r.value.rootTip == rootTip
    ensures r.Err? ==> r.error == EncodingError
  {
    var b :- IdBytes(id);
    Ok(Ping(b, shardMaskList, rootTip))
  }

  /** `Pong(id, shardMaskList)`. */
  function NewPong(id: IdArg, shardMaskList: seq<ShardMask>): (r: Result<Message, Error>)
    ensures id.BytesId? ==> r == Ok(Pong(id.raw, shardMaskList))
    ensures id.TextId? ==> (r.Ok? <==> IsAscii(id.text))
    ensures id.TextId? && r.Ok? ==>
      r.value.Pong? && AsciiDecode(r.value.id) == id.text && r.value.shardMaskList == shardMaskList
    ensures r.Err? ==> r.error == EncodingError
  {
    var b :- IdBytes(id);
    Ok(Pong(b, shardMaskList))
  }

  /** `SlaveInfo(id, ip, port, shardMaskList)`. */
  function NewSlaveInfo(id: IdArg, ip: nat, port: nat, shardMaskList: seq<ShardMask>): (r: Result<SlaveInfo, Error>)
    ensures id.BytesId? ==> r == Ok(SlaveInfo(id.raw, ip, port, shardMaskList))
    ensures id.TextId? ==> (r.Ok? <==> IsAscii(id.text))
    ensures id.TextId? && r.Ok? ==>
      AsciiDecode(r.value.id) == id.text && r.value.ip == ip && r.value.port == port &&
      r.value.shardMaskList == shardMaskList
    ensures r.Err? ==> r.error == EncodingError
  {
    var b :- IdBytes(id);
    Ok(SlaveInfo(b, ip, port, shardMaskList))
  }

  /** `bytes(32)`. */
  const ZERO_HASH: seq<byte> := [0, 0, 0, 0, 0, 0, 0, 0, 0, 0, 0, 0, 0, 0, 0, 0, 0, 0, 0, 0, 0, 0, 0, 0, 0, 0, 0, 0, 0, 0, 0, 0]

  /**
   * `GetMinorBlockRequest(branch, minorBlockHash=None, height=0)`: a missing or empty hash
   * is stored as 32 zero bytes; any other hash is stored as given.
   */
  function NewGetMinorBlockRequest(branch: Branch, minorBlockHash: Option<seq<byte>>, height: nat)
    : (m: Message)
    ensures m.GetMinorBlockRequest? && m.branch == branch && m.height == height
    ensures minorBlockHash.None? || minorBlockHash.value == [] ==>
      |m.minorBlockHash| == 32 && forall i :: 0 <= i < 32 ==> m.minorBlockHash[i] == 0
    ensures minorBlockHash.Some? && minorBlockHash.value != [] ==> m.minorBlockHash == minorBlockHash.value
  {
    var hash := if minorBlockHash.Some? && minorBlockHash.value != [] then minorBlockHash.value else ZERO_HASH;
    GetMinorBlockRequest(branch, hash, height)
  }

  /** With only a branch, the request asks for the zero hash at height 0. */
  lemma GetMinorBlockRequestDefaults(branch: Branch)
    ensures NewGetMinorBlockRequest(branch, None, 0) == GetMinorBlockRequest(branch, ZERO_HASH, 0)
    ensures NewGetMinorBlockRequest(branch, Some([]), 0) == NewGetMinorBlockRequest(branch, None, 0)
  {
  }
}
