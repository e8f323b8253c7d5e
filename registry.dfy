/**
 * The cluster opcode table (`ClusterOp`) and the map from opcodes to message classes
 * (`CLUSTER_OP_SERIALIZER_MAP`) of quarkchain/cluster/rpc.py.
 */
module Registry {
  import opened Results
  import opened Wire
  import opened Catalog

  /** Cluster opcodes sit above the peer-to-peer opcode space. */
  const CLUSTER_OP_BASE: int := 128

  const PING: int := 1 + CLUSTER_OP_BASE
  const PONG: int := 2 + CLUSTER_OP_BASE
  const CONNECT_TO_SLAVES_REQUEST: int := 3 + CLUSTER_OP_BASE
  const CONNECT_TO_SLAVES_RESPONSE: int := 4 + CLUSTER_OP_BASE
  const ADD_ROOT_BLOCK_REQUEST: int := 5 + CLUSTER_OP_BASE
  const ADD_ROOT_BLOCK_RESPONSE: int := 6 + CLUSTER_OP_BASE
  const GET_ECO_INFO_LIST_REQUEST: int := 7 + CLUSTER_OP_BASE
  const GET_ECO_INFO_LIST_RESPONSE: int := 8 + CLUSTER_OP_BASE
  const GET_NEXT_BLOCK_TO_MINE_REQUEST: int := 9 + CLUSTER_OP_BASE
  const GET_NEXT_BLOCK_TO_MINE_RESPONSE: int := 10 + CLUSTER_OP_BASE
  const GET_UNCONFIRMED_HEADERS_REQUEST: int := 11 + CLUSTER_OP_BASE
  const GET_UNCONFIRMED_HEADERS_RESPONSE: int := 12 + CLUSTER_OP_BASE
  const GET_ACCOUNT_DATA_REQUEST: int := 13 + CLUSTER_OP_BASE
  const GET_ACCOUNT_DATA_RESPONSE: int := 14 + CLUSTER_OP_BASE
  const ADD_TRANSACTION_REQUEST: int := 15 + CLUSTER_OP_BASE
  const ADD_TRANSACTION_RESPONSE: int := 16 + CLUSTER_OP_BASE
  const ADD_MINOR_BLOCK_HEADER_REQUEST: int := 17 + CLUSTER_OP_BASE
  const ADD_MINOR_BLOCK_HEADER_RESPONSE: int := 18 + CLUSTER_OP_BASE
  const ADD_XSHARD_TX_LIST_REQUEST: int := 19 + CLUSTER_OP_BASE
  const ADD_XSHARD_TX_LIST_RESPONSE: int := 20 + CLUSTER_OP_BASE
  const SYNC_MINOR_BLOCK_LIST_REQUEST: int := 21 + CLUSTER_OP_BASE
  const SYNC_MINOR_BLOCK_LIST_RESPONSE: int := 22 + CLUSTER_OP_BASE
  const ADD_MINOR_BLOCK_REQUEST: int := 23 + CLUSTER_OP_BASE
  const ADD_MINOR_BLOCK_RESPONSE: int := 24 + CLUSTER_OP_BASE
  const CREATE_CLUSTER_PEER_CONNECTION_REQUEST: int := 25 + CLUSTER_OP_BASE
  const CREATE_CLUSTER_PEER_CONNECTION_RESPONSE: int := 26 + CLUSTER_OP_BASE
  const DESTROY_CLUSTER_PEER_CONNECTION_COMMAND: int := 27 + CLUSTER_OP_BASE
  const GET_MINOR_BLOCK_REQUEST: int := 29 + CLUSTER_OP_BASE
  const GET_MINOR_BLOCK_RESPONSE: int := 30 + CLUSTER_OP_BASE
  const GET_TRANSACTION_REQUEST: int := 31 + CLUSTER_OP_BASE
  const GET_TRANSACTION_RESPONSE: int := 32 + CLUSTER_OP_BASE
  const BATCH_ADD_XSHARD_TX_LIST_REQUEST: int := 33 + CLUSTER_OP_BASE
  const BATCH_ADD_XSHARD_TX_LIST_RESPONSE: int := 34 + CLUSTER_OP_BASE
  const EXECUTE_TRANSACTION_REQUEST: int := 35 + CLUSTER_OP_BASE
  const EXECUTE_TRANSACTION_RESPONSE: int := 36 + CLUSTER_OP_BASE
  const GET_TRANSACTION_RECEIPT_REQUEST: int := 37 + CLUSTER_OP_BASE
  const GET_TRANSACTION_RECEIPT_RESPONSE: int := 38 + CLUSTER_OP_BASE

  /** The 37 opcodes in the order the constants are declared. */
  const ALL_OPCODES: seq<int> := [
    PING, PONG, CONNECT_TO_SLAVES_REQUEST, CONNECT_TO_SLAVES_RESPONSE,
    ADD_ROOT_BLOCK_REQUEST, ADD_ROOT_BLOCK_RESPONSE,
    GET_ECO_INFO_LIST_REQUEST, GET_ECO_INFO_LIST_RESPONSE,
    GET_NEXT_BLOCK_TO_MINE_REQUEST, GET_NEXT_BLOCK_TO_MINE_RESPONSE,
    GET_UNCONFIRMED_HEADERS_REQUEST, GET_UNCONFIRMED_HEADERS_RESPONSE,
    GET_ACCOUNT_DATA_REQUEST, GET_ACCOUNT_DATA_RESPONSE,
    ADD_TRANSACTION_REQUEST, ADD_TRANSACTION_RESPONSE,
    ADD_MINOR_BLOCK_HEADER_REQUEST, ADD_MINOR_BLOCK_HEADER_RESPONSE,
    ADD_XSHARD_TX_LIST_REQUEST, ADD_XSHARD_TX_LIST_RESPONSE,
    SYNC_MINOR_BLOCK_LIST_REQUEST, SYNC_MINOR_BLOCK_LIST_RESPONSE,
    ADD_MINOR_BLOCK_REQUEST, ADD_MINOR_BLOCK_RESPONSE,
    CREATE_CLUSTER_PEER_CONNECTION_REQUEST, CREATE_CLUSTER_PEER_CONNECTION_RESPONSE,
    DESTROY_CLUSTER_PEER_CONNECTION_COMMAND,
    GET_MINOR_BLOCK_REQUEST, GET_MINOR_BLOCK_RESPONSE,
    GET_TRANSACTION_REQUEST, GET_TRANSACTION_RESPONSE,
    BATCH_ADD_XSHARD_TX_LIST_REQUEST, BATCH_ADD_XSHARD_TX_LIST_RESPONSE,
    EXECUTE_TRANSACTION_REQUEST, EXECUTE_TRANSACTION_RESPONSE,
    GET_TRANSACTION_RECEIPT_REQUEST, GET_TRANSACTION_RECEIPT_RESPONSE]

  /**
   * `CLUSTER_OP_SERIALIZER_MAP.get(op)`: the dictionary literal as a lookup, one case per
   * entry, in the literal's own order.
   */
  function SerializerFor(op: int): Option<MessageType>
  {
    match op
    case 129 => Some(Ping)  // PING
    case 130 => Some(Pong)  // PONG
    case 131 => Some(ConnectToSlavesRequest)  // CONNECT_TO_SLAVES_REQUEST
    case 132 => Some(ConnectToSlavesResponse)  // CONNECT_TO_SLAVES_RESPONSE
    case 133 => Some(AddRootBlockRequest)  // ADD_ROOT_BLOCK_REQUEST
    case 134 => Some(AddRootBlockResponse)  // ADD_ROOT_BLOCK_RESPONSE
    case 135 => Some(GetEcoInfoListRequest)  // GET_ECO_INFO_LIST_REQUEST
    case 136 => Some(GetEcoInfoListResponse)  // GET_ECO_INFO_LIST_RESPONSE
    case 137 => Some(GetNextBlockToMineRequest)  // GET_NEXT_BLOCK_TO_MINE_REQUEST
    case 138 => Some(GetNextBlockToMineResponse)  // GET_NEXT_BLOCK_TO_MINE_RESPONSE
    case 151 => Some(AddMinorBlockRequest)  // ADD_MINOR_BLOCK_REQUEST
    case 152 => Some(AddMinorBlockResponse)  // ADD_MINOR_BLOCK_RESPONSE
    case 139 => Some(GetUnconfirmedHeadersRequest)  // GET_UNCONFIRMED_HEADERS_REQUEST
    case 140 => Some(GetUnconfirmedHeadersResponse)  // GET_UNCONFIRMED_HEADERS_RESPONSE
    case 145 => Some(AddMinorBlockHeaderRequest)  // ADD_MINOR_BLOCK_HEADER_REQUEST
    case 146 => Some(AddMinorBlockHeaderResponse)  // ADD_MINOR_BLOCK_HEADER_RESPONSE
    case 147 => Some(AddXshardTxListRequest)  // ADD_XSHARD_TX_LIST_REQUEST
    case 148 => Some(AddXshardTxListResponse)  // ADD_XSHARD_TX_LIST_RESPONSE
    case 141 => Some(GetAccountDataRequest)  // GET_ACCOUNT_DATA_REQUEST
    case 142 => Some(GetAccountDataResponse)  // GET_ACCOUNT_DATA_RESPONSE
    case 143 => Some(AddTransactionRequest)  // ADD_TRANSACTION_REQUEST
    case 144 => Some(AddTransactionResponse)  // ADD_TRANSACTION_RESPONSE
    case 149 => Some(SyncMinorBlockListRequest)  // SYNC_MINOR_BLOCK_LIST_REQUEST
    case 150 => Some(SyncMinorBlockListResponse)  // SYNC_MINOR_BLOCK_LIST_RESPONSE
    case 153 => Some(CreateClusterPeerConnectionRequest)  // CREATE_CLUSTER_PEER_CONNECTION_REQUEST
    case 154 => Some(CreateClusterPeerConnectionResponse)  // CREATE_CLUSTER_PEER_CONNECTION_RESPONSE
    case 155 => Some(DestroyClusterPeerConnectionCommand)  // DESTROY_CLUSTER_PEER_CONNECTION_COMMAND
    case 157 => Some(GetMinorBlockRequest)  // GET_MINOR_BLOCK_REQUEST
    case 158 => Some(GetMinorBlockResponse)  // GET_MINOR_BLOCK_RESPONSE
    case 159 => Some(GetTransactionRequest)  // GET_TRANSACTION_REQUEST
    case 160 => Some(GetTransactionResponse)  // GET_TRANSACTION_RESPONSE
    case 161 => Some(BatchAddXshardTxListRequest)  // BATCH_ADD_XSHARD_TX_LIST_REQUEST
    case 162 => Some(BatchAddXshardTxListResponse)  // BATCH_ADD_XSHARD_TX_LIST_RESPONSE
    case 163 => Some(ExecuteTransactionRequest)  // EXECUTE_TRANSACTION_REQUEST
    case 164 => Some(ExecuteTransactionResponse)  // EXECUTE_TRANSACTION_RESPONSE
    case 165 => Some(GetTransactionReceiptRequest)  // GET_TRANSACTION_RECEIPT_REQUEST
    case 166 => Some(GetTransactionReceiptResponse)  // GET_TRANSACTION_RECEIPT_RESPONSE
    case _ => None
  }

  /** The `ClusterOp` constant a message class is sent under; ResolveOpcode shows it is registered. */
  function Opcode(t: MessageType): (op: int)
  {
    match t
    case Ping => PING
    case Pong => PONG
    case ConnectToSlavesRequest => CONNECT_TO_SLAVES_REQUEST
    case ConnectToSlavesResponse => CONNECT_TO_SLAVES_RESPONSE
    case AddRootBlockRequest => ADD_ROOT_BLOCK_REQUEST
    case AddRootBlockResponse => ADD_ROOT_BLOCK_RESPONSE
    case GetEcoInfoListRequest => GET_ECO_INFO_LIST_REQUEST
    case GetEcoInfoListResponse => GET_ECO_INFO_LIST_RESPONSE
    case GetNextBlockToMineRequest => GET_NEXT_BLOCK_TO_MINE_REQUEST
    case GetNextBlockToMineResponse => GET_NEXT_BLOCK_TO_MINE_RESPONSE
    case GetUnconfirmedHeadersRequest => GET_UNCONFIRMED_HEADERS_REQUEST
    case GetUnconfirmedHeadersResponse => GET_UNCONFIRMED_HEADERS_RESPONSE
    case GetAccountDataRequest => GET_ACCOUNT_DATA_REQUEST
    case GetAccountDataResponse => GET_ACCOUNT_DATA_RESPONSE
    case AddTransactionRequest => ADD_TRANSACTION_REQUEST
    case AddTransactionResponse => ADD_TRANSACTION_RESPONSE
    case AddMinorBlockHeaderRequest => ADD_MINOR_BLOCK_HEADER_REQUEST
    case AddMinorBlockHeaderResponse => ADD_MINOR_BLOCK_HEADER_RESPONSE
    case AddXshardTxListRequest => ADD_XSHARD_TX_LIST_REQUEST
    case AddXshardTxListResponse => ADD_XSHARD_TX_LIST_RESPONSE
    case SyncMinorBlockListRequest => SYNC_MINOR_BLOCK_LIST_REQUEST
    case SyncMinorBlockListResponse => SYNC_MINOR_BLOCK_LIST_RESPONSE
    case AddMinorBlockRequest => ADD_MINOR_BLOCK_REQUEST
    case AddMinorBlockResponse => ADD_MINOR_BLOCK_RESPONSE
    case CreateClusterPeerConnectionRequest => CREATE_CLUSTER_PEER_CONNECTION_REQUEST
    case CreateClusterPeerConnectionResponse => CREATE_CLUSTER_PEER_CONNECTION_RESPONSE
    case DestroyClusterPeerConnectionCommand => DESTROY_CLUSTER_PEER_CONNECTION_COMMAND
    case GetMinorBlockRequest => GET_MINOR_BLOCK_REQUEST
    case GetMinorBlockResponse => GET_MINOR_BLOCK_RESPONSE
    case GetTransactionRequest => GET_TRANSACTION_REQUEST
    case GetTransactionResponse => GET_TRANSACTION_RESPONSE
    case BatchAddXshardTxListRequest => BATCH_ADD_XSHARD_TX_LIST_REQUEST
    case BatchAddXshardTxListResponse => BATCH_ADD_XSHARD_TX_LIST_RESPONSE
    case ExecuteTransactionRequest => EXECUTE_TRANSACTION_REQUEST
    case ExecuteTransactionResponse => EXECUTE_TRANSACTION_RESPONSE
    case GetTransactionReceiptRequest => GET_TRANSACTION_RECEIPT_REQUEST
    case GetTransactionReceiptResponse => GET_TRANSACTION_RECEIPT_RESPONSE
  }

  /** The message class registered under an opcode, UnknownOpcode when there is none. */
  function Resolve(op: int): Result<MessageType, Error>
  {
    match SerializerFor(op)
    case Some(t) => Ok(t)
    case None => Err(UnknownOpcode)
  }

  /** Every opcode is the base plus an index in 1..38 other than 28, so it lies in 129..166. */
  lemma OpcodeRange(t: MessageType)
    ensures 1 <= Opcode(t) - CLUSTER_OP_BASE <= 38
    ensures 129 <= Opcode(t) <= 166 && Opcode(t) != 28 + CLUSTER_OP_BASE
  {
  }

  /** Resolve and Opcode are inverse: no two classes share an opcode, no opcode two classes. */
  lemma ResolveOpcode(t: MessageType)
    ensures Resolve(Opcode(t)) == Ok(t)
  {
  }

  lemma OpcodeResolve(op: int)
    requires Resolve(op).Ok?
    ensures Opcode(Resolve(op).value) == op
  {
  }

  lemma OpcodeInjective(t: MessageType, u: MessageType)
    requires Opcode(t) == Opcode(u)
    ensures t == u
  {
    ResolveOpcode(t);
    ResolveOpcode(u);
  }

  /** The constants are declared in increasing order, so they are pairwise distinct. */
  lemma OpcodesIncreasing()
    ensures |ALL_OPCODES| == 37
    ensures forall i :: 0 <= i < |ALL_OPCODES| - 1 ==> ALL_OPCODES[i] < ALL_OPCODES[i + 1]
  {
  }

  lemma {:induction false} IncreasingIsDistinct(s: seq<int>, i: nat, j: nat)
    requires forall k :: 0 <= k < |s| - 1 ==> s[k] < s[k + 1]
    requires i < j < |s|
    ensures s[i] < s[j]
    decreases j - i
  {
    if i + 1 < j {
      IncreasingIsDistinct(s, i + 1, j);
    }
  }

  lemma {:induction false} DistinctCardinality(s: seq<int>)
    requires forall i, j :: 0 <= i < j < |s| ==> s[i] != s[j]
    ensures |set x | x in s| == |s|
  {
    if |s| > 0 {
      var init := s[..|s| - 1];
      DistinctCardinality(init);
      assert (set x | x in s) == (set x | x in init) + {s[|s| - 1]};
      assert s[|s| - 1] !in init;
    }
  }

  /** The dictionary's keys fill 129..166 except 156 (28 past the base). */
  lemma RegisteredOpcodes(op: int)
    ensures SerializerFor(op).Some? <==> 129 <= op <= 166 && op != 28 + CLUSTER_OP_BASE
  {
  }

  /**
   * The 37 constants are distinct, they are exactly the dictionary's keys, and every class's
   * opcode is one of them: the dictionary has 37 entries and none is lost to a duplicate key.
   */
  /** An opcode is one of the 37 constants exactly when the dictionary has a key for it. */
  lemma ConstantsAreKeys(op: int)
    ensures op in ALL_OPCODES <==> SerializerFor(op).Some?
  {
    RegisteredOpcodes(op);
  }

  /** The opcode a class is sent under is one of the 37 constants. */
  lemma OpcodeIsConstant(t: MessageType)
    ensures Opcode(t) in ALL_OPCODES
  {
    ResolveOpcode(t);
    ConstantsAreKeys(Opcode(t));
  }

  lemma RegisteredCount()
    ensures |set op | op in ALL_OPCODES| == 37
    ensures forall op :: op in ALL_OPCODES <==> SerializerFor(op).Some?
    ensures forall t :: Opcode(t) in ALL_OPCODES
  {
    forall op
      ensures op in ALL_OPCODES <==> SerializerFor(op).Some?
    {
      ConstantsAreKeys(op);
    }
    forall t
      ensures Opcode(t) in ALL_OPCODES
    {
      OpcodeIsConstant(t);
    }
    OpcodesIncreasing();
    forall i, j | 0 <= i < j < |ALL_OPCODES|
      ensures ALL_OPCODES[i] != ALL_OPCODES[j]
    {
      IncreasingIsDistinct(ALL_OPCODES, i, j);
    }
    DistinctCardinality(ALL_OPCODES);
  }

  /** 156 (28 past the base) is unassigned, as is anything outside 129..166. */
  lemma UnassignedOpcodes(op: int)
    requires op == 28 + CLUSTER_OP_BASE || op < 129 || op > 166
    ensures Resolve(op) == Err(UnknownOpcode)
  {
  }

  /** The response each request class (and Ping) is answered with. */
  function ResponseTo(t: MessageType): Option<MessageType>
  {
    match t
    case Ping => Some(Pong)
    case ConnectToSlavesRequest => Some(ConnectToSlavesResponse)
    case AddRootBlockRequest => Some(AddRootBlockResponse)
    case GetEcoInfoListRequest => Some(GetEcoInfoListResponse)
    case GetNextBlockToMineRequest => Some(GetNextBlockToMineResponse)
    case GetUnconfirmedHeadersRequest => Some(GetUnconfirmedHeadersResponse)
    case GetAccountDataRequest => Some(GetAccountDataResponse)
    case AddTransactionRequest => Some(AddTransactionResponse)
    case AddMinorBlockHeaderRequest => Some(AddMinorBlockHeaderResponse)
    case AddXshardTxListRequest => Some(AddXshardTxListResponse)
    case SyncMinorBlockListRequest => Some(SyncMinorBlockListResponse)
    case AddMinorBlockRequest => Some(AddMinorBlockResponse)
    case CreateClusterPeerConnectionRequest => Some(CreateClusterPeerConnectionResponse)
    case GetMinorBlockRequest => Some(GetMinorBlockResponse)
    case GetTransactionRequest => Some(GetTransactionResponse)
    case BatchAddXshardTxListRequest => Some(BatchAddXshardTxListResponse)
    case ExecuteTransactionRequest => Some(ExecuteTransactionResponse)
    case GetTransactionReceiptRequest => Some(GetTransactionReceiptResponse)
    case _ => None
  }

  /** A response sits one opcode above its request. */
  lemma ResponseAtNextOpcode(t: MessageType)
    requires ResponseTo(t).Some?
    ensures Opcode(ResponseTo(t).value) == Opcode(t) + 1
  {
    var u := ResponseTo(t).value;
    ResolveOpcode(t);
    ResolveOpcode(u);
  }

  /**
   * The classes with a response are exactly those at an odd index, except the one-way
   * DestroyClusterPeerConnectionCommand.
   */
  lemma RequestsAtOddIndex(t: MessageType)
    ensures ResponseTo(t).Some? <==>
      (Opcode(t) - CLUSTER_OP_BASE) % 2 == 1 && t != DestroyClusterPeerConnectionCommand
  {
  }

  /** The command has no response: nothing is registered one opcode above it. */
  lemma DestroyIsOneWay()
    ensures ResponseTo(DestroyClusterPeerConnectionCommand) == None
    ensures Resolve(Opcode(DestroyClusterPeerConnectionCommand) + 1) == Err(UnknownOpcode)
  {
  }
}
