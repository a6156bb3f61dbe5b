/** Values that cross the peer/chaincode stream, and the small option and result
    types shared by every other module. */
module Wire {
  type Byte = b: int | 0 <= b < 256
  type Bytes = seq<Byte>

  datatype Option<+T> = None | Some(value: T)

  /** What a stub call reports when it does not succeed. */
  datatype Failure =
    | PeerError(payload: Bytes)
    | AlreadyInFlight
    | ConnectionClosed
    | DecodeError
    | InvalidArgument

  datatype Result<+T> = Ok(value: T) | Err(error: Failure)

  /** Correlation key of one transaction. */
  datatype TxKey = TxKey(channel: string, txid: string)

  datatype MsgType =
    | Undefined | Register | Registered | Init | Ready | Transaction | Completed | Error
    | GetState | PutState | DelState | InvokeChaincode | Response | GetStateByRange
    | GetQueryResult | QueryStateNext | QueryStateClose | Keepalive | GetHistoryForKey
    | GetStateMetadata | PutStateMetadata | GetPrivateDataHash | PurgePrivateData
    | WriteBatchState | GetStateMultiple

  /** A ledger request as the stub builds it. */
  datatype Request = Request(ty: MsgType, payload: Bytes)

  /** The peer's answer: RESPONSE when `ok`, ERROR otherwise. */
  datatype Reply = Reply(ok: bool, payload: Bytes)

  datatype TxResponse = TxResponse(status: int, message: string, payload: Bytes)

  datatype ChaincodeEvent = ChaincodeEvent(txid: string, name: string, payload: Bytes)

  /** What the peer's INIT or TRANSACTION message lets the shim find out: the arguments, if
      the input decodes, and whether the proposal chain decodes. `work` bounds the stub calls
      the handler will make. */
  datatype TxInput = TxInput(args: Option<seq<Bytes>>, proposalOk: bool, work: nat)

  /** Any message travelling from the peer to the shim. `input` matters for INIT and
      TRANSACTION only. `call` names the request a reply answers; it is bookkeeping for
      the statements below and nothing the shim decides depends on it. */
  datatype InMsg = InMsg(ty: MsgType, key: TxKey, input: TxInput, call: nat, payload: Bytes)

  /** How a transaction ends on the wire: ERROR or COMPLETED. */
  datatype Terminal =
    | Failed
    | Completion(response: TxResponse, event: Option<ChaincodeEvent>)

  /** Any message travelling from the shim to the peer. */
  datatype OutMsg =
    | OutRegister
    | OutEcho(key: TxKey)
    | OutReject(key: TxKey)
    | OutRequest(key: TxKey, call: nat, req: Request)
    | OutTerminal(key: TxKey, terminal: Terminal)
}
