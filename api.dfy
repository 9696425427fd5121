/** The messages of the CBDC gRPC service shared by the issuer and the banks, and the client stub
    a bank uses to reach the issuer's Mint operation. */
module Api {
  import opened Strconv

  /** The transaction id a service reports when a request never reached the ledger. */
  const SentinelTxId: string := "xxxxx"

  datatype GetBalanceResponse = GetBalanceResponse(balance: uint64)
  datatype CreateAccountResponse = CreateAccountResponse(account: string, success: bool, message: string)
  datatype TxRequest = TxRequest(from: string, to: string, amount: uint64)
  datatype TxResponse = TxResponse(txId: string, from: string, to: string, amount: uint64, success: bool, message: string)
  datatype FundRequest = FundRequest(account: string, amount: uint64)
  datatype FundResponse = FundResponse(txId: string, account: string, amount: uint64, success: bool, message: string)
  datatype MintRequest = MintRequest(account: string, amount: uint64)
  datatype MintResponse = MintResponse(txId: string, account: string, amount: uint64, success: bool, message: string)

  /** What a unary gRPC call returns: a transport or server error, or the response. */
  datatype RpcReply = RpcError(err: string) | RpcOk(response: MintResponse)

  /** The issuer as a bank sees it (RBIClient). The issuer runs in another process, so the stub
      records every Mint request it is sent and answers from an oracle over the requests so far. */
  class CbdcClient {
    var sent: seq<MintRequest>
    const mintOracle: seq<MintRequest> -> RpcReply

    constructor (mintOracle: seq<MintRequest> -> RpcReply)
      ensures sent == [] && this.mintOracle == mintOracle
    {
      sent := [];
      this.mintOracle := mintOracle;
    }

    method Mint(req: MintRequest) returns (reply: RpcReply)
      modifies this
      ensures sent == old(sent) + [req]
      ensures reply == mintOracle(sent)
    {
      sent := sent + [req];
      reply := mintOracle(sent);
    }
  }
}
