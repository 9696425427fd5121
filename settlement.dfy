/** The network-wide funding chain: a bank's fund (HdfcApp) calling the issuer's mintRequest
    (RbiApp) over gRPC. The two services own separate ledger connections, so the replies each of
    them gets are independent inputs here. */
module Settlement {
  import opened Outcomes
  import opened Strconv
  import opened Ledger
  import opened Api
  import opened HdfcApp
  import RbiApp

  /** The issuer's outcome as the bank's client receives it: a panic in the issuer's handler
      ends the issuer process, and the bank's call fails with a transport error. */
  function IssuerReply(issuer: Outcome<MintResponse>, transportErr: string): RpcReply
  {
    match issuer
    case Fatal(_) => RpcError(transportErr)
    case Returned(res) => RpcOk(res)
  }

  /** An end user is credited only after three commits (the mint, the relay to the bank and the
      bank-to-user transfer), and the result then carries the last one's id and the requested
      amount. When the issuer's hop fails without a panic, the bank makes no ledger call and
      reports the issuer's failure under the mint's id, or the sentinel if the mint never got one. */
  lemma FundingAttribution(bankAccount: string, account: string, amount: uint64, mintReply: SubmitReply,
                           relayReply: SubmitReply, localReply: SubmitReply, transportErr: string)
    ensures var issuer := IssuerReply(RbiApp.MintRequestOutcome(bankAccount, amount, mintReply, relayReply), transportErr);
            var f := FundOutcome(bankAccount, account, amount, issuer, localReply);
            (f.Returned? && f.value.success ==>
               RbiApp.Whitelisted(bankAccount) && CommittedSuccessfully(mintReply)
               && CommittedSuccessfully(relayReply) && CommittedSuccessfully(localReply)
               && f.value.txId == localReply.txId && f.value.amount == amount)
            && (!IssuerFunded(issuer) ==> FundCalls(bankAccount, account, amount, issuer) == [])
            && (issuer.RpcOk? && !IssuerFunded(issuer) ==>
                  f.Returned? && !f.value.success && f.value.account == bankAccount && f.value.amount == amount
                  && f.value.txId == (if RbiApp.Whitelisted(bankAccount) && mintReply.Committed? then mintReply.txId
                                      else SentinelTxId))
  {
  }
}
