/** The issuer's application (application-rbi/app.go): the Mint-and-Relay Orchestrator. A mint
    request from a whitelisted commercial bank mints the amount into the issuer's own balance and
    then relays it to that bank; each step's failure is reported with the id of the step that
    produced it. */
module RbiApp {
  import opened Outcomes
  import opened Strconv
  import opened Ledger
  import Api

  const HdfcBankAccount: string := "hdfc.cbdc"
  const AxisBankAccount: string := "axis.cbdc"

  const NotAuthorizedMessage: string := "Not Authorized to Mint!"
  const SubmitFailedPrefix: string := "Failed to Submit due to error: "
  const RelayFailedMessage: string := "Failed to transfer"
  const MintedMessage: string := "Success!"

  /** The bank whitelist: the accounts allowed to request minting. */
  function CommercialBankAccounts(): (r: seq<string>)
    ensures |r| == 2 && HdfcBankAccount in r && AxisBankAccount in r
    ensures forall a | a in r :: a == HdfcBankAccount || a == AxisBankAccount
  {
    [HdfcBankAccount, AxisBankAccount]
  }

  predicate Whitelisted(account: string)
  {
    account in CommercialBankAccounts()
  }

  /** The mint submission: the amount in decimal, minted into the issuer's own balance. */
  function MintCall(amount: uint64): Call
  {
    Submit("Mint", [FormatUint(amount)])
  }

  function RelayCall(bank: string, amount: string): Call
  {
    Submit("Transfer", [bank, amount])
  }

  // ---------------------------------------------------------------------------------------------
  // Relay to the requesting bank

  /** transferHDFCAmount: one Transfer to the HDFC account; any failure is just `false`. */
  method TransferHdfcAmount(contract: Contract, amount: string) returns (ok: bool)
    modifies contract
    ensures contract.log == old(contract.log) + [RelayCall(HdfcBankAccount, amount)]
    ensures ok == CommittedSuccessfully(contract.submitOracle(contract.log))
  {
    var reply := contract.Submit("Transfer", [HdfcBankAccount, amount]);
    match reply
    case SubmitErr(_) =>
      return false;
    case StatusErr(_) =>
      return false;
    case Committed(_, successful, _) =>
      if !successful {
        return false;
      }
      return true;
  }

  /** transferAxisAmount: one Transfer to the Axis account; any failure is just `false`. */
  method TransferAxisAmount(contract: Contract, amount: string) returns (ok: bool)
    modifies contract
    ensures contract.log == old(contract.log) + [RelayCall(AxisBankAccount, amount)]
    ensures ok == CommittedSuccessfully(contract.submitOracle(contract.log))
  {
    var reply := contract.Submit("Transfer", [AxisBankAccount, amount]);
    match reply
    case SubmitErr(_) =>
      return false;
    case StatusErr(_) =>
      return false;
    case Committed(_, successful, _) =>
      if !successful {
        return false;
      }
      return true;
  }

  /** The relay calls for `account`: one Transfer to it when it names a known bank, none otherwise. */
  function RelayCalls(account: string, amount: string): seq<Call>
  {
    if account == HdfcBankAccount || account == AxisBankAccount then [RelayCall(account, amount)] else []
  }

  /** Whether the relay reached `account`: it names a known bank and its Transfer committed. */
  predicate Relayed(account: string, reply: SubmitReply)
  {
    (account == HdfcBankAccount || account == AxisBankAccount) && CommittedSuccessfully(reply)
  }

  /** transferToAppropriateBank: dispatch on the account; an account matching no bank yields
      false without any ledger call. It never panics. */
  method TransferToAppropriateBank(contract: Contract, account: string, amount: string) returns (ok: bool)
    modifies contract
    ensures contract.log == old(contract.log) + RelayCalls(account, amount)
    ensures ok == Relayed(account, contract.submitOracle(contract.log))
  {
    ok := false;
    if account == HdfcBankAccount {
      ok := TransferHdfcAmount(contract, amount);
    } else if account == AxisBankAccount {
      ok := TransferAxisAmount(contract, amount);
    }
  }

  // ---------------------------------------------------------------------------------------------
  // mintRequest

  /** The ledger calls of mintRequest, given the reply to the Mint submission: none for an
      account off the whitelist, else the Mint, followed by the relay only if the Mint committed. */
  function MintRequestCalls(account: string, amount: uint64, mintReply: SubmitReply): seq<Call>
  {
    if !Whitelisted(account) then []
    else [MintCall(amount)]
         + (if CommittedSuccessfully(mintReply) then RelayCalls(account, FormatUint(amount)) else [])
  }

  /** mintRequest, given the replies to the Mint and to the relay (each consulted only if that
      call is made). Success needs both the mint and the relay to commit; every response echoes
      the account and amount; each failure carries the id of the step that failed, or the
      sentinel when the ledger never assigned one; only an unobservable mint commit is fatal. */
  function MintRequestOutcome(account: string, amount: uint64, mintReply: SubmitReply, relayReply: SubmitReply)
    : (r: Outcome<Api.MintResponse>)
    ensures !Whitelisted(account) ==>
              r == Returned(Api.MintResponse(Api.SentinelTxId, account, amount, false, NotAuthorizedMessage))
    ensures r.Fatal? <==> Whitelisted(account) && mintReply.StatusErr?
    ensures r.Returned? ==> r.value.account == account && r.value.amount == amount
    ensures r.Returned? ==>
              (r.value.success <==>
                 Whitelisted(account) && CommittedSuccessfully(mintReply) && CommittedSuccessfully(relayReply))
    ensures Whitelisted(account) && mintReply.SubmitErr? ==>
              r == Returned(Api.MintResponse(Api.SentinelTxId, account, amount, false, SubmitFailedPrefix + mintReply.err))
    ensures Whitelisted(account) && mintReply.Committed? ==> r.Returned? && r.value.txId == mintReply.txId
    ensures Whitelisted(account) && mintReply.Committed? && !mintReply.successful ==>
              r.value.message == CommitFailedMessage(mintReply.txId, mintReply.code)
    ensures Whitelisted(account) && CommittedSuccessfully(mintReply) ==>
              r.value.message == if CommittedSuccessfully(relayReply) then MintedMessage else RelayFailedMessage
  {
    if !Whitelisted(account) then
      Returned(Api.MintResponse(Api.SentinelTxId, account, amount, false, NotAuthorizedMessage))
    else match mintReply
      case SubmitErr(e) =>
        Returned(Api.MintResponse(Api.SentinelTxId, account, amount, false, SubmitFailedPrefix + e))
      case StatusErr(e) =>
        Fatal("failed to get commit status: " + e)
      case Committed(txId, successful, code) =>
        if !successful then
          Returned(Api.MintResponse(txId, account, amount, false, CommitFailedMessage(txId, code)))
        else if !Relayed(account, relayReply) then
          Returned(Api.MintResponse(txId, account, amount, false, RelayFailedMessage))
        else
          Returned(Api.MintResponse(txId, account, amount, true, MintedMessage))
  }

  /** mintRequest; its five results are what the Mint RPC handler copies into its MintResponse. */
  method MintRequest(contract: Contract, account: string, amount: uint64) returns (r: Outcome<Api.MintResponse>)
    modifies contract
    ensures var mintReply := contract.submitOracle(old(contract.log) + [MintCall(amount)]);
            contract.log == old(contract.log) + MintRequestCalls(account, amount, mintReply)
            && r == MintRequestOutcome(account, amount, mintReply, contract.submitOracle(contract.log))
  {
    if account !in CommercialBankAccounts() {
      return Returned(Api.MintResponse(Api.SentinelTxId, account, amount, false, NotAuthorizedMessage));
    }
    var value := FormatUint(amount);
    var reply := contract.Submit("Mint", [value]);
    match reply
    case SubmitErr(e) =>
      r := Returned(Api.MintResponse(Api.SentinelTxId, account, amount, false, SubmitFailedPrefix + e));
    case StatusErr(e) =>
      r := Fatal("failed to get commit status: " + e);
    case Committed(txId, successful, code) =>
      if !successful {
        return Returned(Api.MintResponse(txId, account, amount, false, CommitFailedMessage(txId, code)));
      }
      var success := TransferToAppropriateBank(contract, account, value);
      if !success {
        return Returned(Api.MintResponse(txId, account, amount, false, RelayFailedMessage));
      }
      r := Returned(Api.MintResponse(txId, account, amount, true, MintedMessage));
  }
}
