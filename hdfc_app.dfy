/** A commercial bank's application (application-hdfc/app.go): the Transfer Engine
    (transferFrom), the payout to an end user (transferToUser), the balance read
    (getClientBalance) and the two-hop funding of an end user (fund). The bank's own account
    and its client for the issuer's service are parameters here. */
module HdfcApp {
  import opened Outcomes
  import opened Strconv
  import opened Ledger
  import opened Api

  const CommittedMessage: string := "Transaction Committed Successfully"
  const AccountCreatedMessage: string := "Account Created Successfully"
  /** What the Go runtime panics with when `fund` reads a field of the missing Mint reply. */
  const NilDereference: string := "runtime error: invalid memory address or nil pointer dereference"

  /** The six results of transferFrom. */
  datatype Transfer = Transfer(txId: string, from: string, to: string, amount: uint64, success: bool, message: string)

  /** The three results of transferToUser. */
  datatype UserTransfer = UserTransfer(account: string, success: bool, message: string)

  /** The two results of getClientBalance. */
  datatype ClientBalance = ClientBalance(balance: uint64, err: Option<NumError>)

  /** The five results of fund. */
  datatype Funding = Funding(txId: string, account: string, amount: uint64, success: bool, message: string)

  // ---------------------------------------------------------------------------------------------
  // getClientBalance

  function BalanceCall(account: string): Call
  {
    Evaluate("BalanceOf", [account])
  }

  /** getClientBalance, given the ledger's answer to BalanceOf: a failed read is fatal, a text
      that is not an int64 literal is reported as Atoi's error with balance 0, and otherwise the
      balance is the literal's value, converted to uint64 the way Go converts a signed int. */
  function ClientBalanceOutcome(reply: EvaluateReply): (r: Outcome<ClientBalance>)
    ensures r.Fatal? <==> reply.EvaluateErr?
    ensures r.Returned? ==>
              (r.value.err.None? <==>
                 IsDecimalLiteral(reply.result) && MinInt64 <= LiteralValue(reply.result) <= MaxInt64)
    ensures r.Returned? && r.value.err.Some? ==>
              r.value.balance == 0 && r.value.err.value.num == reply.result
              && Atoi(reply.result) == Failed(r.value.err.value)
    ensures r.Returned? && r.value.err.None? ==> r.value.balance == Uint64Of(LiteralValue(reply.result))
  {
    match reply
    case EvaluateErr(e) => Fatal("failed to evaluate transaction: " + e)
    case Evaluated(text) =>
      match Atoi(text)
      case Failed(e) => Returned(ClientBalance(0, Some(e)))
      case Parsed(v) => Returned(ClientBalance(Uint64Of(v), None))
  }

  /** A balance the ledger spells with FormatUint is read back unchanged. */
  lemma BalanceReadsBack(b: uint64)
    requires b <= MaxInt64
    ensures ClientBalanceOutcome(Evaluated(FormatUint(b))) == Returned(ClientBalance(b, None))
  {
    AtoiFormatUint(b);
  }

  method GetClientBalance(contract: Contract, account: string) returns (r: Outcome<ClientBalance>)
    modifies contract
    ensures contract.log == old(contract.log) + [BalanceCall(account)]
    ensures r == ClientBalanceOutcome(contract.evaluateOracle(contract.log))
  {
    var reply := contract.Evaluate("BalanceOf", [account]);
    match reply
    case EvaluateErr(e) =>
      r := Fatal("failed to evaluate transaction: " + e);
    case Evaluated(text) =>
      var bal := Atoi(text);
      if bal.Failed? {
        r := Returned(ClientBalance(0, Some(bal.err)));
        return;
      }
      r := Returned(ClientBalance(Uint64Of(bal.value), None));
  }

  // ---------------------------------------------------------------------------------------------
  // transferToUser

  function TransferToUserCall(account: string, amount: string): Call
  {
    Submit("Transfer", [account, amount])
  }

  /** transferToUser, given the ledger's reply to its Transfer submission: ledger errors are
      fatal, a rejected commit yields an empty account and the commit message, and only an
      observed successful commit reports the account as created. */
  function TransferToUserOutcome(account: string, reply: SubmitReply): (r: Outcome<UserTransfer>)
    ensures r.Fatal? <==> !reply.Committed?
    ensures r.Returned? ==> (r.value.success <==> reply.successful)
    ensures r.Returned? && r.value.success ==> r.value == UserTransfer(account, true, AccountCreatedMessage)
    ensures r.Returned? && !r.value.success ==>
              r.value == UserTransfer("", false, CommitFailedMessage(reply.txId, reply.code))
  {
    match reply
    case SubmitErr(e) => Fatal("failed to submit transaction: " + e + " \n " + e)
    case StatusErr(e) => Fatal("failed to get commit status: " + e)
    case Committed(txId, ok, code) =>
      if !ok then Returned(UserTransfer("", false, CommitFailedMessage(txId, code)))
      else Returned(UserTransfer(account, true, AccountCreatedMessage))
  }

  /** The amount is passed to the ledger as given: there is no validation, so exactly one call. */
  method TransferToUser(contract: Contract, account: string, amount: string) returns (r: Outcome<UserTransfer>)
    modifies contract
    ensures contract.log == old(contract.log) + [TransferToUserCall(account, amount)]
    ensures r == TransferToUserOutcome(account, contract.submitOracle(contract.log))
  {
    var reply := contract.Submit("Transfer", [account, amount]);
    match reply
    case SubmitErr(e) =>
      r := Fatal("failed to submit transaction: " + e + " \n " + e);
    case StatusErr(e) =>
      r := Fatal("failed to get commit status: " + e);
    case Committed(txId, ok, code) =>
      if !ok {
        r := Returned(UserTransfer("", false, CommitFailedMessage(txId, code)));
      } else {
        r := Returned(UserTransfer(account, true, AccountCreatedMessage));
      }
  }

  // ---------------------------------------------------------------------------------------------
  // transferFrom

  /** The amount check of transferFrom: Atoi must succeed and the value must be positive. */
  function ParseAmount(amount: string): (r: Option<uint64>)
    ensures r.Some? <==> IsDecimalLiteral(amount) && 0 < LiteralValue(amount) <= MaxInt64
    ensures r.Some? ==> r.value == LiteralValue(amount)
  {
    match Atoi(amount)
    case Failed(_) => None
    case Parsed(v) => if v <= 0 then None else Some(v)
  }

  /** An amount spelled by FormatUint passes the check exactly when it is positive and fits in
      an int64: 0 and everything above 2^63 - 1 are refused. */
  lemma FormattedAmount(n: uint64)
    ensures ParseAmount(FormatUint(n)) == if 0 < n <= MaxInt64 then Some(n) else None
  {
    AtoiFormatUint(n);
  }

  /** `Invalid Amount <amount>; generated error <err>`, where a well-formed but non-positive
      amount has a nil error. */
  function InvalidAmountMessage(amount: string): string
  {
    "Invalid Amount " + amount + "; generated error "
      + (match Atoi(amount) case Failed(e) => e.Text() case Parsed(_) => "<nil>")
  }

  function TransferFromCall(from: string, to: string, amount: string): Call
  {
    Submit("TransferFrom", [from, to, amount])
  }

  /** The ledger calls transferFrom makes: none for a refused amount, otherwise one TransferFrom
      carrying the amount string exactly as given. */
  function TransferFromCalls(from: string, to: string, amount: string): seq<Call>
  {
    if ParseAmount(amount).None? then [] else [TransferFromCall(from, to, amount)]
  }

  /** transferFrom, given the ledger's reply to the TransferFrom submission (the reply is not
      consulted when the amount is refused). A refused amount is reported with the sentinel id;
      ledger errors are fatal; otherwise the ledger's own transaction id is reported, and success
      is reported exactly when a successful commit was observed. */
  function TransferFromOutcome(from: string, to: string, amount: string, reply: SubmitReply): (r: Outcome<Transfer>)
    ensures ParseAmount(amount).None? ==>
              r == Returned(Transfer(SentinelTxId, from, to, 0, false, InvalidAmountMessage(amount)))
    ensures ParseAmount(amount).Some? ==> (r.Fatal? <==> !reply.Committed?)
    ensures r.Returned? ==> r.value.from == from && r.value.to == to
    ensures r.Returned? ==> (r.value.success <==> ParseAmount(amount).Some? && CommittedSuccessfully(reply))
    ensures r.Returned? && ParseAmount(amount).Some? ==>
              r.value.txId == reply.txId && r.value.amount == LiteralValue(amount)
              && r.value.message == (if reply.successful then CommittedMessage
                                     else CommitFailedMessage(reply.txId, reply.code))
  {
    match Atoi(amount)
    case Failed(_) => Returned(Transfer(SentinelTxId, from, to, 0, false, InvalidAmountMessage(amount)))
    case Parsed(value) =>
      if value <= 0 then Returned(Transfer(SentinelTxId, from, to, 0, false, InvalidAmountMessage(amount)))
      else match reply
        case SubmitErr(e) => Fatal("failed to submit transaction: " + e)
        case StatusErr(e) => Fatal("failed to get commit status: " + e)
        case Committed(txId, ok, code) =>
          if !ok then Returned(Transfer(txId, from, to, value, false, CommitFailedMessage(txId, code)))
          else Returned(Transfer(txId, from, to, value, true, CommittedMessage))
  }

  method TransferFrom(contract: Contract, from: string, to: string, amount: string) returns (r: Outcome<Transfer>)
    modifies contract
    ensures contract.log == old(contract.log) + TransferFromCalls(from, to, amount)
    ensures r == TransferFromOutcome(from, to, amount, contract.submitOracle(contract.log))
  {
    var parsed := Atoi(amount);
    if parsed.Failed? || parsed.value <= 0 {
      r := Returned(Transfer(SentinelTxId, from, to, 0, false, InvalidAmountMessage(amount)));
      return;
    }
    var value := parsed.value;
    var reply := contract.Submit("TransferFrom", [from, to, amount]);
    match reply
    case SubmitErr(e) =>
      r := Fatal("failed to submit transaction: " + e);
    case StatusErr(e) =>
      r := Fatal("failed to get commit status: " + e);
    case Committed(txId, ok, code) =>
      if !ok {
        r := Returned(Transfer(txId, from, to, value, false, CommitFailedMessage(txId, code)));
      } else {
        r := Returned(Transfer(txId, from, to, value, true, CommittedMessage));
      }
  }

  // ---------------------------------------------------------------------------------------------
  // fund

  /** The issuer's reply lets the second hop go ahead. */
  predicate IssuerFunded(reply: RpcReply)
  {
    reply.RpcOk? && reply.response.success
  }

  /** The local ledger calls of fund: the bank-to-user transfer, only after the issuer's hop. */
  function FundCalls(bankAccount: string, account: string, amount: uint64, issuerReply: RpcReply): seq<Call>
  {
    if IssuerFunded(issuerReply) then TransferFromCalls(bankAccount, account, FormatUint(amount)) else []
  }

  /** fund, given the issuer's reply to the Mint request and the local ledger's reply to the
      second hop's submission. An RPC error is fatal (the reply is nil and is read anyway); an
      unsuccessful issuer reply is passed on verbatim; otherwise the result is the second hop's
      own. The end user is credited only when the issuer reported success and the local
      transfer committed, and then the issuer's amount is what was moved. */
  function FundOutcome(bankAccount: string, account: string, amount: uint64, issuerReply: RpcReply,
                       reply: SubmitReply): (r: Outcome<Funding>)
    ensures issuerReply.RpcError? ==> r.Fatal?
    ensures issuerReply.RpcOk? && !issuerReply.response.success ==>
              var res := issuerReply.response;
              r == Returned(Funding(res.txId, res.account, res.amount, false, res.message))
    ensures IssuerFunded(issuerReply) ==>
              var t := TransferFromOutcome(bankAccount, account, FormatUint(amount), reply);
              (r.Fatal? <==> t.Fatal?)
              && (r.Returned? ==> r.value == Funding(t.value.txId, t.value.to, t.value.amount, t.value.success, t.value.message))
    ensures IssuerFunded(issuerReply) && (amount == 0 || amount > MaxInt64) ==>
              r == Returned(Funding(SentinelTxId, account, 0, false, InvalidAmountMessage(FormatUint(amount))))
    ensures r.Returned? && r.value.success ==>
              IssuerFunded(issuerReply) && CommittedSuccessfully(reply)
              && r.value.txId == reply.txId && r.value.account == account && r.value.amount == amount
  {
    FormattedAmount(amount);
    match issuerReply
    case RpcError(_) => Fatal(NilDereference)
    case RpcOk(res) =>
      if !res.success then Returned(Funding(res.txId, res.account, res.amount, false, res.message))
      else match TransferFromOutcome(bankAccount, account, FormatUint(amount), reply)
        case Fatal(why) => Fatal(why)
        case Returned(t) => Returned(Funding(t.txId, t.to, t.amount, t.success, t.message))
  }

  method Fund(contract: Contract, rbi: CbdcClient, bankAccount: string, account: string, amount: uint64)
    returns (r: Outcome<Funding>)
    modifies contract, rbi
    ensures rbi.sent == old(rbi.sent) + [MintRequest(bankAccount, amount)]
    ensures contract.log == old(contract.log) + FundCalls(bankAccount, account, amount, rbi.mintOracle(rbi.sent))
    ensures r == FundOutcome(bankAccount, account, amount, rbi.mintOracle(rbi.sent), contract.submitOracle(contract.log))
  {
    var reply := rbi.Mint(MintRequest(bankAccount, amount));
    match reply
    case RpcError(_) =>
      r := Fatal(NilDereference);
    case RpcOk(res) =>
      if !res.success {
        r := Returned(Funding(res.txId, res.account, res.amount, false, res.message));
        return;
      }
      var t := TransferFrom(contract, bankAccount, account, FormatUint(amount));
      match t
      case Fatal(why) =>
        r := Fatal(why);
      case Returned(x) =>
        r := Returned(Funding(x.txId, x.to, x.amount, x.success, x.message));
  }
}
