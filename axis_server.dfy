/** The gRPC handlers of a commercial bank's service (application-axis/main.go). They run on the
    bank application's functions (modelled in HdfcApp) with the bank's own account set to
    axis.cbdc, and copy those functions' results into the response messages. */
module AxisServer {
  import opened Outcomes
  import opened Strconv
  import opened Ledger
  import opened Api
  import opened HdfcApp

  const BankAccount: string := "axis.cbdc"
  /** The amount moved by each of the two transfers that provision an account. */
  const SeedAmount: string := "100"

  lemma SeedAmountAccepted()
    ensures ParseAmount(SeedAmount) == Some(100)
  {
    FormattedAmount(100);
    assert FormatUint(100) == SeedAmount;
  }

  /** GetBalance: an error exactly when getClientBalance reports one, else its balance. */
  method GetBalance(contract: Contract, account: string) returns (r: Outcome<Result<GetBalanceResponse, NumError>>)
    modifies contract
    ensures contract.log == old(contract.log) + [BalanceCall(account)]
    ensures var b := ClientBalanceOutcome(contract.evaluateOracle(contract.log));
            (b.Fatal? ==> r == Fatal(b.reason))
            && (b.Returned? ==> r.Returned? && (r.value.Err? <==> b.value.err.Some?))
            && (b.Returned? && b.value.err.Some? ==> r.value == Err(b.value.err.value))
            && (b.Returned? && b.value.err.None? ==> r.value == Ok(GetBalanceResponse(b.value.balance)))
  {
    var b := GetClientBalance(contract, account);
    match b
    case Fatal(why) =>
      r := Fatal(why);
    case Returned(ClientBalance(balance, err)) =>
      if err.Some? {
        return Returned(Err(err.value));
      }
      r := Returned(Ok(GetBalanceResponse(balance)));
  }

  /** CreateAccount: a seed transfer from the bank to the account, then one back. Both are
      submitted (the seed's result is discarded), and the response is the second transfer's:
      its sender (the new account), its success and its message. */
  method CreateAccount(contract: Contract, account: string) returns (r: Outcome<CreateAccountResponse>)
    modifies contract
    ensures var h1 := old(contract.log) + [TransferFromCall(BankAccount, account, SeedAmount)];
            var first := TransferFromOutcome(BankAccount, account, SeedAmount, contract.submitOracle(h1));
            (first.Fatal? ==> contract.log == h1 && r == Fatal(first.reason))
            && (first.Returned? ==>
                  var h2 := h1 + [TransferFromCall(account, BankAccount, SeedAmount)];
                  var second := TransferFromOutcome(account, BankAccount, SeedAmount, contract.submitOracle(h2));
                  contract.log == h2
                  && (second.Fatal? ==> r == Fatal(second.reason))
                  && (second.Returned? ==>
                        r == Returned(CreateAccountResponse(account, second.value.success, second.value.message))
                        && (r.value.success <==> CommittedSuccessfully(contract.submitOracle(h2)))))
  {
    SeedAmountAccepted();
    var seed := TransferFrom(contract, BankAccount, account, SeedAmount);
    if seed.Fatal? {
      return Fatal(seed.reason);
    }
    var second := TransferFrom(contract, account, BankAccount, SeedAmount);
    match second
    case Fatal(why) =>
      r := Fatal(why);
    case Returned(t) =>
      r := Returned(CreateAccountResponse(t.from, t.success, t.message));
  }

  /** Tx: transferFrom with the amount written in decimal, all six results copied. An amount of 0
      or above 2^63 - 1 is refused before the ledger is contacted; an accepted one is moved unchanged. */
  method Tx(contract: Contract, req: TxRequest) returns (r: Outcome<TxResponse>)
    modifies contract
    ensures contract.log == old(contract.log) + TransferFromCalls(req.from, req.to, FormatUint(req.amount))
    ensures var t := TransferFromOutcome(req.from, req.to, FormatUint(req.amount), contract.submitOracle(contract.log));
            (t.Fatal? ==> r == Fatal(t.reason))
            && (t.Returned? ==>
                  r == Returned(TxResponse(t.value.txId, t.value.from, t.value.to, t.value.amount, t.value.success, t.value.message)))
    ensures req.amount == 0 || req.amount > MaxInt64 ==>
              contract.log == old(contract.log) && r.Returned? && !r.value.success
              && r.value.txId == SentinelTxId && r.value.amount == 0
    ensures r.Returned? && r.value.success ==> r.value.amount == req.amount
  {
    FormattedAmount(req.amount);
    var t := TransferFrom(contract, req.from, req.to, FormatUint(req.amount));
    match t
    case Fatal(why) =>
      r := Fatal(why);
    case Returned(x) =>
      r := Returned(TxResponse(x.txId, x.from, x.to, x.amount, x.success, x.message));
  }

  /** Fund: fund on behalf of the bank's own account, all five results copied. */
  method Fund(contract: Contract, rbi: CbdcClient, req: FundRequest) returns (r: Outcome<FundResponse>)
    modifies contract, rbi
    ensures rbi.sent == old(rbi.sent) + [MintRequest(BankAccount, req.amount)]
    ensures contract.log == old(contract.log) + FundCalls(BankAccount, req.account, req.amount, rbi.mintOracle(rbi.sent))
    ensures var f := FundOutcome(BankAccount, req.account, req.amount, rbi.mintOracle(rbi.sent),
                                 contract.submitOracle(contract.log));
            (f.Fatal? ==> r == Fatal(f.reason))
            && (f.Returned? ==>
                  r == Returned(FundResponse(f.value.txId, f.value.account, f.value.amount, f.value.success, f.value.message)))
  {
    var f := HdfcApp.Fund(contract, rbi, BankAccount, req.account, req.amount);
    match f
    case Fatal(why) =>
      r := Fatal(why);
    case Returned(x) =>
      r := Returned(FundResponse(x.txId, x.account, x.amount, x.success, x.message));
  }
}
