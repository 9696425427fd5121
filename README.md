# CBDC settlement orchestration, modelled in Dafny

This project models the orchestration layer of a two-tier central-bank digital currency network.
An issuer service (RBI) mints currency on a shared Hyperledger Fabric ledger and relays it to
whitelisted commercial banks (HDFC, Axis). Each bank service moves funds between accounts and
funds end users in two hops: it asks the issuer to mint and relay to the bank, then transfers
to the user.

The ledger itself is an oracle. `Ledger.Contract` is a stub contract handle. It records every
submit and evaluate call (chaincode function name and arguments) in `log`. It answers each call
from a function, fixed at construction, of the log that ends with that call. A submission's
answer is `SubmitErr` (SubmitAsync failed), `StatusErr` (commit.Status() failed) or
`Committed(txId, successful, code)`. `Api.CbdcClient` is the bank's client for the issuer's Mint
RPC, built the same way: a log of requests and an oracle answering `RpcError` or `RpcOk(response)`.
A Go `panic` is the `Fatal(reason)` outcome (`Outcomes.Outcome`); no call happens after it.

Each orchestration step is a method on these stubs. Each method's `ensures` ties the calls it
appends and the result it returns to two pure functions: `...Calls` (the ledger calls, in order)
and `...Outcome` (the result, given the replies the ledger gave). The properties the code
promises are stated and proved about those functions.

- `Strconv` models Go's `strconv.Atoi`, `FormatUint`, `%d` and `Quote` (used in Atoi's error
  text), plus the uint64 conversion. Atoi is modelled as Go's digit scan with overflow detection.
  It is proved equal to a reference grammar: an optional sign, then digits, with a value in the
  int64 range.
- `HdfcApp`: transferFrom, transferToUser, getClientBalance and fund from application-hdfc/app.go.
- `RbiApp`: the whitelist, mintRequest and the relay functions from application-rbi/app.go.
  The Mint RPC handler in application-rbi/main.go:90-99 only copies mintRequest's five results,
  so `RbiApp.MintRequest` returns the `MintResponse` directly.
- `AxisServer`: the GetBalance, CreateAccount, Tx and Fund handlers of application-axis/main.go.
  application-axis/app.go is not part of this model. The handlers run on the `HdfcApp` functions
  with the bank account set to `axis.cbdc`.
- `Settlement` composes a bank's fund with the issuer's mintRequest.

Failure handling that a reader might expect to be different, modelled as the code has it:
- A refused amount in transferFrom is reported with transaction id `"xxxxx"`, not `""`.
- When the issuer RPC returns an error, fund reads the nil reply, so the call panics (`Fatal`).
  It does not pass the issuer's values on.
- CreateAccount's second transfer goes from the new account back to the bank, not from the bank
  again. The response's account is that second transfer's sender.
- A failed Mint submission is an ordinary failure result with the sentinel id. A failed Mint
  commit-status read is fatal. A failure anywhere in the relay is only `false`.

## Model

| member | source | states |
|---|---|---|
| `Strconv.Atoi` | application-hdfc/app.go:107 | Atoi succeeds exactly on an optional sign followed by one or more digits whose value fits in int64, and returns that value. Every error names the whole input. A well-formed literal is only refused as out of range. |
| `Strconv.FormatUint` | application-rbi/app.go:160 | The decimal spelling of n: non-empty, all digits, no leading zero, and its digit value is n. |
| `Strconv.FormatInt` | application-rbi/app.go:172 | `%d` of a status code is the canonical decimal spelling of the code: its value is the code, there is no `+` sign and no leading zero. |
| `Strconv.NumError.Text` | application-hdfc/app.go:107-109 | The text of Atoi's error, as printed in the Invalid Amount message: for plain printable input it is `strconv.Atoi: parsing "<input>": ` followed by `invalid syntax` or `value out of range`, as the error's kind says. |
| `Strconv.Quote` | application-hdfc/app.go:109 | The quoted input inside Atoi's error text: it starts and ends with a double quote and is at least two characters longer than the input. Printable ASCII other than `"` and `\` is copied unchanged between the quotes. |
| `Strconv.AtoiFormatUint` | application-axis/main.go:140 | Atoi reads back what FormatUint writes. It refuses it as out of range exactly when n > 2^63-1. |
| `Strconv.Uint64Of` | application-hdfc/app.go:82 | Go's uint64 conversion keeps non-negative values and wraps negative ones by 2^64. |
| `Ledger.Contract.Submit` | application-hdfc/app.go:111-118 | A submission (SubmitAsync, then commit.Status) is appended to the log. The reply is the oracle's answer for the new log. |
| `Ledger.Contract.Evaluate` | application-hdfc/app.go:71 | An evaluation is appended to the log. The reply is the oracle's answer for the new log. |
| `Api.CbdcClient.Mint` | application-hdfc/app.go:131-134 | The Mint request is appended to the sent requests. The reply is the issuer oracle's answer. |
| `RbiApp.CommercialBankAccounts` | application-rbi/app.go:27-29 | The mint whitelist is exactly the two commercial bank accounts, hdfc.cbdc and axis.cbdc. |
| `RbiApp.TransferHdfcAmount` | application-rbi/app.go:258-278 | Exactly one call, `Transfer("hdfc.cbdc", amount)`. Returns true iff its commit succeeded. Submit and status errors give false and never panic. |
| `RbiApp.TransferAxisAmount` | application-rbi/app.go:216-236 | Exactly one call, `Transfer("axis.cbdc", amount)`. Returns true iff its commit succeeded. Submit and status errors give false and never panic. |
| `RbiApp.TransferToAppropriateBank` | application-rbi/app.go:183-194 | For a known bank: exactly one call, `Transfer(account, amount)`, true iff it committed. For any other account: no call and false. |
| `RbiApp.MintRequestOutcome` | application-rbi/app.go:158-181 | Off the whitelist: ("xxxxx", account, amount, false, "Not Authorized to Mint!"). Mint submit error: sentinel id and "Failed to Submit due to error: " + err. Fatal iff the mint's commit status cannot be read. Any commit: the mint's id; a failed commit gives the "failed to commit with status" message. Success ("Success!") iff both mint and relay committed; after a committed mint, a failed relay gives "Failed to transfer". Account and amount are always echoed. |
| `RbiApp.MintRequest` | application-rbi/app.go:158-181 | Calls made: none off the whitelist. Otherwise `Mint(FormatUint(amount))` first, then the relay `Transfer(account, amount)` only if the mint committed. The result is MintRequestOutcome of the two replies. |
| `HdfcApp.ParseAmount` | application-hdfc/app.go:107-110 | An amount is accepted exactly when it is a decimal literal with 0 < value <= 2^63-1. The accepted value is the literal's value. |
| `HdfcApp.FormattedAmount` | application-hdfc/app.go:107-108 | An amount written by FormatUint is accepted iff 0 < n <= 2^63-1, and then reads back as n. |
| `HdfcApp.TransferFromOutcome` | application-hdfc/app.go:105-128 | A refused amount gives ("xxxxx", from, to, 0, false, "Invalid Amount …"). Otherwise ledger errors are fatal and a commit gives the ledger's id, from, to and the parsed amount. Success ("Transaction Committed Successfully") iff the commit succeeded; otherwise the "failed to commit with status" message. |
| `HdfcApp.TransferFrom` | application-hdfc/app.go:105-128 | No ledger call for a refused amount. Otherwise exactly one call, `TransferFrom(from, to, amount)`, with the amount string unchanged. The result is TransferFromOutcome of its reply. |
| `HdfcApp.TransferToUserOutcome` | application-hdfc/app.go:86-103 | Ledger errors are fatal. A failed commit gives ("", false, commit message). A successful commit gives (account, true, "Account Created Successfully"). |
| `HdfcApp.TransferToUser` | application-hdfc/app.go:86-103 | Exactly one call, `Transfer(account, amount)`, with no amount check. The result is TransferToUserOutcome of its reply. |
| `HdfcApp.ClientBalanceOutcome` | application-hdfc/app.go:69-83 | An evaluate error is fatal. A text that is not an int64 literal gives balance 0 and exactly the error Atoi returns for it, kind included. Otherwise the balance is the literal's value converted to uint64. |
| `HdfcApp.BalanceReadsBack` | application-hdfc/app.go:78-82 | A balance b <= 2^63-1 that the ledger returns in decimal is read back as b, with no error. |
| `HdfcApp.GetClientBalance` | application-hdfc/app.go:69-83 | Exactly one call, `BalanceOf(account)`, an evaluate. The result is ClientBalanceOutcome of its reply. |
| `HdfcApp.FundOutcome` | application-hdfc/app.go:130-141 | An RPC error is fatal. An unsuccessful issuer reply is returned verbatim with success false. Otherwise the result is the local transferFrom(bank, account, FormatUint(amount)) result's txId, to, amount, success and message. Amount 0 or above 2^63-1 is refused there. Success implies that the issuer succeeded and the local commit succeeded; then the txId is the local transfer's and the amount is the requested one. |
| `HdfcApp.Fund` | application-hdfc/app.go:130-141 | Exactly one Mint(bank, amount) request to the issuer. Local ledger calls happen only after a successful issuer reply. The result is FundOutcome of the two replies. |
| `AxisServer.SeedAmountAccepted` | application-axis/main.go:129-130 | The provisioning amount "100" passes the amount check, with value 100. |
| `AxisServer.GetBalance` | application-axis/main.go:120-126 | An error iff getClientBalance reports one (that error). Otherwise the response's balance is getClientBalance's. |
| `AxisServer.CreateAccount` | application-axis/main.go:128-137 | Two calls in order, TransferFrom(axis.cbdc → account, "100") then TransferFrom(account → axis.cbdc, "100"); the second is made only if the first does not panic. The response's account, success and message come from the second transfer only; success iff its commit succeeded. |
| `AxisServer.Tx` | application-axis/main.go:139-149 | transferFrom(from, to, FormatUint(amount)), with all six results copied. Amount 0 or above 2^63-1: no ledger call, "xxxxx", failure. A success moves the requested amount. |
| `AxisServer.Fund` | application-axis/main.go:151-160 | fund on behalf of axis.cbdc, with all five results copied and no error. |
| `Settlement.FundingAttribution` | application-hdfc/app.go:130-141 | End-user funding succeeds only after the mint, the relay and the local transfer all commit, and it carries the local transfer's id. If the issuer hop fails without a panic, the bank makes no ledger call and reports the mint's id, or the sentinel if the mint never got one. |

## Left out

- Chaincode semantics: balances and why a commit fails. The ledger's answers are an oracle that may depend on all previous calls. So "two balance reads with no transfer in between agree" is a property of the ledger, not of this code, and is not stated.
- I/O and process setup: printing, logging, TLS and identity files, gateway connection and timeouts, environment variables, listeners, and the `main` functions.
- The HTTP/JSON reverse proxy (protobuf/api/cbdc.pb.gw.go) and the gRPC transport. The `ctx` argument is not modelled. The text of a transport error is an input.
- Demo and bootstrap code of the issuer application: initLedgerIfNotAlready, initLedger, mint, transferAxis, transferHDFC, getName, getSymbol, getCurrentClientId, getCurrentClientBalance, the asset examples, exampleErrorHandling and formatJSON. These are fixed-argument samples that panic.
- Concurrency between RPC handlers that share one contract handle. The model runs one call at a time.
- A panic is `Fatal(reason)`. Process termination itself, and the text of the error wrapped by `%w`, are reduced to that reason string.
- Strconv.Quote: characters from U+0080 up are copied unchanged; Go escapes the non-printable ones as `\u`/`\U`. Strings are sequences of Unicode scalar values, so invalid UTF-8 bytes cannot occur.
- application-axis/app.go is not part of this model. The Axis handlers use the application-hdfc/app.go functions.
- The Mint RPC handler of application-rbi/main.go is folded into RbiApp.MintRequest.
