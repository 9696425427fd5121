/** The ledger as the orchestration sees it: a Fabric contract handle reached through submit
    (SubmitAsync followed by commit.Status) and evaluate. The chaincode behind it is not part of
    this model, so the handle is a stub that records every call it receives and answers from an
    oracle chosen when the stub is built; an answer may depend on every call made so far. */
module Ledger {
  import opened Strconv

  /** One request sent to the ledger: the chaincode function name and its string arguments. */
  datatype Call = Submit(name: string, args: seq<string>) | Evaluate(name: string, args: seq<string>)

  /** What a submission comes back with. */
  datatype SubmitReply =
    | SubmitErr(err: string)     // SubmitAsync itself failed (endorsement, ordering, connectivity)
    | StatusErr(err: string)     // the transaction was sent, but commit.Status() failed (e.g. timed out)
    | Committed(txId: string, successful: bool, code: int32)  // the commit status was observed

  /** What a read-only evaluation comes back with. */
  datatype EvaluateReply = EvaluateErr(err: string) | Evaluated(result: string)

  /** The reply reports a durable, valid commit. */
  predicate CommittedSuccessfully(reply: SubmitReply)
  {
    reply.Committed? && reply.successful
  }

  /** `transaction <id> failed to commit with status: <code>`, the text every service uses for a
      transaction the ledger recorded as invalid. */
  function CommitFailedMessage(txId: string, code: int32): string
  {
    "transaction " + txId + " failed to commit with status: " + FormatInt(code)
  }

  class Contract {
    /** Every call received so far, oldest first. */
    var log: seq<Call>
    /** The answer to a submission, given the log that ends with that submission. */
    const submitOracle: seq<Call> -> SubmitReply
    /** The answer to an evaluation, given the log that ends with that evaluation. */
    const evaluateOracle: seq<Call> -> EvaluateReply

    constructor (submitOracle: seq<Call> -> SubmitReply, evaluateOracle: seq<Call> -> EvaluateReply)
      ensures log == []
      ensures this.submitOracle == submitOracle && this.evaluateOracle == evaluateOracle
    {
      log := [];
      this.submitOracle := submitOracle;
      this.evaluateOracle := evaluateOracle;
    }

    /** SubmitAsync(name, args) and then commit.Status(). */
    method Submit(name: string, args: seq<string>) returns (reply: SubmitReply)
      modifies this
      ensures log == old(log) + [Call.Submit(name, args)]
      ensures reply == submitOracle(log)
    {
      log := log + [Call.Submit(name, args)];
      reply := submitOracle(log);
    }

    /** EvaluateTransaction(name, args...). */
    method Evaluate(name: string, args: seq<string>) returns (reply: EvaluateReply)
      modifies this
      ensures log == old(log) + [Call.Evaluate(name, args)]
      ensures reply == evaluateOracle(log)
    {
      log := log + [Call.Evaluate(name, args)];
      reply := evaluateOracle(log);
    }
  }
}
