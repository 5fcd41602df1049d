/** Error values and their classes (src/error.rs), NFSv4.1 status codes and operation
    codes (src/nfs4.rs). Message text and payloads that no decision reads are dropped. */
module Errors {

  datatype Option<+T> = None | Some(value: T)

  datatype Result<+T, +E> = Ok(value: T) | Err(error: E) {
    predicate IsFailure() {
      Err?
    }

    function PropagateFailure<U>(): Result<U, E>
      requires Err?
    {
      Err(error)
    }

    function Extract(): T
      requires Ok?
    {
      value
    }
  }

  /** The operations the client issues, plus the ILLEGAL discriminant a server may answer with. */
  datatype OpCode =
    | SEQUENCE | PUTFH | LOOKUP | SAVEFH | RESTOREFH | GETFH | OPEN | CLOSE
    | WRITE | COMMIT | VERIFY | LINK | RENAME | REMOVE | ILLEGAL

  const OK: nat := 0
  const NOENT: nat := 2
  const EXIST: nat := 17
  const INVAL: nat := 22
  const NOTSUPP: nat := 10004
  const DELAY: nat := 10008
  const GRACE: nat := 10013
  const STALE_CLIENTID: nat := 10022
  const BAD_STATEID: nat := 10025
  const OP_ILLEGAL: nat := 10044
  const BADSESSION: nat := 10052
  const BADSLOT: nat := 10053
  const SEQ_MISORDERED: nat := 10063
  const BAD_HIGH_SLOT: nat := 10077
  const DEADSESSION: nat := 10078

  datatype Error =
    | Io
    | Rpc
    | ConnectionLost
    | RequestNotSent(source: Error)
    | Xdr
    | Nfs(status: nat, op: OpCode)
    | Protocol
    | InvalidPath
    | AlreadyExists
    | OutcomeUnknown
    | FileSizeMismatch(expected: nat, actual: Option<nat>)
    | InvalidConfig
    | Unsupported
    | Timeout
    | BufferedReadTooLarge(size: Option<nat>, limit: nat)
  {
    predicate IsNfsError(s: nat, o: OpCode) {
      Nfs? && status == s && op == o
    }

    predicate IsNfsOperation(o: OpCode) {
      Nfs? && op == o
    }

    predicate IsRetryable() {
      match this
      case Io | ConnectionLost | Timeout => true
      case RequestNotSent(source) => source.IsRetryable()
      case Nfs(s, _) => s == DELAY || s == GRACE || SessionGone(s)
      case _ => false
    }

    predicate RequiresSessionRebuild() {
      match this
      case Io | ConnectionLost | Timeout => true
      case RequestNotSent(source) => source.RequiresSessionRebuild()
      case Nfs(s, _) => SessionGone(s)
      case _ => false
    }

    /** Combines an operation failure with the failure of the CLOSE that followed it. */
    function WithCloseFailure(closeErr: Error): Error {
      if RequiresSessionRebuild() || closeErr.RequiresSessionRebuild() then ConnectionLost
      else if IsRetryable() then this
      else if closeErr.IsRetryable() then closeErr
      else Protocol
    }

    /** Errors of the session layer: everything except the two verdicts only `put` hands out. */
    predicate SessionLevel() {
      !AlreadyExists? && !OutcomeUnknown?
    }
  }

  predicate SessionGone(s: nat) {
    s == STALE_CLIENTID || s == BADSESSION || s == BADSLOT ||
    s == SEQ_MISORDERED || s == BAD_HIGH_SLOT || s == DEADSESSION
  }

  /** Needing a new session is a special case of being retryable. */
  lemma {:induction false} RebuildIsRetryable(e: Error)
    ensures e.RequiresSessionRebuild() ==> e.IsRetryable()
  {
    if e.RequestNotSent? {
      RebuildIsRetryable(e.source);
    }
  }

  /** A close failure never hides a retryable cause and never invents one: the combined error is
      retryable exactly when either part is, and asks for a new session exactly when either part
      does. */
  lemma CloseFailureKeepsClasses(e: Error, c: Error)
    ensures e.WithCloseFailure(c).IsRetryable() <==> e.IsRetryable() || c.IsRetryable()
    ensures e.WithCloseFailure(c).RequiresSessionRebuild()
       <==> e.RequiresSessionRebuild() || c.RequiresSessionRebuild()
    ensures e.WithCloseFailure(c).SessionLevel()
  {
    RebuildIsRetryable(e);
    RebuildIsRetryable(c);
  }
}
