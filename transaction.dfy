/**
 * The commit-or-rollback coordinator of the database package (TRXManager): a
 * transaction is begun, the work runs with the transaction in its context, and
 * the work's outcome decides between commit and rollback. The database side is
 * reduced to what the coordinator observes of it: whether Begin, Rollback and
 * Commit fail.
 */
module Transaction {
  import opened Wrappers
  import opened Errs

  /** The connection a repository statement runs on: the pool, or an open
      transaction (told apart by a number). */
  datatype Conn = Pool | Tx(id: nat)

  /** The one context value this package reads and writes. */
  datatype Context = Context(tx: Option<nat>)

  const Background: Context := Context(None)

  /** SetTXContext: the context carrying the transaction. */
  function SetTXContext(ctx: Context, tx: nat): (r: Context)
    ensures r.tx == Some(tx)
  {
    ctx.(tx := Some(tx))
  }

  /** GetTXFromContext: the ambient transaction when there is one, else the
      connection given. */
  function GetTXFromContext(ctx: Context, defaultConn: Conn): (r: Conn)
    ensures r.Tx? || r == defaultConn
  {
    match ctx.tx
    case Some(tx) => Tx(tx)
    case None => defaultConn
  }

  /** Statements in a transaction's context run on that transaction; without one
      they run on the default connection. */
  lemma GetAfterSet(ctx: Context, tx: nat, defaultConn: Conn)
    ensures GetTXFromContext(SetTXContext(ctx, tx), defaultConn) == Tx(tx)
    ensures GetTXFromContext(Background, defaultConn) == defaultConn
    ensures GetTXFromContext(SetTXContext(SetTXContext(ctx, tx), tx + 1), defaultConn) == Tx(tx + 1)
  {
  }

  /** The failures of BeginTx, Rollback and Commit for one transaction. */
  datatype TxFaults = TxFaults(begin: Option<Error>, rollback: Option<Error>, commit: Option<Error>)

  /** The error WithTransaction returns when BeginTx fails; the driver error is
      dropped. */
  const ErrCreateTransaction: Error := Plain("create transaction")

  /** What WithTransaction does after the work has run: its error, and whether
      the work's writes were committed. */
  datatype Settlement = Settlement(err: Option<Error>, committed: bool)

  /** The end of WithTransaction for a transaction that began: the work's error
      `fnErr` triggers a rollback, its absence a commit. */
  function Settle(f: TxFaults, fnErr: Option<Error>): (r: Settlement)
    ensures r.committed <==> fnErr.None? && f.commit.None?
    ensures r.err.None? <==> r.committed
  {
    match fnErr
    case Some(e) =>
      (match f.rollback
       case Some(rb) => Settlement(Some(Wrapped("rollback: " + Message(rb) + " : original ", e, "")), false)
       case None => Settlement(Some(e), false))
    case None =>
      (match f.commit
       case Some(c) => Settlement(Some(Wrapped("commit:", c, "")), false)
       case None => Settlement(None, true))
  }

  /** A failed work's error comes back unchanged when the rollback succeeds, and
      matches the same sentinels as the work's error when the rollback fails too. */
  lemma SettleKeepsWorkError(f: TxFaults, e: Error, t: Error)
    requires t.Sentinel?
    ensures f.rollback.None? ==> Settle(f, Some(e)).err == Some(e)
    ensures Is(Settle(f, Some(e)).err.value, t) <==> Is(e, t)
    ensures f.rollback.Some? ==>
              Message(Settle(f, Some(e)).err.value) == "rollback: " + Message(f.rollback.value) + " : original " + Message(e)
  {
    if f.rollback.Some? {
      WrapIs("rollback: " + Message(f.rollback.value) + " : original ", e, t);
    }
  }

  /** A commit failure is reported as "commit:" around the driver error. */
  lemma SettleCommitFailure(f: TxFaults)
    requires f.commit.Some?
    ensures Settle(f, None).err == Some(Wrap("commit:", f.commit.value))
    ensures !Settle(f, None).committed
  {
  }
}
