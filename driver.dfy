/**
 * The slice of database/sql the tenancy package depends on, with the database
 * itself abstracted away: a physical connection is an object whose session
 * carries a tenant tag, and every driver call takes its outcome (success, or a
 * failure with an error text) as a parameter. A ghost log records every call
 * the core makes, in order.
 */
module Driver {
  import opened GoRuntime

  /** What the driver answers to one call. */
  datatype Outcome = Ok | Fail(message: string)

  /** The error value a call with outcome `o` returns. */
  function ErrorOf(o: Outcome): GoError
  {
    if o.Ok? then Nil else Err(o.message)
  }

  /** The `i`-th scripted outcome; calls past the end of the script succeed. */
  function OutcomeAt(script: seq<Outcome>, i: nat): Outcome
  {
    if i < |script| then script[i] else Ok
  }

  /** The error text a call with outcome `o` contributes to a cleanup report. */
  function FailureText(o: Outcome): seq<string>
  {
    if o.Ok? then [] else [o.message]
  }

  /** The accumulated error after one more cleanup call answering `o`. */
  function Absorb(how: Folding, acc: GoError, o: Outcome): GoError
  {
    if o.Ok? then acc else Step(how, acc, o.message)
  }

  /** Absorbing one outcome is folding in its failure text, if any. */
  lemma AbsorbIsFold(how: Folding, acc: GoError, o: Outcome)
    ensures Absorb(how, acc, o) == Fold(how, acc, FailureText(o))
  {
  }

  /** The three statement shapes of the executor interfaces. */
  datatype Kind = Exec | Query | QueryRow

  /**
   * A statement sent to a session: `select set_tenant($1)` with a tenant id,
   * or an application statement of some kind.
   */
  datatype Statement = SetTenant(tenant: string) | UserStatement(kind: Kind, query: string)

  /** `select set_tenant('')`: clears the session's tenant. */
  const Untag: Statement := SetTenant("")

  /** A physical connection (a *sql.Conn) and the tenant tag of its session. */
  class DbConn {
    var tag: string
    var closed: bool

    constructor ()
      ensures tag == "" && !closed
    {
      tag := "";
      closed := false;
    }
  }

  /** One call into the driver, as the ghost log records it. */
  datatype Event =
    | Acquired(given: DbConn?)            // db.Conn(ctx); null when it failed
    | Ran(conn: DbConn, stmt: Statement)  // conn.ExecContext / QueryContext / QueryRowContext
    | Closed(conn: DbConn)                // conn.Close()
    | Began(conn: DbConn)                 // conn.BeginTx(ctx, opts)
    | RanUnscoped(stmt: Statement)        // db.ExecContext etc., on a connection the core never sees

  /** A transaction (a *sql.Tx) and the connection it runs on. */
  datatype Tx = Tx(conn: DbConn)

  /** The (*sql.Conn, error) pair a checkout returns. */
  datatype Checkout = Checkout(conn: DbConn?, err: GoError)

  lemma AppendAssoc<T>(a: seq<T>, b: seq<T>, c: seq<T>)
    ensures (a + b) + c == a + (b + c)
  {
  }

  /** No non-nil connection occurs twice in a tracked list. */
  ghost predicate Distinct(conns: seq<DbConn?>)
  {
    forall i, j :: 0 <= i < j < |conns| && conns[i] != null ==> conns[i] != conns[j]
  }

  /** The underlying pool (a *sql.DB). */
  class Database {
    ghost var log: seq<Event>

    constructor ()
      ensures log == []
    {
      log := [];
    }

    /**
     * db.Conn(ctx): a fresh, open connection, or the driver's error. Nothing
     * is promised about its tag: database/sql may hand out a physical session
     * that a closed connection left behind, still carrying its tenant.
     */
    method Acquire(outcome: Outcome) returns (c: DbConn?, err: GoError)
      modifies this
      ensures err == ErrorOf(outcome)
      ensures outcome.Ok? ==> c != null && fresh(c) && !c.closed
      ensures outcome.Fail? ==> c == null
      ensures log == old(log) + [Acquired(c)]
    {
      if outcome.Ok? {
        c := new DbConn();
      } else {
        c := null;
      }
      err := ErrorOf(outcome);
      log := log + [Acquired(c)];
    }

    /**
     * `select set_tenant($1)` on one connection; when it succeeds the
     * session's tag becomes `tenant`.
     */
    method SetTenantOn(c: DbConn, tenant: string, outcome: Outcome) returns (err: GoError)
      modifies this, c
      ensures err == ErrorOf(outcome)
      ensures c.closed == old(c.closed)
      ensures c.tag == if outcome.Ok? then tenant else old(c.tag)
      ensures log == old(log) + [Ran(c, SetTenant(tenant))]
    {
      if outcome.Ok? {
        c.tag := tenant;
      }
      err := ErrorOf(outcome);
      log := log + [Ran(c, SetTenant(tenant))];
    }

    /** An application statement on one connection; the session itself is not changed. */
    method RunOn(c: DbConn, kind: Kind, query: string, outcome: Outcome) returns (err: GoError)
      modifies this
      ensures err == ErrorOf(outcome)
      ensures log == old(log) + [Ran(c, UserStatement(kind, query))]
    {
      err := ErrorOf(outcome);
      log := log + [Ran(c, UserStatement(kind, query))];
    }

    /** conn.Close(): the connection is done with whatever the driver answers. */
    method CloseConn(c: DbConn, outcome: Outcome) returns (err: GoError)
      modifies this, c
      ensures err == ErrorOf(outcome)
      ensures c.closed && c.tag == old(c.tag)
      ensures log == old(log) + [Closed(c)]
    {
      c.closed := true;
      err := ErrorOf(outcome);
      log := log + [Closed(c)];
    }

    /** conn.BeginTx(ctx, opts): a transaction on `c`, or nil and the driver's error. */
    method BeginOn(c: DbConn, outcome: Outcome) returns (tx: Option<Tx>, err: GoError)
      modifies this
      ensures err == ErrorOf(outcome)
      ensures tx == if outcome.Ok? then Some(Tx(c)) else None
      ensures log == old(log) + [Began(c)]
    {
      tx := if outcome.Ok? then Some(Tx(c)) else None;
      err := ErrorOf(outcome);
      log := log + [Began(c)];
    }

    /** db.ExecContext etc.: the pool runs the statement on a connection of its own choosing. */
    method RunUnscoped(stmt: Statement, outcome: Outcome) returns (err: GoError)
      modifies this
      ensures err == ErrorOf(outcome)
      ensures log == old(log) + [RanUnscoped(stmt)]
    {
      err := ErrorOf(outcome);
      log := log + [RanUnscoped(stmt)];
    }
  }
}
