/**
 * The tenant-scoped pool of tenancy.go: a pool that tags every connection it
 * checks out with the caller's tenant id, tracks those connections, and
 * untags and closes all of them when the pool is closed.
 */
module Tenancy {
  import opened GoRuntime
  import opened Driver
  import opened Scope

  /** The key under which Open stores the pool. */
  const CtxKey: Key := ContextKey("tenantedDatabaseConnection")

  /** The key under which Open stores the tenant id. */
  const TenantIDKey: Key := ContextKey("tenantID")

  /** The options the package exports; WithSingleConnection() is the only one. */
  datatype PoolOption = WithSingleConnection

  datatype PoolOptions = PoolOptions(singleConnection: bool)

  /** Running one option on the options being built. */
  function Apply(opt: PoolOption, o: PoolOptions): (r: PoolOptions)
    ensures r.singleConnection
  {
    match opt
    case WithSingleConnection => o.(singleConnection := true)
  }

  /** A tenant-scoped transaction (*TTx): a wrapper around a possibly nil *sql.Tx. */
  datatype TTx = TTx(tx: Option<Tx>)

  /** Open's options loop: starts from the defaults and runs every option in turn. */
  method ApplyOptions(opts: seq<PoolOption>) returns (o: PoolOptions)
    ensures o.singleConnection <==> WithSingleConnection in opts
  {
    o := PoolOptions(singleConnection := false);
    for i := 0 to |opts|
      invariant o.singleConnection <==> WithSingleConnection in opts[..i]
    {
      o := Apply(opts[i], o);
      assert opts[..i + 1] == opts[..i] + [opts[i]];
      assert opts[i] == WithSingleConnection;
      assert opts[i] in opts[..i + 1];
    }
    assert opts[..|opts|] == opts;
  }

  /**
   * FromContext(ctx): the pool stored under CtxKey. The type assertion panics
   * when nothing, or something other than a pool, is stored there, so a
   * context that no Open has extended fails loudly instead of yielding a default.
   */
  function FromContext<P>(ctx: Context<P>): (r: Call<P>)
    ensures r.Returns? <==> Lookup(ctx, CtxKey).Some? && Lookup(ctx, CtxKey).value.PoolValue?
    ensures r.Returns? ==> Lookup(ctx, CtxKey) == Some(PoolValue(r.value))
    ensures Lacks(ctx, CtxKey) ==> r == Panics
  {
    match Lookup(ctx, CtxKey)
    case Some(PoolValue(p)) => Returns(p)
    case _ => Panics
  }

  /**
   * GetID(ctx): the tenant id stored under TenantIDKey. The `.(string)`
   * assertion panics when there is none, instead of returning "".
   */
  function GetID<P>(ctx: Context<P>): (r: Call<string>)
    ensures r.Returns? <==> Lookup(ctx, TenantIDKey).Some? && Lookup(ctx, TenantIDKey).value.StringValue?
    ensures r.Returns? ==> Lookup(ctx, TenantIDKey) == Some(StringValue(r.value))
    ensures Lacks(ctx, TenantIDKey) ==> r == Panics
  {
    match Lookup(ctx, TenantIDKey)
    case Some(StringValue(id)) => Returns(id)
    case _ => Panics
  }

  /**
   * The child context Open hands back: the pool and the tenant id are found
   * in it, and every other key still finds what the parent held.
   */
  function ChildScope(ctx: Context<Pool>, p: Pool, tenantID: string): (r: Context<Pool>)
    ensures FromContext(r) == Returns(p)
    ensures GetID(r) == Returns(tenantID)
    ensures forall k :: k != CtxKey && k != TenantIDKey ==> Lookup(r, k) == Lookup(ctx, k)
  {
    assert CtxKey != TenantIDKey by { assert |CtxKey.name| != |TenantIDKey.name|; }
    var r := WithValue(WithValue(ctx, CtxKey, PoolValue(p)), TenantIDKey, StringValue(tenantID));
    assert Lookup(r, CtxKey) == Some(PoolValue(p));
    r
  }

  /** The error Conn returns when tagging failed with `tagErr` and closing the connection returned `closeError`. */
  function TagFailureError(tagErr: string, closeError: GoError): GoError
  {
    match closeError
    case Nil => Err(tagErr)
    case Err(closing) => Err("error closing connection: " + closing + ", original error: " + tagErr)
  }

  /** A pool for one tenant, tracking the connections it checked out. */
  class Pool {
    const db: Database
    var connections: seq<DbConn?>
    const opts: PoolOptions

    ghost predicate Valid()
      reads this
    {
      Distinct(connections)
    }

    constructor (db: Database, opts: PoolOptions)
      ensures this.db == db && this.opts == opts && connections == [] && Valid()
    {
      this.db := db;
      this.opts := opts;
      connections := [];
    }

    /**
     * p.Conn(ctx). In single-connection mode with a tracked connection it hands
     * back connections[0]; otherwise it acquires a connection, tags it with
     * GetID(ctx) and tracks it only when tagging succeeded. `acquired` is the
     * connection db.Conn returned, if it was called.
     */
    method Conn(ctx: Context<Pool>, acquire: Outcome, tagging: Outcome, closing: Outcome)
      returns (r: Call<Checkout>, ghost acquired: DbConn?)
      requires Valid()
      modifies this, db
      ensures Valid()
      ensures CheckedOut(this, ctx, acquire, tagging, closing, r, acquired, db.log)
    {
      acquired := null;
      if opts.singleConnection && |connections| >= 1 {
        r := Returns(Checkout(connections[0], Nil));
        return;
      }
      var tenantID := GetID(ctx);
      if tenantID.Panics? {
        r := Panics;
        return;
      }
      var conn, err := db.Acquire(acquire);
      acquired := conn;
      if err.Err? {
        r := Returns(Checkout(null, err));
        return;
      }
      err := db.SetTenantOn(conn, tenantID.value, tagging);
      if err.Err? {
        var closeError := db.CloseConn(conn, closing);
        r := Returns(Checkout(null, TagFailureError(err.message, closeError)));
        return;
      }
      connections := connections + [conn];
      r := Returns(Checkout(conn, Nil));
    }

    /**
     * p.Exec / p.Query / p.QueryRow: the statement goes to the underlying
     * pool on a connection the tenancy pool neither tags nor tracks.
     */
    method Statement(kind: Kind, query: string, outcome: Outcome) returns (err: GoError)
      modifies db
      ensures err == ErrorOf(outcome)
      ensures db.log == old(db.log) + [RanUnscoped(UserStatement(kind, query))]
      ensures connections == old(connections)
    {
      err := db.RunUnscoped(UserStatement(kind, query), outcome);
    }

    /**
     * p.ExecContext / p.QueryContext: check out a connection, then run the
     * statement on it. A checkout error comes back unchanged and nothing runs.
     * `checkout` is what Conn returned and `checkoutLog` the log right after it.
     */
    method StatementContext(ctx: Context<Pool>, kind: Kind, query: string,
                            acquire: Outcome, tagging: Outcome, closing: Outcome, outcome: Outcome)
      returns (r: Call<GoError>, ghost checkout: Call<Checkout>, ghost acquired: DbConn?, ghost checkoutLog: seq<Event>)
      requires Valid() && kind != QueryRow
      modifies this, db
      ensures Valid()
      ensures CheckedOut(this, ctx, acquire, tagging, closing, checkout, acquired, checkoutLog)
      ensures checkout.Panics? ==> r == Panics && db.log == checkoutLog
      ensures checkout.Returns? && checkout.value.err.Err? ==> r == Returns(checkout.value.err) && db.log == checkoutLog
      ensures checkout.Returns? && checkout.value.err.Nil? && checkout.value.conn == null ==>
                r == Returns(Err("conn was nil")) && db.log == checkoutLog
      ensures checkout.Returns? && checkout.value.err.Nil? && checkout.value.conn != null ==>
                r == Returns(ErrorOf(outcome)) && db.log == checkoutLog + [Ran(checkout.value.conn, UserStatement(kind, query))]
    {
      var co;
      co, acquired := Conn(ctx, acquire, tagging, closing);
      checkout, checkoutLog := co, db.log;
      if co.Panics? {
        r := Panics;
        return;
      }
      var conn, err := co.value.conn, co.value.err;
      if err.Err? {
        r := Returns(err);
        return;
      }
      if conn == null {
        r := Returns(Err("conn was nil"));
        return;
      }
      err := db.RunOn(conn, kind, query, outcome);
      r := Returns(err);
    }

    /**
     * p.QueryRowContext: like StatementContext, but a checkout error panics
     * (a *sql.Row cannot carry it), and so does a nil connection.
     */
    method QueryRowContext(ctx: Context<Pool>, query: string,
                           acquire: Outcome, tagging: Outcome, closing: Outcome, outcome: Outcome)
      returns (r: Call<GoError>, ghost checkout: Call<Checkout>, ghost acquired: DbConn?, ghost checkoutLog: seq<Event>)
      requires Valid()
      modifies this, db
      ensures Valid()
      ensures CheckedOut(this, ctx, acquire, tagging, closing, checkout, acquired, checkoutLog)
      ensures r.Panics? <==> checkout.Panics? || checkout.value.err.Err? || checkout.value.conn == null
      ensures r.Panics? ==> db.log == checkoutLog
      ensures r.Returns? ==>
                r.value == ErrorOf(outcome) && db.log == checkoutLog + [Ran(checkout.value.conn, UserStatement(QueryRow, query))]
    {
      var co;
      co, acquired := Conn(ctx, acquire, tagging, closing);
      checkout, checkoutLog := co, db.log;
      if co.Panics? || co.value.err.Err? || co.value.conn == null {
        r := Panics;
        return;
      }
      var err := db.RunOn(co.value.conn, QueryRow, query, outcome);
      r := Returns(err);
    }

    /**
     * p.BeginTx: check out a connection and begin a transaction on it. The
     * *TTx wrapper is returned even when beginning failed.
     */
    method BeginTx(ctx: Context<Pool>, acquire: Outcome, tagging: Outcome, closing: Outcome, outcome: Outcome)
      returns (r: Call<(Option<TTx>, GoError)>, ghost checkout: Call<Checkout>, ghost acquired: DbConn?, ghost checkoutLog: seq<Event>)
      requires Valid()
      modifies this, db
      ensures Valid()
      ensures CheckedOut(this, ctx, acquire, tagging, closing, checkout, acquired, checkoutLog)
      ensures checkout.Panics? ==> r == Panics && db.log == checkoutLog
      ensures checkout.Returns? && checkout.value.err.Err? ==> r == Returns((None, checkout.value.err)) && db.log == checkoutLog
      ensures checkout.Returns? && checkout.value.err.Nil? && checkout.value.conn == null ==>
                r == Returns((None, Err("conn was nil"))) && db.log == checkoutLog
      ensures checkout.Returns? && checkout.value.err.Nil? && checkout.value.conn != null ==>
                r == Returns((Some(TTx(if outcome.Ok? then Some(Tx(checkout.value.conn)) else None)), ErrorOf(outcome)))
                && db.log == checkoutLog + [Began(checkout.value.conn)]
    {
      var co;
      co, acquired := Conn(ctx, acquire, tagging, closing);
      checkout, checkoutLog := co, db.log;
      if co.Panics? {
        r := Panics;
        return;
      }
      var conn, err := co.value.conn, co.value.err;
      if err.Err? {
        r := Returns((None, err));
        return;
      }
      if conn == null {
        r := Returns((None, Err("conn was nil")));
        return;
      }
      var tx;
      tx, err := db.BeginOn(conn, outcome);
      r := Returns((Some(TTx(tx)), err));
    }
  }

  /**
   * What one call of Conn did, comparing the state before (old) with the
   * state after, where `log` is the driver log right after the call.
   */
  twostate predicate CheckedOut(p: Pool, ctx: Context<Pool>, acquire: Outcome, tagging: Outcome, closing: Outcome,
                                new r: Call<Checkout>, new acquired: DbConn?, new log: seq<Event>)
    reads p, acquired
  {
    var before := old(p.connections);
    var logBefore := old(p.db.log);
    if p.opts.singleConnection && |before| >= 1 then
      // reuse: no acquire, no tag, nothing tracked
      r == Returns(Checkout(before[0], Nil)) && p.connections == before && log == logBefore
    else
      match GetID(ctx)
      case Panics =>
        r == Panics && p.connections == before && log == logBefore
      case Returns(id) =>
        if acquire.Fail? then
          r == Returns(Checkout(null, Err(acquire.message))) && p.connections == before
          && log == logBefore + [Acquired(null)]
        else
          acquired != null && fresh(acquired)
          && if tagging.Ok? then
            r == Returns(Checkout(acquired, Nil)) && p.connections == before + [acquired]
            && acquired.tag == id && !acquired.closed
            && log == logBefore + [Acquired(acquired), Ran(acquired, SetTenant(id))]
          else
            r == Returns(Checkout(null, TagFailureError(tagging.message, ErrorOf(closing)))) && p.connections == before
            && acquired.closed
            && log == logBefore + [Acquired(acquired), Ran(acquired, SetTenant(id)), Closed(acquired)]
  }

  /**
   * Open(ctx, db, tenantID, opts...): an empty pool and a child context that
   * carries it and the tenant id. No connection is opened.
   */
  method Open(ctx: Context<Pool>, db: Database, tenantID: string, opts: seq<PoolOption>)
    returns (p: Pool, newCtx: Context<Pool>, err: GoError)
    ensures fresh(p) && p.Valid() && p.db == db && p.connections == []
    ensures p.opts.singleConnection <==> WithSingleConnection in opts
    ensures newCtx == ChildScope(ctx, p, tenantID)
    ensures FromContext(newCtx) == Returns(p) && GetID(newCtx) == Returns(tenantID)
    ensures err == Nil
  {
    var o := ApplyOptions(opts);
    p := new Pool(db, o);
    newCtx := WithValue(ctx, CtxKey, PoolValue(p));
    newCtx := WithValue(newCtx, TenantIDKey, StringValue(tenantID));
    err := Nil;
  }

  /** The driver calls Close makes for one tracked entry: untag, then close; none for nil. */
  function CloseStep(c: DbConn?): seq<Event>
  {
    if c == null then [] else [Ran(c, Untag), Closed(c)]
  }

  /** The driver calls Close makes for the first `n` tracked entries, in list order. */
  function CloseEvents(conns: seq<DbConn?>, n: nat): seq<Event>
    requires n <= |conns|
  {
    if n == 0 then [] else CloseEvents(conns, n - 1) + CloseStep(conns[n - 1])
  }

  /** The error texts one tracked entry adds: its untag's, then its close's; none for nil. */
  function ReleaseFailures(c: DbConn?, untag: Outcome, close: Outcome): seq<string>
  {
    if c == null then [] else FailureText(untag) + FailureText(close)
  }

  /**
   * The error texts Close meets on the first `n` tracked entries, in order,
   * when the i-th entry's untag answers OutcomeAt(untag, i) and its close
   * OutcomeAt(close, i).
   */
  function CloseFailures(conns: seq<DbConn?>, n: nat, untag: seq<Outcome>, close: seq<Outcome>): seq<string>
    requires n <= |conns|
  {
    if n == 0 then []
    else CloseFailures(conns, n - 1, untag, close) + ReleaseFailures(conns[n - 1], OutcomeAt(untag, n - 1), OutcomeAt(close, n - 1))
  }

  /**
   * The error Close's loop holds after the first `n` tracked entries, each
   * call's failure folded in as it happens.
   */
  function CloseError(how: Folding, conns: seq<DbConn?>, n: nat, untag: seq<Outcome>, close: seq<Outcome>): GoError
    requires n <= |conns|
  {
    if n == 0 then Nil
    else
      var acc := CloseError(how, conns, n - 1, untag, close);
      if conns[n - 1] == null then acc
      else Absorb(how, Absorb(how, acc, OutcomeAt(untag, n - 1)), OutcomeAt(close, n - 1))
  }

  /** What one tracked entry does to Close's error is folding in its failure texts. */
  lemma ReleaseIsFold(how: Folding, acc: GoError, c: DbConn?, untag: Outcome, close: Outcome)
    ensures (if c == null then acc else Absorb(how, Absorb(how, acc, untag), close))
            == Fold(how, acc, ReleaseFailures(c, untag, close))
  {
    if c != null {
      FoldAppend(how, acc, FailureText(untag), FailureText(close));
      AbsorbIsFold(how, acc, untag);
      AbsorbIsFold(how, Absorb(how, acc, untag), close);
    }
  }

  /** Close's error is the fold of its failure texts, in the order they occur. */
  lemma {:induction false} CloseErrorFoldsFailures(how: Folding, conns: seq<DbConn?>, n: nat, untag: seq<Outcome>, close: seq<Outcome>)
    requires n <= |conns|
    ensures CloseError(how, conns, n, untag, close) == Accumulate(how, CloseFailures(conns, n, untag, close))
  {
    if n > 0 {
      CloseErrorFoldsFailures(how, conns, n - 1, untag, close);
      var c, u, cl := conns[n - 1], OutcomeAt(untag, n - 1), OutcomeAt(close, n - 1);
      var front := CloseFailures(conns, n - 1, untag, close);
      FoldAppend(how, Nil, front, ReleaseFailures(c, u, cl));
      ReleaseIsFold(how, Accumulate(how, front), c, u, cl);
    }
  }

  /**
   * Close's loop, with the way it folds each failure into the accumulated
   * error as a parameter (`Wrap` in the source).
   */
  method CloseWith(p: Pool, untag: seq<Outcome>, close: seq<Outcome>, how: Folding)
    returns (err: GoError)
    requires p.Valid()
    modifies p.db, p.connections
    ensures err == CloseError(how, p.connections, |p.connections|, untag, close)
    ensures p.db.log == old(p.db.log) + CloseEvents(p.connections, |p.connections|)
    ensures forall i :: 0 <= i < |p.connections| && p.connections[i] != null ==>
              p.connections[i].closed
              && p.connections[i].tag == if OutcomeAt(untag, i).Ok? then "" else old(p.connections[i].tag)
  {
    var closingError := Nil;
    var conns, db := p.connections, p.db;
    for i := 0 to |conns|
      invariant closingError == CloseError(how, conns, i, untag, close)
      invariant db.log == old(db.log) + CloseEvents(conns, i)
      invariant forall j :: 0 <= j < i && conns[j] != null ==>
                  conns[j].closed && conns[j].tag == if OutcomeAt(untag, j).Ok? then "" else old(conns[j].tag)
      invariant forall j :: i <= j < |conns| && conns[j] != null ==>
                  conns[j].closed == old(conns[j].closed) && conns[j].tag == old(conns[j].tag)
    {
      var conn := conns[i];
      if conn != null {
        closingError := Release(db, conn, OutcomeAt(untag, i), OutcomeAt(close, i), how, closingError);
      }
      AppendAssoc(old(db.log), CloseEvents(conns, i), CloseStep(conn));
      assert forall j :: 0 <= j < |conns| && j != i && conns[j] != null ==> conns[j] != conn;
    }
    err := closingError;
  }

  /** One iteration of Close's loop on a non-nil entry: untag, then close, regardless. */
  method Release(db: Database, conn: DbConn, untag: Outcome, close: Outcome, how: Folding, acc: GoError)
    returns (closingError: GoError)
    modifies db, conn
    ensures closingError == Absorb(how, Absorb(how, acc, untag), close)
    ensures conn.closed && conn.tag == if untag.Ok? then "" else old(conn.tag)
    ensures db.log == old(db.log) + CloseStep(conn)
  {
    closingError := acc;
    var err := db.SetTenantOn(conn, "", untag);
    if err.Err? {
      closingError := Step(how, closingError, err.message);
    }
    err := db.CloseConn(conn, close);
    if err.Err? {
      closingError := Step(how, closingError, err.message);
    }
  }

  /**
   * Close(ctx, p) as written: every tracked connection gets an untag attempt
   * and then a close attempt, failures are folded in with errors.Wrap, and
   * because the fold starts from nil the result is always nil.
   */
  method Close(p: Pool, untag: seq<Outcome>, close: seq<Outcome>) returns (err: GoError)
    requires p.Valid()
    modifies p.db, p.connections
    ensures err == Nil
    ensures p.db.log == old(p.db.log) + CloseEvents(p.connections, |p.connections|)
    ensures forall i :: 0 <= i < |p.connections| && p.connections[i] != null ==>
              p.connections[i].closed
              && p.connections[i].tag == if OutcomeAt(untag, i).Ok? then "" else old(p.connections[i].tag)
  {
    err := CloseWith(p, untag, close, WrapEach);
    CloseErrorFoldsFailures(WrapEach, p.connections, |p.connections|, untag, close);
    WrapLosesEveryFailure(CloseFailures(p.connections, |p.connections|, untag, close));
  }

  /**
   * Close as its comment intends: the same calls, but the result is nil
   * exactly when no untag and no close failed, and names every failure.
   */
  method CloseCombined(p: Pool, untag: seq<Outcome>, close: seq<Outcome>) returns (err: GoError)
    requires p.Valid()
    modifies p.db, p.connections
    ensures err.Nil? <==> forall i :: 0 <= i < |p.connections| && p.connections[i] != null ==>
              OutcomeAt(untag, i).Ok? && OutcomeAt(close, i).Ok?
    ensures forall m :: m in CloseFailures(p.connections, |p.connections|, untag, close) ==>
              err.Err? && Contains(err.message, m)
    ensures p.db.log == old(p.db.log) + CloseEvents(p.connections, |p.connections|)
    ensures forall i :: 0 <= i < |p.connections| && p.connections[i] != null ==>
              p.connections[i].closed
              && p.connections[i].tag == if OutcomeAt(untag, i).Ok? then "" else old(p.connections[i].tag)
  {
    err := CloseWith(p, untag, close, CombineEach);
    CloseErrorFoldsFailures(CombineEach, p.connections, |p.connections|, untag, close);
    CombineKeepsEveryFailure(CloseFailures(p.connections, |p.connections|, untag, close));
    CloseFailuresEmptyIff(p.connections, |p.connections|, untag, close);
  }

  /** Close attempts an untag and a close on every non-nil tracked connection. */
  lemma {:induction false} CloseAttemptsEveryConnection(conns: seq<DbConn?>, n: nat)
    requires n <= |conns|
    ensures forall i :: 0 <= i < n && conns[i] != null ==>
              Ran(conns[i], Untag) in CloseEvents(conns, n) && Closed(conns[i]) in CloseEvents(conns, n)
  {
    if n > 0 {
      CloseAttemptsEveryConnection(conns, n - 1);
    }
  }

  /** Close calls nothing but untag and close, and only on tracked connections. */
  lemma {:induction false} CloseTouchesOnlyTracked(conns: seq<DbConn?>, n: nat)
    requires n <= |conns|
    ensures forall e :: e in CloseEvents(conns, n) ==>
              ((e.Ran? && e.stmt == Untag) || e.Closed?) && e.conn in conns
  {
    if n > 0 {
      CloseTouchesOnlyTracked(conns, n - 1);
    }
  }

  /** Close meets no failure exactly when every non-nil entry untags and closes cleanly. */
  lemma {:induction false} CloseFailuresEmptyIff(conns: seq<DbConn?>, n: nat, untag: seq<Outcome>, close: seq<Outcome>)
    requires n <= |conns|
    ensures CloseFailures(conns, n, untag, close) == [] <==>
              forall i :: 0 <= i < n && conns[i] != null ==> OutcomeAt(untag, i).Ok? && OutcomeAt(close, i).Ok?
  {
    if n > 0 {
      CloseFailuresEmptyIff(conns, n - 1, untag, close);
    }
  }

  /**
   * A pool opened WithSingleConnection hands out one connection: the second
   * Conn returns the connection the first one tagged.
   */
  method SingleConnectionReuses(db: Database, tenantID: string) returns (first: DbConn?, second: DbConn?)
    modifies db
    ensures first != null && first == second && first.tag == tenantID
  {
    var p, ctx, _ := Open(Background, db, tenantID, [WithSingleConnection]);
    var r1, _ := p.Conn(ctx, Ok, Ok, Ok);
    first := r1.value.conn;
    var r2, _ := p.Conn(ctx, Ok, Ok, Ok);
    second := r2.value.conn;
  }

  /** By default every Conn acquires and tags a connection of its own. */
  method DefaultModeOpensAnew(db: Database, tenantID: string) returns (first: DbConn?, second: DbConn?)
    modifies db
    ensures first != null && second != null && first != second
    ensures first.tag == tenantID && second.tag == tenantID
  {
    var p, ctx, _ := Open(Background, db, tenantID, []);
    var r1, _ := p.Conn(ctx, Ok, Ok, Ok);
    first := r1.value.conn;
    var r2, _ := p.Conn(ctx, Ok, Ok, Ok);
    second := r2.value.conn;
  }
}
