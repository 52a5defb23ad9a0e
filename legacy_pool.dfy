/**
 * The older tenant-scoped pool of pool.go: OpenPool, CheckoutConn, ClosePool
 * and the executor methods on it. It tags connections like the pool of
 * tenancy.go but has no single-connection mode, checks no connection for
 * nil before using it, and only closes a connection when untagging it failed.
 */
module LegacyPool {
  import opened GoRuntime
  import opened Driver
  import opened Scope
  import Tenancy

  /** The key under which OpenPool stores the pool. */
  const PoolCtxKey: Key := ContextKey("tenantedDatabaseConnectionPool")

  /** A pool for one tenant, tracking the connections it checked out. */
  class Pool {
    const db: Database
    var connections: seq<DbConn?>

    ghost predicate Valid()
      reads this
    {
      Distinct(connections)
    }

    constructor (db: Database)
      ensures this.db == db && connections == [] && Valid()
    {
      this.db := db;
      connections := [];
    }

    /**
     * CheckoutConn's steps, with the way the tagging error is combined with
     * the close error as a parameter (`Wrap` in the source): read the tenant
     * id, acquire a connection, tag it, and track it only when tagging worked.
     */
    method CheckoutConnWith(ctx: Context<Pool>, acquire: Outcome, tagging: Outcome, closing: Outcome, how: Folding)
      returns (r: Call<Checkout>, ghost acquired: DbConn?)
      requires Valid()
      modifies this, db
      ensures Valid()
      ensures CheckedOut(this, ctx, acquire, tagging, closing, how, r, acquired, db.log)
    {
      acquired := null;
      var tenantID := Tenancy.GetID(ctx);
      if tenantID.Panics? {
        r := Panics;
        return;
      }
      var conn, err := db.Acquire(acquire);
      acquired := conn;
      if err.Err? {
        r := Returns(Checkout(null, err));
        return;
      }
      err := db.SetTenantOn(conn, tenantID.value, tagging);
      if err.Err? {
        var closeError := db.CloseConn(conn, closing);
        r := Returns(Checkout(null, Step(how, closeError, err.message)));
        return;
      }
      connections := connections + [conn];
      r := Returns(Checkout(conn, Nil));
    }

    /**
     * tc.CheckoutConn(ctx) as written. When tagging fails but the close
     * succeeds, errors.Wrap(nil, ...) is nil, so the caller gets neither a
     * connection nor an error.
     */
    method CheckoutConn(ctx: Context<Pool>, acquire: Outcome, tagging: Outcome, closing: Outcome)
      returns (r: Call<Checkout>, ghost acquired: DbConn?)
      requires Valid()
      modifies this, db
      ensures Valid()
      ensures CheckedOut(this, ctx, acquire, tagging, closing, WrapEach, r, acquired, db.log)
      ensures Tenancy.GetID(ctx).Returns? && acquire.Ok? && tagging.Fail? && closing.Ok? ==>
                r == Returns(Checkout(null, Nil))
    {
      r, acquired := CheckoutConnWith(ctx, acquire, tagging, closing, WrapEach);
    }

    /**
     * CheckoutConn as intended: a failed tagging always reports an error, so
     * a checkout that does not panic returns a connection exactly when it
     * returns no error.
     */
    method CheckoutConnCorrected(ctx: Context<Pool>, acquire: Outcome, tagging: Outcome, closing: Outcome)
      returns (r: Call<Checkout>, ghost acquired: DbConn?)
      requires Valid()
      modifies this, db
      ensures Valid()
      ensures CheckedOut(this, ctx, acquire, tagging, closing, CombineEach, r, acquired, db.log)
      ensures r.Returns? ==> (r.value.err.Nil? <==> r.value.conn != null)
      ensures Tenancy.GetID(ctx).Returns? && acquire.Ok? && tagging.Fail? ==>
                r == Returns(Checkout(null, Err(if closing.Ok? then tagging.message else tagging.message + ": " + closing.message)))
    {
      r, acquired := CheckoutConnWith(ctx, acquire, tagging, closing, CombineEach);
    }

    /**
     * tc.Exec / tc.Query / tc.QueryRow: the statement goes to the underlying
     * pool on a connection this pool neither tags nor tracks.
     */
    method Statement(kind: Kind, query: string, outcome: Outcome) returns (err: GoError)
      modifies db
      ensures err == ErrorOf(outcome)
      ensures db.log == old(db.log) + [RanUnscoped(UserStatement(kind, query))]
      ensures connections == old(connections)
    {
      err := db.RunUnscoped(UserStatement(kind, query), outcome);
    }

    /**
     * tc.ExecContext / tc.QueryContext: check out a connection and run the
     * statement on it. A checkout error comes back unchanged; a nil
     * connection with a nil error is used anyway, and the call panics. With
     * `how` = WrapEach the checkout is CheckoutConn as written; with
     * CombineEach it is CheckoutConnCorrected, and then only a missing
     * tenant id makes the call panic.
     */
    method StatementContext(ctx: Context<Pool>, kind: Kind, query: string,
                            acquire: Outcome, tagging: Outcome, closing: Outcome, outcome: Outcome, how: Folding)
      returns (r: Call<GoError>, ghost checkout: Call<Checkout>, ghost acquired: DbConn?, ghost checkoutLog: seq<Event>)
      requires Valid() && kind != QueryRow
      modifies this, db
      ensures Valid()
      ensures CheckedOut(this, ctx, acquire, tagging, closing, how, checkout, acquired, checkoutLog)
      ensures checkout.Panics? ==> r == Panics && db.log == checkoutLog
      ensures checkout.Returns? && checkout.value.err.Err? ==> r == Returns(checkout.value.err) && db.log == checkoutLog
      ensures checkout.Returns? && checkout.value.err.Nil? && checkout.value.conn == null ==>
                r == Panics && db.log == checkoutLog
      ensures checkout.Returns? && checkout.value.err.Nil? && checkout.value.conn != null ==>
                r == Returns(ErrorOf(outcome)) && db.log == checkoutLog + [Ran(checkout.value.conn, UserStatement(kind, query))]
      ensures how == CombineEach ==> (r.Panics? <==> Tenancy.GetID(ctx).Panics?)
    {
      var co;
      co, acquired := CheckoutConnWith(ctx, acquire, tagging, closing, how);
      checkout, checkoutLog := co, db.log;
      if co.Panics? {
        r := Panics;
        return;
      }
      var conn, err := co.value.conn, co.value.err;
      if err.Err? {
        r := Returns(err);
        return;
      }
      if conn == null {
        // conn.ExecContext on a nil *sql.Conn dereferences it
        r := Panics;
        return;
      }
      err := db.RunOn(conn, kind, query, outcome);
      r := Returns(err);
    }

    /**
     * tc.QueryRowContext: a checkout error panics, and so does a nil
     * connection; `how` chooses the checkout as in StatementContext.
     */
    method QueryRowContext(ctx: Context<Pool>, query: string,
                           acquire: Outcome, tagging: Outcome, closing: Outcome, outcome: Outcome, how: Folding)
      returns (r: Call<GoError>, ghost checkout: Call<Checkout>, ghost acquired: DbConn?, ghost checkoutLog: seq<Event>)
      requires Valid()
      modifies this, db
      ensures Valid()
      ensures CheckedOut(this, ctx, acquire, tagging, closing, how, checkout, acquired, checkoutLog)
      ensures r.Panics? <==> checkout.Panics? || checkout.value.err.Err? || checkout.value.conn == null
      ensures r.Panics? ==> db.log == checkoutLog
      ensures r.Returns? ==>
                r.value == ErrorOf(outcome) && db.log == checkoutLog + [Ran(checkout.value.conn, UserStatement(QueryRow, query))]
    {
      var co;
      co, acquired := CheckoutConnWith(ctx, acquire, tagging, closing, how);
      checkout, checkoutLog := co, db.log;
      if co.Panics? || co.value.err.Err? || co.value.conn == null {
        r := Panics;
        return;
      }
      var err := db.RunOn(co.value.conn, QueryRow, query, outcome);
      r := Returns(err);
    }

    /**
     * tc.BeginTx: check out a connection and begin a transaction on it. A
     * checkout error comes back with a nil *TTx; a nil connection panics;
     * `how` chooses the checkout as in StatementContext.
     */
    method BeginTx(ctx: Context<Pool>, acquire: Outcome, tagging: Outcome, closing: Outcome, outcome: Outcome, how: Folding)
      returns (r: Call<(Option<Tenancy.TTx>, GoError)>, ghost checkout: Call<Checkout>, ghost acquired: DbConn?, ghost checkoutLog: seq<Event>)
      requires Valid()
      modifies this, db
      ensures Valid()
      ensures CheckedOut(this, ctx, acquire, tagging, closing, how, checkout, acquired, checkoutLog)
      ensures checkout.Panics? ==> r == Panics && db.log == checkoutLog
      ensures checkout.Returns? && checkout.value.err.Err? ==> r == Returns((None, checkout.value.err)) && db.log == checkoutLog
      ensures checkout.Returns? && checkout.value.err.Nil? && checkout.value.conn == null ==>
                r == Panics && db.log == checkoutLog
      ensures checkout.Returns? && checkout.value.err.Nil? && checkout.value.conn != null ==>
                r == Returns((Some(Tenancy.TTx(if outcome.Ok? then Some(Tx(checkout.value.conn)) else None)), ErrorOf(outcome)))
                && db.log == checkoutLog + [Began(checkout.value.conn)]
      ensures how == CombineEach ==> (r.Panics? <==> Tenancy.GetID(ctx).Panics?)
    {
      var co;
      co, acquired := CheckoutConnWith(ctx, acquire, tagging, closing, how);
      checkout, checkoutLog := co, db.log;
      if co.Panics? {
        r := Panics;
        return;
      }
      var conn, err := co.value.conn, co.value.err;
      if err.Err? {
        r := Returns((None, err));
        return;
      }
      if conn == null {
        r := Panics;
        return;
      }
      var tx;
      tx, err := db.BeginOn(conn, outcome);
      r := Returns((Some(Tenancy.TTx(tx)), err));
    }
  }

  /**
   * What one call of CheckoutConnWith did, comparing the state before (old)
   * with the state after, where `log` is the driver log right after the call.
   */
  twostate predicate CheckedOut(p: Pool, ctx: Context<Pool>, acquire: Outcome, tagging: Outcome, closing: Outcome,
                                how: Folding, new r: Call<Checkout>, new acquired: DbConn?, new log: seq<Event>)
    reads p, acquired
  {
    var before := old(p.connections);
    var logBefore := old(p.db.log);
    match Tenancy.GetID(ctx)
    case Panics =>
      r == Panics && p.connections == before && log == logBefore
    case Returns(id) =>
      if acquire.Fail? then
        r == Returns(Checkout(null, Err(acquire.message))) && p.connections == before
        && log == logBefore + [Acquired(null)]
      else
        acquired != null && fresh(acquired)
        && if tagging.Ok? then
          r == Returns(Checkout(acquired, Nil)) && p.connections == before + [acquired]
          && acquired.tag == id && !acquired.closed
          && log == logBefore + [Acquired(acquired), Ran(acquired, SetTenant(id))]
        else
          r == Returns(Checkout(null, Step(how, ErrorOf(closing), tagging.message))) && p.connections == before
          && acquired.closed
          && log == logBefore + [Acquired(acquired), Ran(acquired, SetTenant(id)), Closed(acquired)]
  }

  /**
   * The child context OpenPool hands back: the pool and the tenant id are
   * found in it, and every other key still finds what the parent held.
   */
  function PoolScope(ctx: Context<Pool>, p: Pool, tenantID: string): (r: Context<Pool>)
    ensures Lookup(r, PoolCtxKey) == Some(PoolValue(p))
    ensures Tenancy.GetID(r) == Returns(tenantID)
    ensures forall k :: k != PoolCtxKey && k != Tenancy.TenantIDKey ==> Lookup(r, k) == Lookup(ctx, k)
  {
    assert PoolCtxKey != Tenancy.TenantIDKey by { assert |PoolCtxKey.name| != |Tenancy.TenantIDKey.name|; }
    WithValue(WithValue(ctx, PoolCtxKey, PoolValue(p)), Tenancy.TenantIDKey, StringValue(tenantID))
  }

  /** The key OpenPool uses is not the one tenancy.Open uses, so tenancy.FromContext does not see this pool. */
  lemma OpenPoolHidesFromTenancy(ctx: Context<Pool>, p: Pool, tenantID: string)
    ensures Tenancy.FromContext(PoolScope(ctx, p, tenantID)) == Tenancy.FromContext(ctx)
  {
  }

  /** OpenPool(ctx, db, tenantID): an empty pool and a child context carrying it and the tenant id. */
  method OpenPool(ctx: Context<Pool>, db: Database, tenantID: string) returns (p: Pool, newCtx: Context<Pool>, err: GoError)
    ensures fresh(p) && p.Valid() && p.db == db && p.connections == []
    ensures newCtx == PoolScope(ctx, p, tenantID)
    ensures err == Nil
  {
    p := new Pool(db);
    newCtx := WithValue(ctx, PoolCtxKey, PoolValue(p));
    newCtx := WithValue(newCtx, Tenancy.TenantIDKey, StringValue(tenantID));
    err := Nil;
  }

  /** The driver calls ClosePool makes for one tracked entry: untag, and close only when untagging failed. */
  function ReleaseStep(c: DbConn?, untag: Outcome): seq<Event>
  {
    if c == null then []
    else if untag.Ok? then [Ran(c, Untag)]
    else [Ran(c, Untag), Closed(c)]
  }

  /** The driver calls ClosePool makes for the first `n` tracked entries, in list order. */
  function ClosePoolEvents(conns: seq<DbConn?>, n: nat, untag: seq<Outcome>): seq<Event>
    requires n <= |conns|
  {
    if n == 0 then [] else ClosePoolEvents(conns, n - 1, untag) + ReleaseStep(conns[n - 1], OutcomeAt(untag, n - 1))
  }

  /** The error texts one tracked entry adds: its untag's and, after a failed untag, its close's. */
  function ReleaseFailures(c: DbConn?, untag: Outcome, close: Outcome): seq<string>
  {
    if c == null || untag.Ok? then [] else [untag.message] + FailureText(close)
  }

  /** The error texts ClosePool meets on the first `n` tracked entries, in order. */
  function ClosePoolFailures(conns: seq<DbConn?>, n: nat, untag: seq<Outcome>, close: seq<Outcome>): seq<string>
    requires n <= |conns|
  {
    if n == 0 then []
    else ClosePoolFailures(conns, n - 1, untag, close) + ReleaseFailures(conns[n - 1], OutcomeAt(untag, n - 1), OutcomeAt(close, n - 1))
  }

  /** The error ClosePool's loop holds after the first `n` tracked entries. */
  function ClosePoolError(how: Folding, conns: seq<DbConn?>, n: nat, untag: seq<Outcome>, close: seq<Outcome>): GoError
    requires n <= |conns|
  {
    if n == 0 then Nil
    else
      var acc := ClosePoolError(how, conns, n - 1, untag, close);
      var u := OutcomeAt(untag, n - 1);
      if conns[n - 1] == null || u.Ok? then acc
      else Absorb(how, Step(how, acc, u.message), OutcomeAt(close, n - 1))
  }

  /** What one tracked entry does to ClosePool's error is folding in its failure texts. */
  lemma ReleaseIsFold(how: Folding, acc: GoError, c: DbConn?, untag: Outcome, close: Outcome)
    ensures (if c == null || untag.Ok? then acc else Absorb(how, Step(how, acc, untag.message), close))
            == Fold(how, acc, ReleaseFailures(c, untag, close))
  {
    if c != null && untag.Fail? {
      FoldAppend(how, acc, [untag.message], FailureText(close));
      AbsorbIsFold(how, acc, untag);
      AbsorbIsFold(how, Step(how, acc, untag.message), close);
    }
  }

  /** ClosePool's error is the fold of its failure texts, in the order they occur. */
  lemma {:induction false} ClosePoolErrorFoldsFailures(how: Folding, conns: seq<DbConn?>, n: nat, untag: seq<Outcome>, close: seq<Outcome>)
    requires n <= |conns|
    ensures ClosePoolError(how, conns, n, untag, close) == Accumulate(how, ClosePoolFailures(conns, n, untag, close))
  {
    if n > 0 {
      ClosePoolErrorFoldsFailures(how, conns, n - 1, untag, close);
      var c, u, cl := conns[n - 1], OutcomeAt(untag, n - 1), OutcomeAt(close, n - 1);
      var front := ClosePoolFailures(conns, n - 1, untag, close);
      assert ClosePoolFailures(conns, n, untag, close) == front + ReleaseFailures(c, u, cl);
      FoldAppend(how, Nil, front, ReleaseFailures(c, u, cl));
      ReleaseIsFold(how, Accumulate(how, front), c, u, cl);
    }
  }

  /** One iteration of ClosePool's loop on a non-nil entry: untag, and close only if that failed. */
  method Release(db: Database, conn: DbConn, untag: Outcome, close: Outcome, how: Folding, acc: GoError)
    returns (closingError: GoError)
    modifies db, conn
    ensures closingError == if untag.Ok? then acc else Absorb(how, Step(how, acc, untag.message), close)
    ensures conn.closed == (old(conn.closed) || untag.Fail?)
    ensures conn.tag == if untag.Ok? then "" else old(conn.tag)
    ensures db.log == old(db.log) + ReleaseStep(conn, untag)
  {
    closingError := acc;
    var err := db.SetTenantOn(conn, "", untag);
    if err.Err? {
      closingError := Step(how, closingError, err.message);
      err := db.CloseConn(conn, close);
      if err.Err? {
        closingError := Step(how, closingError, err.message);
      }
    }
  }

  /**
   * ClosePool's loop, with the way it folds each failure into the
   * accumulated error as a parameter (`Wrap` in the source).
   */
  method ClosePoolWith(p: Pool, untag: seq<Outcome>, close: seq<Outcome>, how: Folding)
    returns (err: GoError)
    requires p.Valid()
    modifies p.db, p.connections
    ensures err == ClosePoolError(how, p.connections, |p.connections|, untag, close)
    ensures p.db.log == old(p.db.log) + ClosePoolEvents(p.connections, |p.connections|, untag)
    ensures forall i :: 0 <= i < |p.connections| && p.connections[i] != null ==>
              p.connections[i].closed == (old(p.connections[i].closed) || OutcomeAt(untag, i).Fail?)
              && p.connections[i].tag == if OutcomeAt(untag, i).Ok? then "" else old(p.connections[i].tag)
  {
    var closingError := Nil;
    var conns, db := p.connections, p.db;
    for i := 0 to |conns|
      invariant closingError == ClosePoolError(how, conns, i, untag, close)
      invariant db.log == old(db.log) + ClosePoolEvents(conns, i, untag)
      invariant forall j :: 0 <= j < i && conns[j] != null ==>
                  conns[j].closed == (old(conns[j].closed) || OutcomeAt(untag, j).Fail?)
                  && conns[j].tag == if OutcomeAt(untag, j).Ok? then "" else old(conns[j].tag)
      invariant forall j :: i <= j < |conns| && conns[j] != null ==>
                  conns[j].closed == old(conns[j].closed) && conns[j].tag == old(conns[j].tag)
    {
      var conn := conns[i];
      if conn != null {
        closingError := Release(db, conn, OutcomeAt(untag, i), OutcomeAt(close, i), how, closingError);
      }
      AppendAssoc(old(db.log), ClosePoolEvents(conns, i, untag), ReleaseStep(conn, OutcomeAt(untag, i)));
      assert forall j :: 0 <= j < |conns| && j != i && conns[j] != null ==> conns[j] != conn;
    }
    err := closingError;
  }

  /**
   * ClosePool(ctx, tc) as written: every tracked connection gets an untag
   * attempt and only a failed one is followed by a close, so a connection
   * whose untag worked stays open. Failures are folded in with errors.Wrap
   * from a nil start, so the result is always nil.
   */
  method ClosePool(p: Pool, untag: seq<Outcome>, close: seq<Outcome>) returns (err: GoError)
    requires p.Valid()
    modifies p.db, p.connections
    ensures err == Nil
    ensures p.db.log == old(p.db.log) + ClosePoolEvents(p.connections, |p.connections|, untag)
    ensures forall i :: 0 <= i < |p.connections| && p.connections[i] != null ==>
              p.connections[i].closed == (old(p.connections[i].closed) || OutcomeAt(untag, i).Fail?)
              && p.connections[i].tag == if OutcomeAt(untag, i).Ok? then "" else old(p.connections[i].tag)
  {
    err := ClosePoolWith(p, untag, close, WrapEach);
    ClosePoolErrorFoldsFailures(WrapEach, p.connections, |p.connections|, untag, close);
    WrapLosesEveryFailure(ClosePoolFailures(p.connections, |p.connections|, untag, close));
  }

  /**
   * ClosePool as its comment intends: the same calls, but the result is nil
   * exactly when every untag succeeded, and names every failure.
   */
  method ClosePoolCombined(p: Pool, untag: seq<Outcome>, close: seq<Outcome>) returns (err: GoError)
    requires p.Valid()
    modifies p.db, p.connections
    ensures err.Nil? <==> forall i :: 0 <= i < |p.connections| && p.connections[i] != null ==> OutcomeAt(untag, i).Ok?
    ensures forall m :: m in ClosePoolFailures(p.connections, |p.connections|, untag, close) ==>
              err.Err? && Contains(err.message, m)
    ensures p.db.log == old(p.db.log) + ClosePoolEvents(p.connections, |p.connections|, untag)
    ensures forall i :: 0 <= i < |p.connections| && p.connections[i] != null ==>
              p.connections[i].closed == (old(p.connections[i].closed) || OutcomeAt(untag, i).Fail?)
              && p.connections[i].tag == if OutcomeAt(untag, i).Ok? then "" else old(p.connections[i].tag)
  {
    err := ClosePoolWith(p, untag, close, CombineEach);
    ClosePoolErrorFoldsFailures(CombineEach, p.connections, |p.connections|, untag, close);
    CombineKeepsEveryFailure(ClosePoolFailures(p.connections, |p.connections|, untag, close));
    ClosePoolFailuresEmptyIff(p.connections, |p.connections|, untag, close);
  }

  /** ClosePool meets no failure exactly when every non-nil entry untags cleanly; close outcomes never matter then. */
  lemma {:induction false} ClosePoolFailuresEmptyIff(conns: seq<DbConn?>, n: nat, untag: seq<Outcome>, close: seq<Outcome>)
    requires n <= |conns|
    ensures ClosePoolFailures(conns, n, untag, close) == [] <==>
              forall i :: 0 <= i < n && conns[i] != null ==> OutcomeAt(untag, i).Ok?
  {
    if n > 0 {
      ClosePoolFailuresEmptyIff(conns, n - 1, untag, close);
      var front := ClosePoolFailures(conns, n - 1, untag, close);
      var rest := ReleaseFailures(conns[n - 1], OutcomeAt(untag, n - 1), OutcomeAt(close, n - 1));
      assert rest == [] <==> conns[n - 1] == null || OutcomeAt(untag, n - 1).Ok?;
      assert |front + rest| == |front| + |rest|;
    }
  }

  /** ClosePool attempts an untag on every non-nil tracked connection. */
  lemma {:induction false} ClosePoolUntagsEveryConnection(conns: seq<DbConn?>, n: nat, untag: seq<Outcome>)
    requires n <= |conns|
    ensures forall i :: 0 <= i < n && conns[i] != null ==> Ran(conns[i], Untag) in ClosePoolEvents(conns, n, untag)
  {
    if n > 0 {
      ClosePoolUntagsEveryConnection(conns, n - 1, untag);
    }
  }

  /**
   * ClosePool closes a tracked connection exactly when its untag failed
   * (tracked connections being distinct); successfully untagged ones are
   * never handed back.
   */
  lemma {:induction false} ClosePoolClosesOnlyAfterFailedUntag(conns: seq<DbConn?>, n: nat, untag: seq<Outcome>)
    requires n <= |conns| && Distinct(conns)
    ensures forall i :: 0 <= i < n && conns[i] != null ==>
              (Closed(conns[i]) in ClosePoolEvents(conns, n, untag) <==> OutcomeAt(untag, i).Fail?)
  {
    if n > 0 {
      ClosePoolClosesOnlyAfterFailedUntag(conns, n - 1, untag);
      ClosePoolCallsOnlyTracked(conns, n - 1, untag);
      var last := conns[n - 1];
      var step := ReleaseStep(last, OutcomeAt(untag, n - 1));
      assert ClosePoolEvents(conns, n, untag) == ClosePoolEvents(conns, n - 1, untag) + step;
      forall i | 0 <= i < n && conns[i] != null
        ensures Closed(conns[i]) in ClosePoolEvents(conns, n, untag) <==> OutcomeAt(untag, i).Fail?
      {
        if i < n - 1 {
          assert conns[i] != last;
          assert Closed(conns[i]) !in step;
        }
      }
    }
  }

  /** Every call ClosePool makes on the first `n` entries concerns one of those entries. */
  lemma {:induction false} ClosePoolCallsOnlyTracked(conns: seq<DbConn?>, n: nat, untag: seq<Outcome>)
    requires n <= |conns|
    ensures forall e :: e in ClosePoolEvents(conns, n, untag) ==>
              ((e.Ran? && e.stmt == Untag) || e.Closed?) && exists k :: 0 <= k < n && conns[k] == e.conn
  {
    if n > 0 {
      ClosePoolCallsOnlyTracked(conns, n - 1, untag);
    }
  }
}
