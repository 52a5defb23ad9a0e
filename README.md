# Tenant-scoped database connections, modelled in Dafny

This project models the core of `common-fate/tenancy`. That Go package
isolates tenants in a shared PostgreSQL database.

- A *tenant pool* checks out physical connections.
- It tags each connection's session with the tenant id (`select set_tenant($1)`).
- It tracks every connection it checked out.
- On close, it untags and releases all of them.

The pool and the tenant id travel in a `context.Context`. The model also covers:

- the older pool in `pool.go` (`OpenPool`, `CheckoutConn`, `ClosePool`);
- the row-level-security audit command in `cmd/main.go`.

Modules, one per file:

| module | file | contents |
|---|---|---|
| `GoRuntime` | `go_runtime.dfy` | Go's nil-able `error`, `errors.Wrap` of github.com/pkg/errors, calls that panic (`Call<T>`), and the fold used by the cleanup loops |
| `GoStrings` | `go_strings.dfy` | `strings.Trim`, `strings.Split` and `strings.Join`, for the one-character cutset and separator the audit passes |
| `Driver` | `driver.dfy` | the part of `database/sql` the core calls (see below) |
| `Scope` | `scope.dfy` | `context.Context` as an immutable chain of `WithValue` entries, looked up innermost first |
| `Tenancy` | `tenancy.dfy` | `tenancy.go`: options, `Open`, `FromContext`, `GetID`, `Pool.Conn`, the executor methods, `Close` |
| `LegacyPool` | `legacy_pool.dfy` | `pool.go` |
| `RlsAudit` | `rls_audit.dfy` | `cmd/main.go`: ignore-list parsing, the scan loop, the verdict |

`Driver` models the database like this:

- A physical connection is a `DbConn` object with two fields: the session's tenant `tag`, and whether it was `closed`.
- Every driver call takes its outcome (`Ok` or `Fail(message)`) as a parameter.
- A ghost log records every driver call the core makes, in order.
- Contracts state the log after a call, so "which statements ran, on which connection, in which order" is part of what is proved.

Cleanup outcomes come as per-position lists. `OutcomeAt` answers `Ok` past the end of a list.

`tenancy.go` and `pool.go` both declare a type named `Pool` in package `tenancy`. The model keeps them in separate modules, `Tenancy.Pool` and `LegacyPool.Pool`.

Where the package's documented behaviour and its code disagree, the model follows the code:

- `Pool.Exec`, `Pool.Query` and `Pool.QueryRow` (no context) do not check out a tagged connection. They go straight to the underlying `*sql.DB` (`Tenancy.Pool.Statement`).
- `Close` does not report the failures it meets (see Findings).

## Model

| member | source | states |
|---|---|---|
| `GoRuntime.Wrap` | tenancy.go:77 | errors.Wrap is nil exactly when the error it wraps is nil, and otherwise reads "message: " followed by that error's text |
| `GoRuntime.WrapLosesEveryFailure` | tenancy.go:77-81 | folding any list of failure messages into a nil error with errors.Wrap stays nil |
| `GoRuntime.CombineKeepsEveryFailure` | tenancy.go:85 | folding with Combine is nil exactly when there was no failure, and the result's text contains every failure message |
| `GoStrings.Split` | cmd/main.go:37 | strings.Split always yields at least one piece |
| `GoStrings.Trim` | cmd/main.go:37 | strings.Trim never lengthens its input and leaves a string that neither starts nor ends with the cutset as it is |
| `GoStrings.TrimRemovesOnlyTheEnds` | cmd/main.go:37 | strings.Trim yields a slice of the input with only the trimmed character outside it, and the slice neither starts nor ends with that character |
| `GoStrings.JoinSplit` | cmd/main.go:37 | joining the pieces of a split with the separator gives back the string |
| `GoStrings.SplitPiecesLackSeparator` | cmd/main.go:37 | no piece of a split holds the separator |
| `GoStrings.Join` | cmd/main.go:90 | strings.Join of no parts is empty, and otherwise starts with the first part |
| `Scope.Lookup` | tenancy.go:91 | ctx.Value(key) is nil exactly when no entry of the context chain uses key |
| `Driver.Database.Acquire` | tenancy.go:180 | db.Conn gives a fresh, open connection or the driver's error, and logs the call; nothing is promised about the session's tag, which a reused physical session may still carry |
| `Driver.Database.SetTenantOn` | tenancy.go:184 | set_tenant changes the session's tag only on success and is logged on that connection |
| `Driver.Database.RunOn` | tenancy.go:132 | an application statement leaves the session unchanged and is logged on that connection |
| `Driver.Database.CloseConn` | tenancy.go:186 | conn.Close marks the connection closed whatever the driver answers, keeps its tag, and is logged |
| `Driver.Database.BeginOn` | tenancy.go:166 | conn.BeginTx yields a transaction on that connection only on success, and is logged |
| `Driver.Database.RunUnscoped` | tenancy.go:110 | a statement on the *sql.DB itself is logged as running on no tracked connection |
| `Tenancy.Apply` | tenancy.go:50-52 | running WithSingleConnection() on any options turns single-connection mode on |
| `Tenancy.ApplyOptions` | tenancy.go:57-60 | the options loop enables single-connection mode exactly when WithSingleConnection() is among the options |
| `Tenancy.FromContext` | tenancy.go:89-92 | FromContext returns exactly when a pool is stored under the pool key, and returns that pool; it panics on a context that no Open has extended |
| `Tenancy.GetID` | tenancy.go:94-97 | GetID returns exactly when a string is stored under the tenant-id key, and returns that string; it panics on a context without a tenant id |
| `Tenancy.ChildScope` | tenancy.go:63-64 | in Open's child context FromContext yields the pool and GetID the tenant id, and every other key finds what the parent held |
| `Tenancy.Pool.constructor` | tenancy.go:62 | a new pool tracks no connection |
| `Tenancy.Open` | tenancy.go:56-67 | Open returns a fresh empty pool with the parsed options, the child context, and a nil error; no connection is acquired |
| `Tenancy.Pool.Conn` | tenancy.go:172-196 | covers every path. Single mode with a tracked connection returns connections[0] and calls nothing. A missing tenant id panics before any driver call. An acquire failure returns its error. A tag failure closes the fresh connection, leaves the tracked list unchanged and returns the tag error, possibly combined with the close error. Otherwise the tagged connection is appended and returned. The list stays duplicate-free |
| `Tenancy.Pool.Statement` | tenancy.go:109-121 | the no-context executor methods run on the *sql.DB, never on a tagged connection, and leave the tracked list unchanged |
| `Tenancy.Pool.StatementContext` | tenancy.go:124-145 | ExecContext/QueryContext pass a checkout panic or error through unchanged with no further call, answer "conn was nil" for a nil connection, and otherwise run the statement on the checked-out connection |
| `Tenancy.Pool.QueryRowContext` | tenancy.go:148-155 | QueryRowContext panics exactly when the checkout panics, fails or gives a nil connection, and otherwise runs the query on the checked-out connection |
| `Tenancy.Pool.BeginTx` | tenancy.go:158-168 | BeginTx passes a checkout error through with a nil *TTx, answers "conn was nil" for a nil connection, and otherwise begins on the checked-out connection, returning a *TTx even when beginning failed |
| `Tenancy.Release` | tenancy.go:74-83 | one entry of Close: an untag and then a close are issued regardless of the untag's outcome |
| `Tenancy.CloseWith` | tenancy.go:70-87 | Close's loop: its error is the fold of the failures; the calls are an untag then a close per non-nil entry, in list order; every tracked connection ends closed, untagged exactly when its untag succeeded |
| `Tenancy.CloseErrorFoldsFailures` | tenancy.go:71-84 | the error the loop accumulates equals folding the list of failure texts in the order they occur |
| `Tenancy.Close` | tenancy.go:70-87 | Close as written: the calls and final states of CloseWith, and the result is always nil |
| `Tenancy.CloseCombined` | tenancy.go:85-86 | corrected Close: the result is nil exactly when every untag and close succeeded, and it names every failure |
| `Tenancy.CloseAttemptsEveryConnection` | tenancy.go:72-83 | every non-nil tracked connection gets an untag and a close, even when earlier ones failed |
| `Tenancy.CloseTouchesOnlyTracked` | tenancy.go:72-83 | Close issues only untags and closes, and only on tracked connections |
| `Tenancy.CloseFailuresEmptyIff` | tenancy.go:85-86 | Close meets no failure exactly when every non-nil entry untags and closes cleanly |
| `Tenancy.SingleConnectionReuses` | tests/configuration_test.go:22-34 | in single-connection mode two consecutive checkouts return the same tagged connection |
| `Tenancy.DefaultModeOpensAnew` | tests/configuration_test.go:36-48 | by default two consecutive checkouts return distinct connections, each tagged with the tenant id |
| `LegacyPool.Pool.constructor` | pool.go:76 | a new legacy pool tracks no connection |
| `LegacyPool.Pool.CheckoutConnWith` | pool.go:105-118 | CheckoutConn's paths: GetID first (it panics without a tenant id), then acquire, tag, and track only on success; on a tag failure the connection is closed and untracked |
| `LegacyPool.Pool.CheckoutConn` | pool.go:111-115 | as written: a tag failure followed by a successful close returns a nil connection and a nil error |
| `LegacyPool.Pool.CheckoutConnCorrected` | pool.go:111-115 | corrected: a checkout that returns gives a connection exactly when it gives no error; a tag failure always reports the tag error, wrapping the close error when there is one |
| `LegacyPool.Pool.Statement` | pool.go:21-33 | the no-context methods run on the *sql.DB and leave the tracked list unchanged |
| `LegacyPool.Pool.StatementContext` | pool.go:36-51 | a checkout error comes back unchanged. A nil connection with a nil error panics. Otherwise the statement runs on the checked-out connection. With the corrected checkout, the call panics exactly when the context has no tenant id |
| `LegacyPool.Pool.QueryRowContext` | pool.go:54-61 | panics exactly when the checkout panics, fails or gives a nil connection; otherwise runs the query on the checked-out connection |
| `LegacyPool.Pool.BeginTx` | pool.go:64-71 | a checkout error comes back with a nil *TTx. A nil connection panics. Otherwise a transaction is begun on the checked-out connection. With the corrected checkout, the call panics exactly when the context has no tenant id |
| `LegacyPool.PoolScope` | pool.go:77-78 | OpenPool's child context holds the pool under its own key and the tenant id, and every other key finds what the parent held |
| `LegacyPool.OpenPoolHidesFromTenancy` | pool.go:15 | the legacy pool's key differs from tenancy.go's, so tenancy.FromContext on OpenPool's context sees what it saw before |
| `LegacyPool.OpenPool` | pool.go:75-80 | OpenPool returns a fresh empty pool, the child context and a nil error |
| `LegacyPool.Release` | pool.go:87-96 | one entry of ClosePool: untag, and close only when the untag failed |
| `LegacyPool.ClosePoolWith` | pool.go:83-101 | ClosePool's loop. Its error is the fold of the failures. The calls come in list order. Each connection ends closed exactly when its untag failed, and untagged exactly when its untag succeeded |
| `LegacyPool.ClosePoolErrorFoldsFailures` | pool.go:84-97 | the error the loop accumulates equals folding its failure texts in order |
| `LegacyPool.ClosePool` | pool.go:83-101 | ClosePool as written: the calls and final states of ClosePoolWith, and the result is always nil |
| `LegacyPool.ClosePoolCombined` | pool.go:99-100 | corrected ClosePool: nil exactly when every untag succeeded, naming every failure |
| `LegacyPool.ClosePoolFailuresEmptyIff` | pool.go:99-100 | ClosePool meets no failure exactly when every non-nil entry untags cleanly; close outcomes never count then |
| `LegacyPool.ClosePoolUntagsEveryConnection` | pool.go:85-88 | every non-nil tracked connection gets an untag |
| `LegacyPool.ClosePoolClosesOnlyAfterFailedUntag` | pool.go:88-95 | for a duplicate-free list, a tracked connection is closed exactly when its untag failed; successfully untagged connections are never closed |
| `LegacyPool.ClosePoolCallsOnlyTracked` | pool.go:85-96 | ClosePool issues only untags and closes, and each concerns a tracked entry |
| `RlsAudit.IgnoreList` | cmd/main.go:37 | no ignore-list entry holds a comma, and rejoining the entries with commas gives the trimmed flag |
| `RlsAudit.IgnoreListKeepsInnerSpaces` | cmd/main.go:37 | spaces after a comma are kept: with "a, b" the entries are "a" and " b", so table "b" is not ignored |
| `RlsAudit.IsIgnored` | cmd/main.go:75-82 | the inner loop with its break finds a table exactly when its name is on the ignore list |
| `RlsAudit.FirstScanError` | cmd/main.go:66-72 | the first failed scan, preceded only by successful ones, or none when every scan succeeded |
| `RlsAudit.Audit` | cmd/main.go:32-96 | run()'s verdict: an open failure comes first, then a query failure; when a scan fails the error is that of the first failed scan, every earlier scan having succeeded |
| `RlsAudit.Run` | cmd/main.go:32-96 | run() returns the open error, the query error, the first scan error, or else the report of insecure tables, or nil |
| `RlsAudit.InsecureTablesListsExactly` | cmd/main.go:74-86 | a name is collected exactly when some scanned row with that name has row security off and is not ignored |
| `RlsAudit.JoinContainsEach` | cmd/main.go:90 | every table name occurs in strings.Join's result |
| `RlsAudit.AuditNilIff` | cmd/main.go:89-95 | run() returns nil exactly when opening, the query and every scan succeed and every table has row security or is ignored |
| `RlsAudit.AuditNamesEveryInsecureTable` | cmd/main.go:89-91 | when every scan succeeds, each insecure table makes run() fail with a report naming it |

## Left out

- Concurrency: the mutex around the tracked list (tenancy.go:37-39, 192-193) is not modelled; every call runs alone.
- The single-connection check-then-act race is not modelled, for the same reason.
- Deadlines and cancellation carried by the context are not modelled; only its values are.
- Go's real database driver is replaced by outcome parameters. Examples: `sql.ErrConnDone`, pool exhaustion, driver-side retries.
- Driver.Database.Acquire: the tag of a newly acquired connection is left unconstrained. database/sql may hand out a physical session that an earlier connection left tagged, so no contract assumes an untagged session.
- A failed untag leaves the tag unchanged in the model. What a real session holds after a failed statement is not known to the core.
- Statement arguments, `sql.Result`, `*sql.Rows` and `*sql.Row` are not modelled. A statement's result is its error value.
- `Exec` and `Query` are one method with a `Kind` parameter, since their code is identical but for the call.
- The `Conn` wrapper type's methods (tenancy.go:199-216) are plain delegations to `*sql.Conn` and are not modelled.
- The `isTenantScoped` marker methods have no behaviour and are not modelled.
- `ErrNoTenantSet` (tenancy.go:19) is declared but never used by the core.
- Tenancy.ApplyOptions: `PoolOption` (tenancy.go:47) is an exported function type, but the model has only the package's own `WithSingleConnection()`. Two cases are lost. A nil option panics at tenancy.go:59. A caller-written option can do anything to the options, for example reset them after `WithSingleConnection()`, so the flag is then not set.
- Scope.Lookup: a `WithValue` entry that stores nil is not modelled. The package never stores one.
- `executor.go`'s interfaces and the HTTP middleware are not part of this model.
- `cmd/main.go`: flag parsing and the connection string are not modelled.
- `cmd/main.go`: the printing and `os.Exit` are not modelled. `Run` returns the error `run()` returns.
- `cmd/main.go`: only the `tablename` and `rowsecurity` columns of a row are modelled. A scan of the other columns shows up only through the scan's outcome.
- `cmd/main.go`: `rows.Err()` is never consulted by the source. An iteration failure looks like the end of the rows, so the scan list simply ends.
- RlsAudit.Run: `fmt.Errorf`'s formatting is modelled as string concatenation for the one `%s` it fills.
- Tenancy.Pool.Conn: the `fmt.Errorf` of tenancy.go:188 is modelled as string concatenation, taking the `%s` of an error to be its text (close message first, tag message second, as in the source).
- GoStrings.Split: like `GoStrings.Trim`, it models only the one-character cutset and separator that cmd/main.go passes.

## Findings

| source | as written | input that shows it | evidently intended | confidence | as-written member | corrected member |
|---|---|---|---|---|---|---|
| tenancy.go:77-81 | `closingError = errors.Wrap(closingError, err.Error())` with `closingError` starting nil; `errors.Wrap(nil, …)` is nil, so the error stays nil | a pool with one connection whose untag fails: Close returns nil | return an error naming every failure, as the comment at tenancy.go:85 says | medium, not executed | `Tenancy.Close` | `Tenancy.CloseCombined` |
| pool.go:90-93 | the same wrap-from-nil accumulation in ClosePool | a pool with one connection whose untag fails: ClosePool returns nil | return an error naming every failure (comment at pool.go:99) | medium, not executed | `LegacyPool.ClosePool` | `LegacyPool.ClosePoolCombined` |
| pool.go:113-114 | `errors.Wrap(closeError, err.Error())` when the close succeeded is nil, so CheckoutConn returns (nil, nil); ExecContext / QueryContext / QueryRowContext / BeginTx then call a method on the nil connection and panic | tenant id present, acquire ok, set_tenant fails, close ok | return the tag error, wrapped with the close error when there is one | high, not executed | `LegacyPool.Pool.CheckoutConn` | `LegacyPool.Pool.CheckoutConnCorrected` |
