/**
 * context.Context reduced to what the tenancy package uses: an immutable chain
 * of key/value entries, each child made by context.WithValue from its parent.
 * The type of the pool stored in a context is the parameter P.
 */
module Scope {
  import opened GoRuntime

  /**
   * A context key. The package's keys are distinct *contextKey pointers, told
   * apart here by their names; keys of other packages have other Go types and
   * so never equal one of them.
   */
  datatype Key = ContextKey(name: string) | ForeignKey(id: nat)

  /** A value stored in a context: a pool, a string, or something of another Go type. */
  datatype Value<P> = PoolValue(pool: P) | StringValue(s: string) | ForeignValue

  /** A context: the background root, or a parent extended by one entry. */
  datatype Context<P> = Background | WithValue(parent: Context<P>, key: Key, val: Value<P>)

  /** ctx.Value(key): the innermost entry for `key`, or nil. */
  function Lookup<P>(ctx: Context<P>, key: Key): (r: Option<Value<P>>)
    ensures r.None? <==> Lacks(ctx, key)
  {
    match ctx
    case Background => None
    case WithValue(parent, k, v) => if k == key then Some(v) else Lookup(parent, key)
  }

  /** A context no entry of which uses `key`. */
  predicate Lacks<P>(ctx: Context<P>, key: Key)
  {
    match ctx
    case Background => true
    case WithValue(parent, k, _) => k != key && Lacks(parent, key)
  }
}
