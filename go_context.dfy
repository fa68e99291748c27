/** Go's `context.Context` as far as the authorisation layer uses it: a chain
    of `context.WithValue` links over `context.Background()`. A lookup walks
    the chain from the most recent link and compares keys by type and value,
    exactly as `Context.Value` does, so the key datatype lists the key types
    the code uses and the value datatype lists the dynamic types it stores. */
module GoContext {
  import opened Wrappers

  /** `shared_utilities.UserSessionData`, stored by value. */
  datatype UserSessionData = UserSessionData(userID: string, provider: string)

  /** `core_utilities.UserSessionData`, stored behind a pointer. */
  datatype CoreUserSessionData = CoreUserSessionData(userID: string)

  /** Context keys. The two session keys are the constant `session` of two
      distinct named string types (`contextKey` in shared_utilities and in
      core_utilities), so they never compare equal to each other nor to the
      plain string keys `"service_name"` and `"auth_type"`. */
  datatype Key = SharedSessionKey | CoreSessionKey | StringKey(name: string)

  /** The dynamic type and value stored under a key. */
  datatype Value =
    | SharedSession(data: UserSessionData)
    | CoreSessionPointer(target: CoreUserSessionData)
    | StringValue(s: string)
    | OtherValue

  datatype Context = Background | WithValue(parent: Context, key: Key, val: Value)

  /** `ctx.Value(k)`: the value of the most recent link whose key equals `k`,
      or `None` (Go's `nil`) when there is none. */
  function Lookup(ctx: Context, k: Key): Option<Value> {
    match ctx
    case Background => None
    case WithValue(parent, key, val) => if key == k then Some(val) else Lookup(parent, k)
  }

  /** `ctx.Value(StringKey(name)).(string)`: the string stored under a plain
      string key, if the most recent binding of that key holds a string. */
  function StringValueOf(ctx: Context, name: string): Option<string> {
    match Lookup(ctx, StringKey(name))
    case Some(StringValue(s)) => Some(s)
    case _ => None
  }
}
