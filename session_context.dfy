/** Typed storage of the session record in a request context
    (shared_utilities/context.go). The record is stored by value under the
    package's own `contextKey("session")`. */
module SessionContext {
  import opened Wrappers
  import opened GoContext
  import opened GoHttp

  /** `SetSessionDataInContext`: a new context in which the session slot
      holds `d` and every other key is bound as before. */
  function SetSessionDataInContext(ctx: Context, d: UserSessionData): (r: Context)
    ensures GetSessionDataFromContext(r) == Some(d)
    ensures forall k :: k != SharedSessionKey ==> Lookup(r, k) == Lookup(ctx, k)
  {
    WithValue(ctx, SharedSessionKey, SharedSession(d))
  }

  /** `GetSessionDataFromContext`: the record in the session slot, if the
      slot holds a shared-session record. */
  function GetSessionDataFromContext(ctx: Context): Option<UserSessionData> {
    match Lookup(ctx, SharedSessionKey)
    case Some(SharedSession(d)) => Some(d)
    case _ => None
  }

  /** `GetUserIDFromContext`: the user id and `true` when a record is stored
      and its id is non-empty, `("", false)` otherwise. */
  function GetUserIDFromContext(r: Request): (res: (string, bool))
    ensures res.1 <==> GetSessionDataFromContext(r.ctx).Some? && GetSessionDataFromContext(r.ctx).value.userID != ""
    ensures res.1 ==> res.0 == GetSessionDataFromContext(r.ctx).value.userID
    ensures !res.1 ==> res.0 == ""
  {
    match GetSessionDataFromContext(r.ctx)
    case Some(d) => if d.userID == "" then ("", false) else (d.userID, true)
    case None => ("", false)
  }

  /** `GetProviderFromContext`: the stored provider, even an empty one, or ""
      when no record is stored. */
  function GetProviderFromContext(ctx: Context): (p: string)
    ensures GetSessionDataFromContext(ctx).Some? ==> p == GetSessionDataFromContext(ctx).value.provider
    ensures GetSessionDataFromContext(ctx).None? ==> p == ""
  {
    match GetSessionDataFromContext(ctx)
    case Some(d) => d.provider
    case None => ""
  }

  /** A second store shadows the first: the most recent record is read back. */
  lemma SetShadows(ctx: Context, d1: UserSessionData, d2: UserSessionData)
    ensures GetSessionDataFromContext(SetSessionDataInContext(SetSessionDataInContext(ctx, d1), d2)) == Some(d2)
  {
  }

  /** Storing a record leaves the plain string slots (`service_name`,
      `auth_type`) as they were. */
  lemma SetKeepsStringSlots(ctx: Context, d: UserSessionData, name: string)
    ensures StringValueOf(SetSessionDataInContext(ctx, d), name) == StringValueOf(ctx, name)
  {
  }

  /** Binding any other key leaves the stored record readable. */
  lemma OtherBindingKeepsSession(ctx: Context, k: Key, v: Value)
    requires k != SharedSessionKey
    ensures GetSessionDataFromContext(WithValue(ctx, k, v)) == GetSessionDataFromContext(ctx)
  {
  }

  /** A non-record value under the session key reads as "no session":
      the type assertion fails. */
  lemma WrongTypeIsAbsent(ctx: Context, v: Value)
    requires !v.SharedSession?
    ensures GetSessionDataFromContext(WithValue(ctx, SharedSessionKey, v)).None?
  {
  }
}
