/** core_utilities/context.go: the core package reads a pointer to its own
    one-field session record under its own key type. */
module CoreContext {
  import opened Wrappers
  import opened GoContext
  import opened GoHttp
  import SessionContext

  /** `GetUserIDFromContext` of core_utilities: the id and `true` only when a
      `*UserSessionData` is stored under the core key and its id is
      non-empty. */
  function GetUserIDFromContext(r: Request): (res: (string, bool))
    ensures res.1 <==> exists d :: Lookup(r.ctx, CoreSessionKey) == Some(CoreSessionPointer(d)) && d.userID != ""
    ensures res.1 ==> Lookup(r.ctx, CoreSessionKey) == Some(CoreSessionPointer(CoreUserSessionData(res.0)))
    ensures !res.1 ==> res.0 == ""
  {
    match Lookup(r.ctx, CoreSessionKey)
    case Some(CoreSessionPointer(d)) => if d.userID == "" then ("", false) else (d.userID, true)
    case _ => ("", false)
  }

  /** Session data stored by shared_utilities (a value, under the other
      package's key type) is invisible to the core reader. */
  lemma SharedSessionInvisible(r: Request, d: UserSessionData)
    ensures GetUserIDFromContext(r.(ctx := SessionContext.SetSessionDataInContext(r.ctx, d)))
         == GetUserIDFromContext(r)
  {
  }

  /** A record with an id, stored under the core key, is read back. */
  lemma StoredPointerRead(r: Request, id: string)
    requires id != ""
    ensures GetUserIDFromContext(r.(ctx := WithValue(r.ctx, CoreSessionKey, CoreSessionPointer(CoreUserSessionData(id))))) == (id, true)
  {
  }
}
