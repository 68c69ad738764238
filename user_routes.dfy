/**
 * The users router: every route sits behind the session gate, and the one
 * route, PUT /profile, overwrites the caller's username and password with the
 * submitted values that are truthy.
 */
module UserRoutes {
  import opened Wrappers
  import opened UserStore
  import opened Responses

  const ProfileUpdated := "Profile updated successfully"

  /** JavaScript truthiness of a submitted string field (missing or empty is falsy). */
  predicate Truthy(field: Option<string>): (given: bool)
    ensures given <==> field.Some? && |field.value| > 0
  {
    field.Some? && field.value != ""
  }

  /** The record after the handler's two conditional assignments. */
  function Patched(u: StoredUser, username: Option<string>, password: Option<string>): (r: StoredUser)
    ensures r.id == u.id && r.email == u.email
    ensures r.username == (if Truthy(username) then username.value else u.username)
    ensures r.password == (if Truthy(password) then password.value else u.password)
  {
    var named := if Truthy(username) then u.(username := username.value) else u;
    if Truthy(password) then named.(password := password.value) else named
  }

  /** Submitting nothing truthy leaves the record as it was, and patching twice
      with the same fields is patching once. */
  lemma PatchedIdempotent(u: StoredUser, username: Option<string>, password: Option<string>)
    ensures !Truthy(username) && !Truthy(password) ==> Patched(u, username, password) == u
    ensures Patched(Patched(u, username, password), username, password) == Patched(u, username, password)
  {
  }

  /**
   * PUT /profile for the caller the session gate identified as `callerId`.
   * `fault` is the message of an error raised by the store while loading or
   * saving; it answers 400 and nothing is saved.
   */
  method UpdateProfile(users: UserCollection, callerId: string,
                       username: Option<string>, password: Option<string>, fault: Option<string>)
    returns (reply: Reply)
    requires users.Valid()
    requires IndexOfId(users.records, callerId).Some?
    modifies users
    ensures users.Valid()
    ensures fault.Some? ==> users.records == old(users.records) && reply == ErrorReply(400, fault.value)
    ensures fault.None? ==>
      var at := IndexOfId(old(users.records), callerId).value;
      var updated := Patched(old(users.records)[at], username, password);
      && users.records == old(users.records)[at := updated]
      && reply == Reply(200, ProfileBody(ProfileUpdated, PublicUser(callerId, updated.username, updated.email)), None)
  {
    if fault.Some? {
      reply := ErrorReply(400, fault.value);
      return;
    }
    var at := IndexOfId(users.records, callerId).value;
    var user := users.records[at];
    if Truthy(username) {
      user := user.(username := username.value);
    }
    if Truthy(password) {
      user := user.(password := password.value);
    }
    users.Save(at, user);
    reply := Reply(200, ProfileBody(ProfileUpdated, Public(user)), None);
  }
}
