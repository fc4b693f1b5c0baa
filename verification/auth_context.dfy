/** src/context/AuthContext.tsx: the session store. The in-memory user is
    mirrored to storage under "user" by an effect that runs after every
    change of the user; on mount a first effect restores the stored user.
    Each transition below is the settled result of one event with its
    effects run in React's order. */
module AuthContext {
  import opened Js
  import opened Types
  import opened AuthStorage

  /** The provider's state: the user (`null` is logged out) and the storage. */
  datatype Session = Session(user: Option<User>, storage: Storage)

  /** The storage mirrors the user: the key is present exactly when someone
      is logged in, and then holds that user stringified. */
  predicate Mirrors(c: Codec, s: Session)
  {
    && (UserKey in s.storage <==> s.user.Some?)
    && (s.user.Some? ==> s.storage[UserKey] == c.stringify(s.user.value))
  }

  /** Only the "user" key is ever touched. */
  predicate SameOtherKeys(a: Storage, b: Storage)
  {
    a - {UserKey} == b - {UserKey}
  }

  /** The persistence effect, run for the current user. */
  function Persist(c: Codec, s: Session): (s': Session)
    ensures s'.user == s.user
    ensures Mirrors(c, s')
    ensures SameOtherKeys(s.storage, s'.storage)
  {
    match s.user
    case Some(u) => Session(s.user, s.storage[UserKey := c.stringify(u)])
    case None => Session(None, s.storage - {UserKey})
  }

  /** The restore effect: the user `setUser` is called with (if any), and the
      storage after it. A non-empty stored value is parsed; a parse failure
      removes the key and leaves the user unset. */
  datatype Restored = Restored(user: Option<User>, storage: Storage)

  function Restore(c: Codec, storage: Storage): (r: Restored)
    ensures UserKey !in storage || storage[UserKey] == "" ==> r == Restored(None, storage)
    ensures UserKey in storage && storage[UserKey] != "" && c.parse(storage[UserKey]) == Malformed ==>
      r == Restored(None, storage - {UserKey})
    ensures UserKey in storage && storage[UserKey] != "" && c.parse(storage[UserKey]).ParsedUser? ==>
      r == Restored(Some(c.parse(storage[UserKey]).user), storage)
    ensures UserKey in storage && storage[UserKey] != "" && c.parse(storage[UserKey]) == ParsedNull ==>
      r == Restored(None, storage)
    ensures r.user.Some? ==> UserKey in storage && c.parse(storage[UserKey]) == ParsedUser(r.user.value)
  {
    if UserKey !in storage || storage[UserKey] == "" then Restored(None, storage)
    else
      match c.parse(storage[UserKey])
      case Malformed => Restored(None, storage - {UserKey})
      case ParsedNull => Restored(None, storage)
      case ParsedUser(u) => Restored(Some(u), storage)
  }

  /** Mounting the provider: the user starts as `null`; the restore effect
      runs, then the persistence effect for the still-`null` user, then,
      when a user was restored, the persistence effect again for it. */
  function Mount(c: Codec, storage: Storage): (s: Session)
    ensures Mirrors(c, s)
    ensures SameOtherKeys(storage, s.storage)
    ensures s.user == Restore(c, storage).user
  {
    var initial := Session(None, storage);
    var restored := Restore(c, initial.storage);
    var first := Persist(c, Session(initial.user, restored.storage));
    if restored.user.Some? then Persist(c, Session(restored.user, first.storage)) else first
  }

  /** `setUser(user)`: the user is replaced wholesale and then persisted. */
  function SetUser(c: Codec, s: Session, user: Option<User>): (s': Session)
    ensures s'.user == user
    ensures Mirrors(c, s')
    ensures SameOtherKeys(s.storage, s'.storage)
  {
    Persist(c, Session(user, s.storage))
  }

  /** `logout()`: the user becomes `null` and the key is removed. */
  function Logout(c: Codec, s: Session): (s': Session)
    ensures s'.user == None
    ensures UserKey !in s'.storage
    ensures SameOtherKeys(s.storage, s'.storage)
  {
    var cleared := Session(None, s.storage - {UserKey});
    if s.user.Some? then Persist(c, cleared) else cleared
  }

  /** Logging out twice is logging out once. */
  lemma LogoutIdempotent(c: Codec, s: Session)
    ensures Logout(c, Logout(c, s)) == Logout(c, s)
  {
  }

  /** Logging out is `setUser(null)`. */
  lemma LogoutIsSetNull(c: Codec, s: Session)
    ensures Logout(c, s) == SetUser(c, s, None)
  {
  }

  /** The last `setUser` wins. */
  lemma LastWriteWins(c: Codec, s: Session, u1: Option<User>, u2: Option<User>)
    ensures SetUser(c, SetUser(c, s, u1), u2) == SetUser(c, s, u2)
  {
    var a := SetUser(c, SetUser(c, s, u1), u2);
    var b := SetUser(c, s, u2);
    assert a.storage == b.storage;
  }

  /** A reload after logout finds nobody logged in. */
  lemma ReloadAfterLogout(c: Codec, s: Session)
    ensures Mount(c, Logout(c, s).storage).user == None
  {
  }

  /** A corrupt stored value restores to a clean logged-out state. */
  lemma CorruptValueLogsOut(c: Codec, storage: Storage)
    requires UserKey in storage && storage[UserKey] != ""
    requires c.parse(storage[UserKey]) == Malformed
    ensures Mount(c, storage).user == None
    ensures UserKey !in Mount(c, storage).storage
  {
  }

  /** A reload after `setUser(user)` restores that same user. */
  lemma ReloadRestoresUser(c: Codec, s: Session, user: Option<User>)
    requires user.Some? ==> RoundTrips(c, user.value)
    ensures Mount(c, SetUser(c, s, user).storage).user == user
  {
  }

  /** The session store and `getUser()` of src/lib/auth.ts agree: after
      `setUser(user)` the helper reads back exactly that user. */
  lemma GetUserSeesSession(c: Codec, s: Session, user: Option<User>)
    requires user.Some? ==> RoundTrips(c, user.value)
    ensures GetUser(c, SetUser(c, s, user).storage) == Found(user)
  {
  }
}
