/** src/lib/auth.ts: the three helpers over the browser's key-value storage,
    all on the single key "user". `JSON.stringify` and `JSON.parse` of the
    user are the two halves of a `Codec`; `RoundTrips` states the round trip
    the JavaScript runtime provides for values of the `User` shape. */
module AuthStorage {
  import opened Js
  import opened Types

  const UserKey := "user"

  /** `localStorage`: string keys to string values. */
  type Storage = map<string, string>

  /** What `JSON.parse` makes of a stored string: a syntax error, `null`, or
      a user. */
  datatype Parsed = Malformed | ParsedNull | ParsedUser(user: User)

  datatype Codec = Codec(stringify: User -> string, parse: string -> Parsed)

  /** Parsing what was stringified gives this user back, and the stringified
      user is not the empty string. It is stated per user: the runtime's
      numbers are doubles, so no codec could round-trip every `real`. */
  predicate RoundTrips(c: Codec, u: User)
  {
    c.parse(c.stringify(u)) == ParsedUser(u) && c.stringify(u) != ""
  }

  /** Every user has a codec that round-trips it, so the lemmas that assume
      one are about real cases. */
  lemma SomeCodecRoundTrips(u: User)
    ensures RoundTrips(Codec(x => "u", t => ParsedUser(u)), u)
  {
  }

  /** What `getUser()` returns, or that it throws the parse error. */
  datatype Read = Found(user: Option<User>) | ParseThrows

  /** `saveUser(user)`. */
  function SaveUser(c: Codec, s: Storage, user: User): (s': Storage)
    ensures s'.Keys == s.Keys + {UserKey}
    ensures s'[UserKey] == c.stringify(user)
    ensures forall k :: k in s && k != UserKey ==> s'[k] == s[k]
  {
    s[UserKey := c.stringify(user)]
  }

  /** `getUser()`: an absent or empty value reads as no user; a malformed
      value makes it throw, with no recovery. */
  function GetUser(c: Codec, s: Storage): (r: Read)
    ensures UserKey !in s || s[UserKey] == "" ==> r == Found(None)
    ensures UserKey in s && s[UserKey] != "" ==>
      (r == ParseThrows <==> c.parse(s[UserKey]) == Malformed)
    ensures UserKey in s && s[UserKey] != "" && c.parse(s[UserKey]).ParsedUser? ==>
      r == Found(Some(c.parse(s[UserKey]).user))
    ensures UserKey in s && s[UserKey] != "" && c.parse(s[UserKey]) == ParsedNull ==> r == Found(None)
  {
    if UserKey !in s || s[UserKey] == "" then Found(None)
    else
      match c.parse(s[UserKey])
      case Malformed => ParseThrows
      case ParsedNull => Found(None)
      case ParsedUser(u) => Found(Some(u))
  }

  /** `clearUser()`. */
  function ClearUser(s: Storage): (s': Storage)
    ensures s'.Keys == s.Keys - {UserKey}
    ensures forall k :: k in s' ==> s'[k] == s[k]
  {
    s - {UserKey}
  }

  /** What was saved is what is read back. */
  lemma SaveThenGet(c: Codec, s: Storage, user: User)
    requires RoundTrips(c, user)
    ensures GetUser(c, SaveUser(c, s, user)) == Found(Some(user))
  {
  }

  /** After clearing, no user is read. */
  lemma ClearThenGet(c: Codec, s: Storage)
    ensures GetUser(c, ClearUser(s)) == Found(None)
  {
  }

  /** A later save replaces an earlier one. */
  lemma SaveOverwrites(c: Codec, s: Storage, u1: User, u2: User)
    ensures SaveUser(c, SaveUser(c, s, u1), u2) == SaveUser(c, s, u2)
  {
  }
}
