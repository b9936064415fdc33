/**
 * The single-user session table (`_state` in main.py) as a value, with the
 * three operations the application performs on it: a partial merge of
 * keyword arguments (`set_state`), a reset (`clear_state`) and a read
 * (`state`). The class in store.dfy holds this record in mutable fields and
 * is proved to behave as these functions say.
 *
 * Python's dict can hold a key mapped to None or not hold it at all; the
 * only reader, `state`, answers None in both cases, so both are `Null` here.
 */
module Session {
  import opened Values

  /** The four keys `set_state` recognises. */
  const AccessTokenKey := "access_token"
  const RefreshTokenKey := "refresh_token"
  const UserKey := "user"
  const FieldsKey := "fields"
  const Keys: set<string> := {AccessTokenKey, RefreshTokenKey, UserKey, FieldsKey}

  datatype Session = Session(accessToken: Value, refreshToken: Value, user: Value, fields: Value)

  /** The table as the process starts it: nothing stored. */
  const Empty := Session(Null, Null, Null, Null)

  /** `state(key)`: the stored value, or None for a key never stored. */
  function Get(s: Session, key: string): (v: Value)
    ensures key !in Keys ==> v == Null
  {
    if key == AccessTokenKey then s.accessToken
    else if key == RefreshTokenKey then s.refreshToken
    else if key == UserKey then s.user
    else if key == FieldsKey then s.fields
    else Null
  }

  /** `set_state(**kwargs)`: each recognised key among the keyword arguments
      overwrites its entry; every other entry keeps its value, and keyword
      arguments with other names are ignored. */
  function Set(s: Session, kwargs: map<string, Value>): (r: Session)
    ensures forall k :: k in Keys && k in kwargs ==> Get(r, k) == kwargs[k]
    ensures forall k :: k !in kwargs ==> Get(r, k) == Get(s, k)
  {
    Session(
      if AccessTokenKey in kwargs then kwargs[AccessTokenKey] else s.accessToken,
      if RefreshTokenKey in kwargs then kwargs[RefreshTokenKey] else s.refreshToken,
      if UserKey in kwargs then kwargs[UserKey] else s.user,
      if FieldsKey in kwargs then kwargs[FieldsKey] else s.fields)
  }

  /** The keyword arguments `clear_state` passes to `set_state`. */
  const ClearArgs: map<string, Value> :=
    map[AccessTokenKey := Null, RefreshTokenKey := Null, UserKey := Null, FieldsKey := Null]

  /** `clear_state()`: every key reads None again, as at process start. */
  function Clear(s: Session): (r: Session)
    ensures r == Empty
    ensures forall k :: Get(r, k) == Null
  {
    Set(s, ClearArgs)
  }

  /** Before anything is stored every key reads None. */
  lemma EmptyReadsNone(k: string)
    ensures Get(Empty, k) == Null
  {
  }

  /** `set_state` ignores keyword arguments whose names it does not
      recognise: dropping them changes nothing. */
  lemma SetIgnoresUnrecognised(s: Session, kwargs: map<string, Value>)
    ensures Set(s, kwargs) == Set(s, map k | k in kwargs && k in Keys :: kwargs[k])
  {
  }

  /** Setting only the access token leaves the refresh token (and the rest)
      as it was. */
  lemma SetAccessTokenKeepsRefreshToken(s: Session, t: Value)
    ensures Get(Set(s, map[AccessTokenKey := t]), AccessTokenKey) == t
    ensures Get(Set(s, map[AccessTokenKey := t]), RefreshTokenKey) == Get(s, RefreshTokenKey)
    ensures Get(Set(s, map[AccessTokenKey := t]), UserKey) == Get(s, UserKey)
    ensures Get(Set(s, map[AccessTokenKey := t]), FieldsKey) == Get(s, FieldsKey)
  {
  }

  /** Two calls in a row are one call with the merged arguments, the later
      call winning where both name a key. */
  lemma SetSequence(s: Session, first: map<string, Value>, second: map<string, Value>)
    ensures Set(Set(s, first), second) == Set(s, first + second)
  {
  }

  /** Repeating a call changes nothing further. */
  lemma SetIdempotent(s: Session, kwargs: map<string, Value>)
    ensures Set(Set(s, kwargs), kwargs) == Set(s, kwargs)
  {
  }
}
