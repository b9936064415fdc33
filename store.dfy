/**
 * The process-wide session table of main.py as an object whose four
 * entries are updated in place, and the route handlers that update it.
 * Each method is proved against the functions of modules Session and
 * Routes, so the lemmas proved there hold of the object too.
 */
module Store {
  import opened Values
  import opened Session
  import opened Routes

  class SessionStore {
    var accessToken: Value
    var refreshToken: Value
    var user: Value
    var fields: Value

    /** The table as a value. */
    function Snapshot(): Session
      reads this
    {
      Session(accessToken, refreshToken, user, fields)
    }

    /** `_state = {}` at module load: nothing stored. */
    constructor ()
      ensures Snapshot() == Empty
    {
      accessToken, refreshToken, user, fields := Null, Null, Null, Null;
    }

    /** `set_state(**kwargs)`: one conditional assignment per recognised key. */
    method SetState(kwargs: map<string, Value>)
      modifies this
      ensures Snapshot() == Set(old(Snapshot()), kwargs)
    {
      if AccessTokenKey in kwargs {
        accessToken := kwargs[AccessTokenKey];
      }
      if RefreshTokenKey in kwargs {
        refreshToken := kwargs[RefreshTokenKey];
      }
      if UserKey in kwargs {
        user := kwargs[UserKey];
      }
      if FieldsKey in kwargs {
        fields := kwargs[FieldsKey];
      }
    }

    /** `clear_state()`: `set_state` with None for all four keys. */
    method ClearState()
      modifies this
      ensures Snapshot() == Empty
    {
      SetState(ClearArgs);
    }

    /** `state(key)`: the stored value, None for a key not stored. */
    function State(key: string): (v: Value)
      reads this
      ensures key == AccessTokenKey ==> v == accessToken
      ensures key == RefreshTokenKey ==> v == refreshToken
      ensures key == UserKey ==> v == user
      ensures key == FieldsKey ==> v == fields
      ensures key !in Keys ==> v == Null
    {
      Get(Snapshot(), key)
    }
  }

  /** `home`: dispatch on whether a truthy user is stored. */
  method HomeRoute(store: SessionStore) returns (p: Page)
    ensures p == UserHomepage <==> Truthy(store.user)
    ensures p == Home(store.Snapshot())
  {
    if Truthy(store.State(UserKey)) {
      p := UserHomepage;
    } else {
      p := NoUserHomepage;
    }
  }

  /** `login_redirect`: the two `set_state` calls of a successful login. */
  method LoginRedirect(store: SessionStore, code: Option<string>, authorize: string -> Result<Value>,
                       getFields: Value -> Result<Value>) returns (response: Response)
    modifies store
    ensures Login(old(store.Snapshot()), code, authorize, getFields) == Step(store.Snapshot(), response)
  {
    if code.None? {
      return Raised(KeyError("code"));
    }
    var c := code.value;
    if c != "" {
      var reply := authorize(c);
      if reply.Err? {
        return Raised(reply.error);
      }
      var resp := reply.value;
      if Truthy(resp) {
        var accessToken := Index(resp, AccessTokenKey);
        if accessToken.Err? {
          return Raised(accessToken.error);
        }
        var refreshToken := Index(resp, RefreshTokenKey);
        if refreshToken.Err? {
          return Raised(refreshToken.error);
        }
        var user := Index(resp, UserKey);
        if user.Err? {
          return Raised(user.error);
        }
        store.SetState(map[UserKey := user.value, AccessTokenKey := accessToken.value,
                           RefreshTokenKey := refreshToken.value]);
        var fields := getFields(accessToken.value);
        if fields.Err? {
          return Raised(fields.error);
        }
        store.SetState(map[FieldsKey := fields.value]);
      }
    }
    response := RedirectHome;
  }

  /** `refresh_token`: exchange the stored refresh token, overwrite the
      user and both tokens. */
  method RefreshTokenRoute(store: SessionStore, reauthorize: Value -> Result<Value>) returns (response: Response)
    modifies store
    ensures Refresh(old(store.Snapshot()), reauthorize) == Step(store.Snapshot(), response)
    ensures store.fields == old(store.fields)
  {
    var reply := reauthorize(store.State(RefreshTokenKey));
    if reply.Err? {
      return Raised(reply.error);
    }
    var resp := reply.value;
    if Truthy(resp) {
      var accessToken := Index(resp, AccessTokenKey);
      if accessToken.Err? {
        return Raised(accessToken.error);
      }
      var refreshToken := Index(resp, RefreshTokenKey);
      if refreshToken.Err? {
        return Raised(refreshToken.error);
      }
      var user := Index(resp, UserKey);
      if user.Err? {
        return Raised(user.error);
      }
      store.SetState(map[UserKey := user.value, AccessTokenKey := accessToken.value,
                         RefreshTokenKey := refreshToken.value]);
    }
    response := RedirectHome;
  }

  /** `logout_redirect`: clear the table. */
  method LogoutRedirect(store: SessionStore) returns (response: Response)
    modifies store
    ensures Logout(old(store.Snapshot())) == Step(store.Snapshot(), response)
    ensures store.Snapshot() == Empty
  {
    store.ClearState();
    response := RedirectHome;
  }
}
