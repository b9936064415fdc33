/**
 * What the routes of main.py do to the session table, as functions from the
 * table before a request to the table after it and the response. Calls into
 * the external API client are function parameters: whatever they return
 * (`Ok`) or raise (`Err`) is an arbitrary input, but the model keeps what is
 * passed to them (the code from the query string, the stored refresh token,
 * the fresh access token).
 */
module Routes {
  import opened Values
  import opened Session

  /** How a route ends: a redirect to /home, or an uncaught exception. */
  datatype Response = RedirectHome | Raised(error: Error)

  datatype Step = Step(session: Session, response: Response)

  /** The user and tokens read from a token response. */
  datatype Grant = Grant(accessToken: Value, refreshToken: Value, user: Value)

  /** `resp['access_token']`, `resp['refresh_token']` and `resp['user']`,
      evaluated in that order: the first that fails raises. */
  function ReadGrant(resp: Value): (r: Result<Grant>)
    ensures r.Ok? <==> resp.Obj? && AccessTokenKey in resp.entries
                       && RefreshTokenKey in resp.entries && UserKey in resp.entries
    ensures r.Ok? ==> r.value == Grant(resp.entries[AccessTokenKey], resp.entries[RefreshTokenKey],
                                       resp.entries[UserKey])
    ensures !resp.Obj? ==> r == Err(TypeError)
    ensures resp.Obj? && AccessTokenKey !in resp.entries ==> r == Err(KeyError(AccessTokenKey))
  {
    match Index(resp, AccessTokenKey)
    case Err(e) => Err(e)
    case Ok(accessToken) =>
      match Index(resp, RefreshTokenKey)
      case Err(e) => Err(e)
      case Ok(refreshToken) =>
        match Index(resp, UserKey)
        case Err(e) => Err(e)
        case Ok(user) => Ok(Grant(accessToken, refreshToken, user))
  }

  /** The keyword arguments both routes pass to `set_state`. */
  function GrantArgs(g: Grant): map<string, Value>
  {
    map[UserKey := g.user, AccessTokenKey := g.accessToken, RefreshTokenKey := g.refreshToken]
  }

  /** What a route makes of a token response: the exception if the call
      raised or the response cannot be read, nothing for a falsy response,
      the grant otherwise. */
  function GrantFrom(reply: Result<Value>): (r: Result<Option<Grant>>)
    ensures r == Ok(None) <==> reply.Ok? && !Truthy(reply.value)
    ensures r.Ok? && r.value.Some? <==> reply.Ok? && Truthy(reply.value) && ReadGrant(reply.value).Ok?
    ensures r.Ok? && r.value.Some? ==> r.value.value == ReadGrant(reply.value).value
  {
    match reply
    case Err(e) => Err(e)
    case Ok(resp) =>
      if !Truthy(resp) then Ok(None)
      else match ReadGrant(resp)
        case Err(e) => Err(e)
        case Ok(g) => Ok(Some(g))
  }

  /** The grant `login_redirect` obtains: `request.args['code']` raises
      KeyError when the query has no code, and an empty code skips the
      exchange. */
  function LoginGrant(code: Option<string>, authorize: string -> Result<Value>): (r: Result<Option<Grant>>)
    ensures code.None? ==> r == Err(KeyError("code"))
    ensures code == Some("") ==> r == Ok(None)
    ensures code.Some? && code.value != "" ==> r == GrantFrom(authorize(code.value))
  {
    match code
    case None => Err(KeyError("code"))
    case Some(c) => if c == "" then Ok(None) else GrantFrom(authorize(c))
  }

  /** `login_redirect`: store the user and both tokens, then fetch the field
      list with the new access token and store it. */
  function Login(s: Session, code: Option<string>, authorize: string -> Result<Value>,
                 getFields: Value -> Result<Value>): (r: Step)
    ensures LoginGrant(code, authorize).Err? ==> r == Step(s, Raised(LoginGrant(code, authorize).error))
    ensures LoginGrant(code, authorize) == Ok(None) ==> r == Step(s, RedirectHome)
    ensures LoginGrant(code, authorize).Ok? && LoginGrant(code, authorize).value.Some? ==>
              var g := LoginGrant(code, authorize).value.value;
              && Get(r.session, UserKey) == g.user
              && Get(r.session, AccessTokenKey) == g.accessToken
              && Get(r.session, RefreshTokenKey) == g.refreshToken
              && (getFields(g.accessToken).Ok? ==>
                    Get(r.session, FieldsKey) == getFields(g.accessToken).value && r.response == RedirectHome)
              && (getFields(g.accessToken).Err? ==>
                    Get(r.session, FieldsKey) == Get(s, FieldsKey)
                    && r.response == Raised(getFields(g.accessToken).error))
  {
    match LoginGrant(code, authorize)
    case Err(e) => Step(s, Raised(e))
    case Ok(None) => Step(s, RedirectHome)
    case Ok(Some(g)) =>
      var stored := Set(s, GrantArgs(g));
      match getFields(g.accessToken)
      case Err(e) => Step(stored, Raised(e))
      case Ok(fields) => Step(Set(stored, map[FieldsKey := fields]), RedirectHome)
  }

  /** `refresh_token`: exchange the stored refresh token and overwrite the
      user and both tokens; the cached field list is never touched. */
  function Refresh(s: Session, reauthorize: Value -> Result<Value>): (r: Step)
    ensures Get(r.session, FieldsKey) == Get(s, FieldsKey)
    ensures GrantFrom(reauthorize(Get(s, RefreshTokenKey))) == Ok(None) ==> r == Step(s, RedirectHome)
    ensures GrantFrom(reauthorize(Get(s, RefreshTokenKey))).Err? ==>
              r == Step(s, Raised(GrantFrom(reauthorize(Get(s, RefreshTokenKey))).error))
    ensures GrantFrom(reauthorize(Get(s, RefreshTokenKey))).Ok? &&
            GrantFrom(reauthorize(Get(s, RefreshTokenKey))).value.Some? ==>
              var g := GrantFrom(reauthorize(Get(s, RefreshTokenKey))).value.value;
              && r.response == RedirectHome
              && Get(r.session, UserKey) == g.user
              && Get(r.session, AccessTokenKey) == g.accessToken
              && Get(r.session, RefreshTokenKey) == g.refreshToken
  {
    match GrantFrom(reauthorize(Get(s, RefreshTokenKey)))
    case Err(e) => Step(s, Raised(e))
    case Ok(None) => Step(s, RedirectHome)
    case Ok(Some(g)) => Step(Set(s, GrantArgs(g)), RedirectHome)
  }

  /** `logout_redirect`: clear the table, call nothing external. */
  function Logout(s: Session): (r: Step)
    ensures r.response == RedirectHome
    ensures forall k :: Get(r.session, k) == Null
  {
    Step(Clear(s), RedirectHome)
  }

  datatype Page = UserHomepage | NoUserHomepage

  /** `home`: the user's page exactly when a truthy user is stored. */
  function Home(s: Session): (p: Page)
    ensures p == UserHomepage <==> Truthy(Get(s, UserKey))
  {
    if Truthy(Get(s, UserKey)) then UserHomepage else NoUserHomepage
  }

  /** A successful login, stated on the raw inputs: a non-empty code, a
      token response holding the three entries, and a field list fetched
      with the response's access token. */
  lemma LoginSuccess(s: Session, c: string, authorize: string -> Result<Value>,
                     getFields: Value -> Result<Value>, resp: map<string, Value>, fields: Value)
    requires c != "" && authorize(c) == Ok(Obj(resp))
    requires AccessTokenKey in resp && RefreshTokenKey in resp && UserKey in resp
    requires getFields(resp[AccessTokenKey]) == Ok(fields)
    ensures Login(s, Some(c), authorize, getFields)
         == Step(Session(resp[AccessTokenKey], resp[RefreshTokenKey], resp[UserKey], fields), RedirectHome)
  {
  }

  /** The events that change or read the session, in request order. */
  datatype Event =
    | LoginEvent(code: Option<string>, authorize: string -> Result<Value>, getFields: Value -> Result<Value>)
    | RefreshEvent(reauthorize: Value -> Result<Value>)
    | LogoutEvent

  function Apply(s: Session, e: Event): Session
  {
    match e
    case LoginEvent(code, authorize, getFields) => Login(s, code, authorize, getFields).session
    case RefreshEvent(reauthorize) => Refresh(s, reauthorize).session
    case LogoutEvent => Logout(s).session
  }

  /** The table after a sequence of requests. */
  function Run(s: Session, events: seq<Event>): Session
  {
    if events == [] then s
    else Apply(Run(s, events[..|events| - 1]), events[|events| - 1])
  }

  /** Event `e` is a login that obtained a grant and fetched a field list. */
  predicate FetchedFields(e: Event)
  {
    && e.LoginEvent?
    && var grant := LoginGrant(e.code, e.authorize);
    && grant.Ok? && grant.value.Some?
    && e.getFields(grant.value.value.accessToken).Ok?
  }

  /** Event `e`, a login or a refresh at session `s`, obtained a grant. */
  predicate Granted(s: Session, e: Event)
  {
    match e
    case LoginEvent(code, authorize, _) => LoginGrant(code, authorize).Ok? && LoginGrant(code, authorize).value.Some?
    case RefreshEvent(reauthorize) =>
      GrantFrom(reauthorize(Get(s, RefreshTokenKey))).Ok? && GrantFrom(reauthorize(Get(s, RefreshTokenKey))).value.Some?
    case LogoutEvent => false
  }

  predicate NoLogoutAfter(events: seq<Event>, i: int)
  {
    forall j :: 0 <= j < |events| && i < j ==> !events[j].LogoutEvent?
  }

  /** Event `i` fetched the field list and no logout followed it. */
  predicate FetchedAt(events: seq<Event>, i: int)
  {
    0 <= i < |events| && FetchedFields(events[i]) && NoLogoutAfter(events, i)
  }

  /** Event `i` obtained a grant and no logout followed it. */
  predicate GrantedAt(events: seq<Event>, i: int)
  {
    0 <= i < |events| && Granted(Run(Empty, events[..i]), events[i]) && NoLogoutAfter(events, i)
  }

  /** A fact about an earlier event survives one more event that is not a
      logout. */
  lemma ExtendFetchedAt(before: seq<Event>, e: Event, i: int)
    requires FetchedAt(before, i) && !e.LogoutEvent?
    ensures FetchedAt(before + [e], i)
  {
  }

  lemma ExtendGrantedAt(before: seq<Event>, e: Event, i: int)
    requires GrantedAt(before, i) && !e.LogoutEvent?
    ensures GrantedAt(before + [e], i)
  {
    assert (before + [e])[..i] == before[..i];
    assert (before + [e])[i] == before[i];
  }

  /** The field list is cached only by a login that fetched it: starting
      from the empty table, a stored field list was fetched by some login
      and no logout followed it. */
  lemma {:induction false} FieldsOnlyFromLogin(events: seq<Event>)
    requires Get(Run(Empty, events), FieldsKey) != Null
    ensures exists i :: FetchedAt(events, i)
  {
    if events == [] {
      assert false;
    }
    var n := |events| - 1;
    var before, e := events[..n], events[n];
    assert events == before + [e];
    var s := Run(Empty, before);
    assert Run(Empty, events) == Apply(s, e);
    if FetchedFields(e) {
      assert FetchedAt(events, n);
    } else if e.LogoutEvent? {
      assert false;
    } else {
      assert Get(Apply(s, e), FieldsKey) == Get(s, FieldsKey);
      FieldsOnlyFromLogin(before);
      var i :| FetchedAt(before, i);
      ExtendFetchedAt(before, e, i);
    }
  }

  /** The home page greets a user only after a login or refresh that
      obtained a grant, with no logout since. */
  lemma {:induction false} UserOnlyFromGrant(events: seq<Event>)
    requires Home(Run(Empty, events)) == UserHomepage
    ensures exists i :: GrantedAt(events, i)
  {
    if events == [] {
      assert false;
    }
    var n := |events| - 1;
    var before, e := events[..n], events[n];
    assert events == before + [e];
    var s := Run(Empty, before);
    assert Run(Empty, events) == Apply(s, e);
    if Granted(s, e) {
      assert events[..n] == before;
      assert GrantedAt(events, n);
    } else if e.LogoutEvent? {
      assert false;
    } else {
      assert Apply(s, e) == s;
      UserOnlyFromGrant(before);
      var i :| GrantedAt(before, i);
      ExtendGrantedAt(before, e, i);
    }
  }

  /** After a logout the home page offers the login link again. */
  lemma HomeAfterLogout(s: Session)
    ensures Home(Logout(s).session) == NoUserHomepage
  {
  }
}
