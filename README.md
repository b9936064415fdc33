# Climate partner demo app: session table and route decisions, in Dafny

The demo web application (`main.py`) lets one user at a time log in with
Climate FieldView over OAuth2, keeps that user's tokens, user record and
field list in a process-wide table, and renders pages from data the Climate
API client returns. This project models the parts of it that hold logic:

- **the session table** (`_state` with `set_state`, `clear_state`, `state`):
  a pure record `Session.Session` with `Get`/`Set`/`Clear`, and a class
  `Store.SessionStore` whose four fields the methods update in place, each
  method proved to act as the corresponding function;
- **the session transitions of the routes** (`login_redirect`,
  `refresh_token`, `logout_redirect`, and the dispatch in `home`): pure
  step functions in `Routes` (table before → table after and response),
  imperative route methods in `Store` proved against them, and lemmas over
  whole sequences of requests;
- **the pure helpers**: the field lookup by id (`FieldLookup`), `render_ul`,
  the DELETED decision of `render_attachment_link` and the "more records"
  decision of `handle_activity` (`Render`).

Data that comes from the API client is untyped JSON-shaped Python data; it is
modelled as `Values.Value` (None, booleans, integers, strings, lists, dicts)
with Python's truth test (`Truthy`) and key indexing (`Index`, which raises
KeyError on a dict without the key and TypeError on anything else). Calls
into the API client (`authorize`, `reauthorize`, `get_fields`) are function
parameters returning `Ok(value)`, or `Err(e)` for whatever exception they
raise (`Upstream` names exceptions other than TypeError, KeyError and
IndexError, such as a network failure); URLs
built by the framework's router are function parameters returning strings.
An exception a route does not catch is the response `Raised(error)`.

Behaviour of the code that is easy to misread:

- Login and refresh do not replace the whole session: refresh never
  touches the cached field list, and a login whose field fetch raises keeps
  the new user and tokens but the old field list (`Routes.Login`).
- `clear_state` stores None under each key rather than removing the keys;
  since `state` answers None for both, the model does not distinguish them.
- `home` tests the stored user for truth, not for presence: an empty user
  record shows the logged-out page.
- The field lookup fails not only when no field has the id but also when
  any cached field, even one after the match, has no `id` entry
  (`FieldLookup.LaterFieldWithoutIdRaises`).
- `render_ul` escapes nothing and separates items by newlines only, so the
  list can be read back item by item only when no item holds a line break
  (`Render.RenderUlRoundTrip`); the attachment and activity entries do hold
  line breaks, and for those only the rendered text itself is determined
  (`Render.RenderUlAppend`, `Render.TwoItemsLookLikeOne`).

## Model

| member | source | states |
|---|---|---|
| `Values.Truthy` | main.py:79-81 | a value is false exactly when it is None, False, 0, or an empty string, list or dict (the truth test of the stored user, the code and the token responses at main.py:79, 153, 158, 186) |
| `Values.Index` | main.py:160-162 | indexing by key succeeds exactly on a dict holding the key and yields its entry; a dict without it raises KeyError, any other value TypeError |
| `Session.Get` | main.py:69-71 | reading a key that is not one of the four recognised ones yields None |
| `Session.EmptyReadsNone` | main.py:50 | before anything is stored every key reads None |
| `Session.Set` | main.py:53-62 | a recognised key among the keyword arguments reads back as the argument; every key not among them reads as before |
| `Session.SetIgnoresUnrecognised` | main.py:53-62 | keyword arguments with other names have no effect: dropping them gives the same table |
| `Session.SetAccessTokenKeepsRefreshToken` | main.py:55-58 | setting only the access token stores it and leaves the refresh token, user and fields unchanged |
| `Session.SetSequence` | main.py:53-62 | two calls in a row equal one call with the merged arguments, the later winning |
| `Session.SetIdempotent` | main.py:53-62 | repeating a call changes nothing further |
| `Session.Clear` | main.py:65-66 | after clearing, every key reads None and the table equals the one at process start |
| `Store.SessionStore.constructor` | main.py:50 | the table starts empty |
| `Store.SessionStore.SetState` | main.py:53-62 | the object's new contents are the old contents merged with the recognised keyword arguments |
| `Store.SessionStore.ClearState` | main.py:65-66 | the object's contents become the empty table |
| `Store.SessionStore.State` | main.py:69-71 | returns the stored entry for a recognised key, None for any other key |
| `Routes.ReadGrant` | main.py:160-162 | reading the two tokens and the user succeeds exactly when the response is a dict with all three entries; a non-dict raises TypeError, a missing access token raises KeyError for it |
| `Routes.GrantFrom` | main.py:186-191 | a falsy response yields nothing to store; a truthy readable response yields its user and tokens |
| `Routes.LoginGrant` | main.py:152-158 | a missing code raises KeyError('code'); an empty code stores nothing; otherwise the exchange's response decides |
| `Routes.Login` | main.py:152-172 | on a grant the session holds the response's user and tokens and, if the field fetch with that access token succeeds, its result as fields (redirect home); if the fetch raises, the old fields stay and the exception propagates; without a grant the session is unchanged |
| `Routes.LoginSuccess` | main.py:152-172 | a non-empty code, a response with the three entries and a successful fetch leave exactly that user, those tokens and the fetched fields, and redirect home |
| `Routes.Refresh` | main.py:183-193 | the fields never change; a grant from exchanging the stored refresh token overwrites user and tokens; a falsy response or an exception leaves the session unchanged |
| `Routes.Logout` | main.py:202 | every key reads None afterwards and the response is a redirect home |
| `Routes.Home` | main.py:79-81 | the user's page exactly when the stored user is truthy |
| `Routes.HomeAfterLogout` | main.py:196-203 | after logout the home page is the logged-out one |
| `Routes.FieldsOnlyFromLogin` | main.py:152-203 | from the empty table, a non-None field list after any sequence of logins, refreshes and logouts was fetched by a login that no logout followed |
| `Routes.UserOnlyFromGrant` | main.py:77-203 | from the empty table, the home page shows a user only after a login or refresh that obtained a grant, with no logout since |
| `Store.HomeRoute` | main.py:77-81 | returns the user's page exactly when the stored user is truthy, changing nothing |
| `Store.LoginRedirect` | main.py:143-172 | the object's new contents and the response are those of `Routes.Login` on the old contents |
| `Store.RefreshTokenRoute` | main.py:175-193 | the new contents and response are those of `Routes.Refresh`; the fields are unchanged |
| `Store.LogoutRedirect` | main.py:196-203 | the contents become the empty table and the response is a redirect home |
| `FieldLookup.Matching` | main.py:214 | the comprehension succeeds exactly when every field has an id; its result holds only fields of the list whose id is the requested one, and is empty exactly when no field has it |
| `FieldLookup.FieldById` | main.py:214 | a result is a field of the cached list with the requested id; with all ids present it raises IndexError exactly when no field has the id; None raises TypeError |
| `FieldLookup.MatchingStartsWithFirst` | main.py:214 | the comprehension's first element is the first field with the requested id |
| `FieldLookup.FirstFieldWithId` | main.py:214 | the lookup returns the first field whose id is the requested one |
| `FieldLookup.MatchingRaisesAtFirstMissingId` | main.py:214 | the first field without an id decides the exception, whatever follows it |
| `FieldLookup.LaterFieldWithoutIdRaises` | main.py:214 | a match followed by a field without an id still raises KeyError('id') |
| `FieldLookup.LookupSecondOfTwo` | main.py:214 | in a list of fields with ids "a" and "b", looking up "b" returns the second |
| `Render.RenderUl` | main.py:308-309 | the result is wrapped in ul tags and is exactly the empty list element when there are no items; `Render.RenderUlAppend` gives its contents for every input |
| `Render.Join` | main.py:309 | joining no parts gives the empty string and joining one part gives that part; a join begins with the first part and ends with the last; `Render.JoinAppend` gives its contents for every input and `Render.SplitJoin` shows the parts can be split back out |
| `Render.JoinAppend` | main.py:309 | joining one more part appends the separator and that part, whatever the parts contain |
| `Render.RenderUlAppend` | main.py:308-309 | one item renders as `<ul><li>x</li></ul>`; each further item adds a newline and its `<li>` element before the closing tag, whatever the items contain (with the empty case, this fixes the rendered text for every list, including the multi-line attachment and activity entries of main.py:339-343 and 353-358) |
| `Render.TwoItemsLookLikeOne` | main.py:308-309 | any two items render exactly like the single item made of both joined by `</li>`, a newline and `<li>`, so items with line breaks cannot be read back from the list |
| `Render.SplitJoin` | main.py:309 | the newline join can be split back into its parts when no part contains a newline |
| `Render.RenderUlRoundTrip` | main.py:308-309 | for items without newlines, reading the rendered list back gives exactly the items in order |
| `Render.AttachmentLinkPart` | main.py:327-337 | the link part is empty exactly for an attachment whose status is 'DELETED' (after its id is read); otherwise it is a link that starts with `: <a href="`, embeds the contents URL and ends in "Get contents"; it raises exactly when the id, the status, or (for a non-deleted attachment) the content type or length is missing |
| `Render.MoreRecords` | main.py:503-507 | the block is empty exactly when the continuation token is None; otherwise it is the opening anchor tag, the link built from that token, and the "More records" text with its closing tags |
| `Render.FalsyTokenStillLinks` | main.py:504 | an empty-string or zero token still gets the link, since the test is against None and not truth |

## Left out

- The web framework: routing, `url_for`, `redirect`, `Response`, streaming and static files. URLs are function parameters; a redirect is the response `RedirectHome`, and turning an uncaught exception into a server error page is not modelled beyond `Raised`.
- The Climate API client module, which is not part of this model: its calls are parameters whose results (or any exception, as `Err(e)`) are arbitrary; what it does over the network is not modelled.
- The HTML page texts, `json.dumps` pretty printing, the page of `user_homepage` (which would raise when a user is stored without a field list), `no_user_homepage`, and the link renderers for fields, observations and activities.
- The routes that only forward to the API client and render its answer: upload form and upload, upload status, scouting observations and their attachments and contents, activity contents, the `activities is not None` body of `handle_activity`.
- Reading the environment variables at startup, the logger, and the `int()` parsing of the `length` query argument.
- `get_callee`: dynamic attribute lookup on the API client module, which is not part of this model.
- Concurrent requests racing on the one process-wide table: the application supports one user at a time.
- Render.AttachmentLinkPart: models only the link part of the attachment heading; the heading text and the JSON dump around it are not modelled.
- Render.MoreRecords: models the "more records" block only; the rest of the activity page is not modelled.
- Routes.Login: the login URL, the client credentials and the redirect URI passed to the exchange are constants of the process and are not modelled.
