/** The client session store: the `(user, token)` pair held in memory,
    mirrored into the browser's key/value storage under "user" and "token",
    restored once at start, and changed only by login, register, Google
    login and logout. Network responses arrive as abstract values; JSON
    (de)serialisation is a pair of functions given by the caller. */
module AuthContext {
  import opened Common
  import opened Types

  const UserKey: string := "user"
  const TokenKey: string := "token"

  /** The provider's state: memory plus the storage it mirrors into. */
  datatype Session = Session(
    user: Option<User>,
    token: Option<string>,
    authLoading: bool,
    storage: map<string, string>)

  /** What `JSON.parse` of a stored user text gives: an exception, `null`,
      or a user. */
  datatype Parsed = ParseThrows | ParsedNull | ParsedUser(user: User)

  /** `JSON.stringify` and `JSON.parse` for users. */
  datatype Json = Json(stringify: User -> string, parse: string -> Parsed)

  /** What the model assumes of the serialisation: a stringified user parses
      back to itself and is never the empty string (it is an object literal);
      the text "null" parses to `null`, and "undefined", not being JSON,
      makes `parse` throw. */
  ghost predicate Faithful(json: Json)
  {
    && (forall u :: json.parse(json.stringify(u)) == ParsedUser(u) && json.stringify(u) != "")
    && json.parse("null") == ParsedNull
    && json.parse("undefined") == ParseThrows
  }

  /** A field of a response's `data` object as the client reads it: absent
      (`undefined`), `null`, or a value. */
  datatype Field<T> = Missing | Null | Present(value: T)

  /** The value the client holds in memory: `undefined` and `null` are both
      "no value". */
  function AsOption<T>(f: Field<T>): (r: Option<T>)
    ensures r.Some? <==> f.Present?
    ensures f.Present? ==> r.value == f.value
  {
    if f.Present? then Some(f.value) else None
  }

  /** The text `setItem("user", JSON.stringify(user))` stores: `stringify`
      gives `undefined` for an absent user, which `setItem` writes as
      "undefined", and "null" for `null`. */
  function StoredUserText(json: Json, user: Field<User>): string
  {
    match user
    case Missing => "undefined"
    case Null => "null"
    case Present(u) => json.stringify(u)
  }

  /** The text JavaScript makes of the token, both where `setItem("token", token)`
      stores it and where a template literal interpolates it. */
  function TokenText(token: Field<string>): string
  {
    match token
    case Missing => "undefined"
    case Null => "null"
    case Present(t) => t
  }

  /** `localStorage.getItem(key)`: None where the source gets `null`. */
  function Get(storage: map<string, string>, key: string): Option<string>
  {
    if key in storage then Some(storage[key]) else None
  }

  /** `isAuthenticated` is `!!user`. */
  predicate IsAuthenticated(s: Session)
  {
    s.user.Some?
  }

  /** User and token are set together and cleared together, in memory and
      in storage. */
  predicate Paired(s: Session)
  {
    && (s.user.Some? <==> s.token.Some?)
    && (UserKey in s.storage <==> TokenKey in s.storage)
  }

  /** The two storage writes leave every other key as it was. */
  ghost predicate OtherKeysKept(before: map<string, string>, after: map<string, string>)
  {
    forall k :: k != UserKey && k != TokenKey ==> Get(after, k) == Get(before, k)
  }

  /** The provider's first render: nobody signed in, restoration pending. */
  function Init(storage: map<string, string>): (s: Session)
    ensures s.user.None? && s.token.None? && s.authLoading
    ensures s.storage == storage
  {
    Session(None, None, true, storage)
  }

  /** The restore effect found both stored values truthy. */
  predicate HasSavedSession(storage: map<string, string>)
  {
    Truthy(Get(storage, TokenKey)) && Truthy(Get(storage, UserKey))
  }

  /** The result of the restore effect: the new state, or the exception
      `JSON.parse` raised on a stored user that is not valid JSON (the
      effect does not catch it, and `authLoading` is then never cleared). */
  datatype Restored = Restored(session: Session) | ParseThrew

  /** Storage holds a saved session whose user text parses to `null`. */
  predicate RestoresNullUser(storage: map<string, string>, json: Json)
  {
    HasSavedSession(storage) && json.parse(storage[UserKey]).ParsedNull?
  }

  /** The restore effect: adopt the stored pair when both stored values are
      truthy, then clear `authLoading` whether or not a session was found. */
  function Restore(s: Session, json: Json): (r: Restored)
    ensures r.ParseThrew? <==> HasSavedSession(s.storage) && json.parse(s.storage[UserKey]).ParseThrows?
    ensures r.Restored? ==> !r.session.authLoading && r.session.storage == s.storage
    ensures r.Restored? && HasSavedSession(s.storage) ==>
      && r.session.token == Some(s.storage[TokenKey])
      && (json.parse(s.storage[UserKey]).ParsedUser? ==> r.session.user == Some(json.parse(s.storage[UserKey]).user))
      && (json.parse(s.storage[UserKey]).ParsedNull? ==> r.session.user.None?)
    ensures !HasSavedSession(s.storage) ==>
      r.Restored? && r.session.user == s.user && r.session.token == s.token
  {
    if HasSavedSession(s.storage) then
      match json.parse(s.storage[UserKey])
      case ParseThrows => ParseThrew
      case ParsedNull =>
        Restored(s.(user := None, token := Some(s.storage[TokenKey]), authLoading := false))
      case ParsedUser(u) =>
        Restored(s.(user := Some(u), token := Some(s.storage[TokenKey]), authLoading := false))
    else
      Restored(s.(authLoading := false))
  }

  /** Start-up: the restore effect run on the first render. */
  function Boot(storage: map<string, string>, json: Json): (r: Restored)
    ensures r.ParseThrew? <==> HasSavedSession(storage) && json.parse(storage[UserKey]).ParseThrows?
    ensures r.Restored? ==> !r.session.authLoading && r.session.storage == storage
  {
    Restore(Init(storage), json)
  }

  /** Start-up with a saved session adopts the stored token, and is signed
      in exactly when the stored user parses to a user; without one it stays
      signed out. The result is paired in memory unless the stored user is
      the text of `null`. */
  lemma BootOutcome(storage: map<string, string>, json: Json)
    ensures var r := Boot(storage, json);
      && (r.Restored? && HasSavedSession(storage) ==>
            && r.session.token == Some(storage[TokenKey])
            && (IsAuthenticated(r.session) <==> json.parse(storage[UserKey]).ParsedUser?))
      && (!HasSavedSession(storage) ==> r.Restored? && !IsAuthenticated(r.session) && r.session.token.None?)
      && (r.Restored? ==> !r.session.authLoading)
      && (r.Restored? ==> ((r.session.user.Some? <==> r.session.token.Some?) <==> !RestoresNullUser(storage, json)))
  {
  }

  /** Restoring twice over unchanged storage gives the same state as once. */
  lemma RestoreIdempotent(s: Session, json: Json)
    requires Restore(s, json).Restored?
    ensures Restore(Restore(s, json).session, json) == Restore(s, json)
  {
  }

  /** Set memory and write both keys, whatever the two values are.
      `authLoading` is not touched. */
  function Commit(s: Session, json: Json, user: Field<User>, token: Field<string>): (r: Session)
    ensures r.user == AsOption(user) && r.token == AsOption(token)
    ensures r.authLoading == s.authLoading
    ensures Get(r.storage, UserKey) == Some(StoredUserText(json, user))
    ensures Get(r.storage, TokenKey) == Some(TokenText(token))
    ensures user.Present? ==> Get(r.storage, UserKey) == Some(json.stringify(user.value))
    ensures token.Present? ==> Get(r.storage, TokenKey) == Some(token.value)
    ensures OtherKeysKept(s.storage, r.storage)
  {
    Session(AsOption(user), AsOption(token), s.authLoading,
            s.storage[UserKey := StoredUserText(json, user)][TokenKey := TokenText(token)])
  }

  /** How an auth call ended for its caller. */
  datatype Outcome =
    | Resolved
      /** An `Error` the operation throws itself, with its message. */
    | Rejected(message: string)
      /** An exception raised by the runtime: the request did not complete,
          the body was not JSON, or it had no `data` object. */
    | Crashed

  datatype Step = Step(session: Session, outcome: Outcome)

  /** `result.data.user` and `result.data.token`, read without any check. */
  datatype AuthPayload = AuthPayload(user: Field<User>, token: Field<string>)

  /** An answer that, if it commits, commits both a user and a token. */
  predicate WellFormedAnswer(res: ApiResponse)
  {
    res.ApiResponse? && res.ok && res.data.Some? ==> res.data.value.user.Present? && res.data.value.token.Present?
  }

  /** A response of the auth API: `data` is None when the body is not JSON
      or has no `data` object. */
  datatype ApiResponse = NetworkError | ApiResponse(ok: bool, data: Option<AuthPayload>)

  /** The shared shape of login and register: one request, then either the
      fixed failure message, a runtime exception, or a commit. */
  function Exchange(s: Session, json: Json, res: ApiResponse, failure: string): (r: Step)
    ensures res.ApiResponse? && !res.ok ==> r == Step(s, Rejected(failure))
    ensures (res.NetworkError? || (res.ok && res.data.None?)) ==> r == Step(s, Crashed)
    ensures r.outcome.Resolved? <==> res.ApiResponse? && res.ok && res.data.Some?
    ensures r.outcome.Resolved? ==> r.session == Commit(s, json, res.data.value.user, res.data.value.token)
  {
    match res
    case NetworkError => Step(s, Crashed)
    case ApiResponse(ok, data) =>
      if !ok then Step(s, Rejected(failure))
      else match data
        case None => Step(s, Crashed)
        case Some(p) => Step(Commit(s, json, p.user, p.token), Resolved)
  }

  /** `login(email, password)`; the credentials only travel to the API. */
  function Login(s: Session, json: Json, res: ApiResponse): (r: Step)
    ensures res.ApiResponse? && !res.ok ==> r == Step(s, Rejected("Login failed"))
    ensures r.outcome.Resolved? <==> res.ApiResponse? && res.ok && res.data.Some?
    ensures r.outcome.Resolved? ==>
      && r.session.user == AsOption(res.data.value.user)
      && r.session.token == AsOption(res.data.value.token)
      && Get(r.session.storage, TokenKey) == Some(TokenText(res.data.value.token))
      && Get(r.session.storage, UserKey) == Some(StoredUserText(json, res.data.value.user))
      && r.session.authLoading == s.authLoading
      && OtherKeysKept(s.storage, r.session.storage)
    ensures !r.outcome.Resolved? ==> r.session == s
  {
    Exchange(s, json, res, "Login failed")
  }

  /** `register(name, email, password, role)`; the form only travels to the API. */
  function Register(s: Session, json: Json, res: ApiResponse): (r: Step)
    ensures res.ApiResponse? && !res.ok ==> r == Step(s, Rejected("Registration failed"))
    ensures r.outcome.Resolved? <==> res.ApiResponse? && res.ok && res.data.Some?
    ensures r.outcome.Resolved? ==>
      && r.session.user == AsOption(res.data.value.user)
      && r.session.token == AsOption(res.data.value.token)
      && Get(r.session.storage, TokenKey) == Some(TokenText(res.data.value.token))
      && Get(r.session.storage, UserKey) == Some(StoredUserText(json, res.data.value.user))
      && r.session.authLoading == s.authLoading
      && OtherKeysKept(s.storage, r.session.storage)
    ensures !r.outcome.Resolved? ==> r.session == s
  {
    Exchange(s, json, res, "Registration failed")
  }

  /** `loginWithGoogle(user, token)`: the exchange with Google already
      happened, so this commits directly. */
  function LoginWithGoogle(s: Session, json: Json, user: User, token: string): (r: Session)
    ensures r.user == Some(user) && r.token == Some(token)
    ensures r.authLoading == s.authLoading
    ensures Get(r.storage, UserKey) == Some(json.stringify(user)) && Get(r.storage, TokenKey) == Some(token)
    ensures OtherKeysKept(s.storage, r.storage)
  {
    Commit(s, json, Present(user), Present(token))
  }

  /** `logout()`: clear memory and remove both keys; nothing is sent. */
  function Logout(s: Session): (r: Session)
    ensures r.user.None? && r.token.None? && !IsAuthenticated(r)
    ensures UserKey !in r.storage && TokenKey !in r.storage
    ensures r.authLoading == s.authLoading
    ensures OtherKeysKept(s.storage, r.storage)
  {
    s.(user := None, token := None, storage := s.storage - {UserKey, TokenKey})
  }

  /** After logout a restart finds no session. */
  lemma LogoutThenRestart(s: Session, json: Json)
    ensures var r := Boot(Logout(s).storage, json);
      r.Restored? && !IsAuthenticated(r.session) && r.session.token.None?
  {
  }

  /** Commit followed by a restart (a fresh restore over the same storage)
      gives back the committed pair, except when the token is the empty
      string: the restore effect treats that as no session. */
  lemma CommitThenRestart(s: Session, json: Json, user: User, token: string)
    requires Faithful(json)
    ensures var r := Boot(Commit(s, json, Present(user), Present(token)).storage, json);
      && r.Restored?
      && (token != "" ==> r.session.user == Some(user) && r.session.token == Some(token))
      && (token == "" ==> r.session.user.None? && r.session.token.None?)
  {

  }

  /** Every operation keeps user and token paired, in memory and in
      storage, and only restore changes `authLoading` — provided a committed
      answer carries both values, and a stored user is not the text of
      `null`; `IncompleteAnswerCommitted` shows what happens otherwise. */
  lemma OperationsKeepPaired(s: Session, json: Json, res: ApiResponse, user: User, token: string)
    requires Paired(s)
    ensures Restore(s, json).Restored? ==>
      (Paired(Restore(s, json).session) <==> !RestoresNullUser(s.storage, json))
    ensures WellFormedAnswer(res) ==> Paired(Login(s, json, res).session)
    ensures WellFormedAnswer(res) ==> Paired(Register(s, json, res).session)
    ensures Paired(LoginWithGoogle(s, json, user, token))
    ensures Paired(Logout(s))
    ensures Login(s, json, res).session.authLoading == s.authLoading
    ensures Register(s, json, res).session.authLoading == s.authLoading
  {
  }

  /** An ok answer whose `data` lacks the user or the token still commits:
      memory is unpaired exactly when one of the two is absent or `null`.
      With no user the stored text is "undefined", so the next start-up
      throws in `JSON.parse` and never clears `authLoading`; with a `null`
      user it restores a token without a user; with no token it restores
      the user with the token "undefined". */
  lemma IncompleteAnswerCommitted(s: Session, json: Json, res: ApiResponse)
    requires Faithful(json)
    requires res.ApiResponse? && res.ok && res.data.Some?
    ensures var p := res.data.value;
      var r := Login(s, json, res);
      var b := Boot(r.session.storage, json);
      && r.outcome.Resolved?
      && ((r.session.user.Some? <==> r.session.token.Some?) <==> (p.user.Present? <==> p.token.Present?))
      && (p.user.Missing? && TokenText(p.token) != "" ==> b.ParseThrew?)
      && (p.user.Null? && TokenText(p.token) != "" ==>
            b.Restored? && b.session.user.None? && b.session.token == Some(TokenText(p.token)))
      && (p.user.Present? && p.token.Missing? ==>
            b.Restored? && b.session.user == Some(p.user.value) && b.session.token == Some("undefined"))
  {
  }

  /** The three states of the session's life. */
  datatype Phase = Unknown | Anonymous | Authenticated

  function PhaseOf(s: Session): Phase
  {
    if s.authLoading then Unknown
    else if s.user.Some? then Authenticated
    else Anonymous
  }

  /** The state machine: start-up leaves `Unknown` for good; a successful
      login, register or Google login leads to `Authenticated` from either
      settled state (an existing session is overwritten directly); logout
      leads to `Anonymous`; a failed attempt changes nothing. An ok answer
      without a user "succeeds" into `Anonymous`. */
  lemma PhaseTransitions(s: Session, json: Json, res: ApiResponse, user: User, token: string)
    ensures PhaseOf(Init(s.storage)) == Unknown
    ensures Boot(s.storage, json).Restored? ==> PhaseOf(Boot(s.storage, json).session) != Unknown
    ensures PhaseOf(s) != Unknown ==>
      && PhaseOf(LoginWithGoogle(s, json, user, token)) == Authenticated
      && PhaseOf(Logout(s)) == Anonymous
      && (Login(s, json, res).outcome.Resolved? ==>
            PhaseOf(Login(s, json, res).session) == (if res.data.value.user.Present? then Authenticated else Anonymous))
      && (!Login(s, json, res).outcome.Resolved? ==> PhaseOf(Login(s, json, res).session) == PhaseOf(s))
      && (Register(s, json, res).outcome.Resolved? ==>
            PhaseOf(Register(s, json, res).session) == (if res.data.value.user.Present? then Authenticated else Anonymous))
  {
  }
}
