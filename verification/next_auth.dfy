/** The server-side authentication configuration: the credentials
    provider's `authorize`, the optional Google provider and its profile
    mapping, and the `jwt` and `session` callbacks. The backend's login
    answer and the environment are inputs; the framework that calls these
    hooks is not modelled. */
module NextAuth {
  import opened Common

  /** The environment variables read at start-up. */
  datatype Env = Env(
    authGoogleId: Option<string>,
    googleClientId: Option<string>,
    authGoogleSecret: Option<string>,
    googleClientSecret: Option<string>,
    publicApiUrl: Option<string>)

  function GoogleClientId(env: Env): Option<string>
  {
    OrElse(env.authGoogleId, env.googleClientId)
  }

  function GoogleClientSecret(env: Env): Option<string>
  {
    OrElse(env.authGoogleSecret, env.googleClientSecret)
  }

  /** The backend's base address, with its local default. */
  function BaseUrl(env: Env): (url: string)
    ensures Truthy(env.publicApiUrl) ==> url == env.publicApiUrl.value
    ensures !Truthy(env.publicApiUrl) ==> url == "http://localhost:4000/api"
  {
    TextOr(env.publicApiUrl, "http://localhost:4000/api")
  }

  datatype Provider = CredentialsProvider | GoogleProvider(clientId: string, clientSecret: string)

  /** The provider list: credentials always, Google only when both its id
      and its secret are set. */
  function Providers(env: Env): (ps: seq<Provider>)
    ensures |ps| >= 1 && ps[0] == CredentialsProvider
    ensures |ps| == 2 <==> Truthy(GoogleClientId(env)) && Truthy(GoogleClientSecret(env))
    ensures |ps| <= 2
    ensures |ps| == 2 ==> ps[1] == GoogleProvider(GoogleClientId(env).value, GoogleClientSecret(env).value)
  {
    var id := GoogleClientId(env);
    var secret := GoogleClientSecret(env);
    if Truthy(id) && Truthy(secret) then [CredentialsProvider, GoogleProvider(id.value, secret.value)]
    else [CredentialsProvider]
  }

  /** The credentials as submitted (`credentials?.email`, `credentials?.password`). */
  datatype Credentials = Credentials(email: Option<string>, password: Option<string>)

  /** The POST to the backend's login endpoint. */
  datatype LoginRequest = LoginRequest(url: string, email: string, password: string)

  /** `data?.data?.user` as far as it is read. */
  datatype BackendUser = BackendUser(id: Option<string>, email: Option<string>, name: Option<string>,
                                     role: Option<string>)

  /** The backend's answer: its `ok` flag and the user in its body, if any. */
  datatype LoginReply = LoginReply(ok: bool, user: Option<BackendUser>)

  /** The user object a provider hands to the framework. */
  datatype AuthUser = AuthUser(id: string, email: Option<string>, name: Option<string>,
                               image: Option<string>, role: Option<string>)

  /** The request `authorize` sends, if it sends one. */
  function LoginRequestFor(env: Env, creds: Option<Credentials>): (r: Option<LoginRequest>)
    ensures r.Some? <==> creds.Some? && Truthy(creds.value.email) && Truthy(creds.value.password)
    ensures r.Some? ==> r.value == LoginRequest(BaseUrl(env) + "/auth/login", creds.value.email.value,
                                                creds.value.password.value)
  {
    if creds.Some? && Truthy(creds.value.email) && Truthy(creds.value.password) then
      Some(LoginRequest(BaseUrl(env) + "/auth/login", creds.value.email.value, creds.value.password.value))
    else None
  }

  /** `authorize`: null (None) for missing credentials, a non-ok answer or a
      user without a truthy id; otherwise the user with its role, or
      TOURIST when the backend sent none. */
  function Authorize(creds: Option<Credentials>, reply: LoginReply): (r: Option<AuthUser>)
    ensures !(creds.Some? && Truthy(creds.value.email) && Truthy(creds.value.password)) ==> r.None?
    ensures !reply.ok ==> r.None?
    ensures r.Some? <==>
      && creds.Some? && Truthy(creds.value.email) && Truthy(creds.value.password)
      && reply.ok && reply.user.Some? && Truthy(reply.user.value.id)
    ensures r.Some? ==>
      && r.value.id == reply.user.value.id.value
      && r.value.email == reply.user.value.email
      && r.value.name == reply.user.value.name
      && r.value.image.None?
      && r.value.role == Some(reply.user.value.role.GetOr("TOURIST"))
  {
    if !(creds.Some? && Truthy(creds.value.email) && Truthy(creds.value.password)) then None
    else if !reply.ok then None
    else if reply.user.None? || !Truthy(reply.user.value.id) then None
    else
      var u := reply.user.value;
      Some(AuthUser(u.id.value, u.email, u.name, None, Some(u.role.GetOr("TOURIST"))))
  }

  /** Missing credentials are refused whatever the backend would have
      answered, and no request is made. */
  lemma MissingCredentialsSkipBackend(env: Env, creds: Option<Credentials>, r1: LoginReply, r2: LoginReply)
    requires creds.None? || !Truthy(creds.value.email) || !Truthy(creds.value.password)
    ensures LoginRequestFor(env, creds).None?
    ensures Authorize(creds, r1) == Authorize(creds, r2) == None
  {
  }

  /** The Google account's OpenID claims that the profile mapping reads. */
  datatype GoogleClaims = GoogleClaims(sub: string, email: Option<string>, name: Option<string>,
                                       picture: Option<string>)

  /** The Google provider's `profile`: the subject becomes the id and the
      role is always TOURIST. */
  function GoogleProfile(p: GoogleClaims): (u: AuthUser)
    ensures u.id == p.sub && u.role == Some("TOURIST")
    ensures u.email == p.email && u.name == p.name && u.image == p.picture
  {
    AuthUser(p.sub, p.email, p.name, p.picture, Some("TOURIST"))
  }

  /** The JWT's claims: `id` and `role`, and every other claim by name. */
  datatype Token = Token(id: Option<string>, role: Option<string>, other: map<string, string>)

  /** The `jwt` callback: at sign-in (a user present) the role, TOURIST
      by default, and the id are written into the token; on later calls
      the token passes through unchanged. */
  function Jwt(token: Token, user: Option<AuthUser>): (r: Token)
    ensures user.None? ==> r == token
    ensures user.Some? ==> r.id == Some(user.value.id) && r.role == Some(user.value.role.GetOr("TOURIST"))
    ensures r.other == token.other
  {
    if user.Some? then token.(role := Some(user.value.role.GetOr("TOURIST")), id := Some(user.value.id))
    else token
  }

  datatype SessionUser = SessionUser(id: Option<string>, role: Option<string>, name: Option<string>,
                                     email: Option<string>, image: Option<string>)

  datatype SessionData = SessionData(user: Option<SessionUser>, expires: string)

  /** The `session` callback: when the session has a user, its id is the
      token's and its role the token's or TOURIST; nothing else changes. */
  function SessionCallback(session: SessionData, token: Token): (r: SessionData)
    ensures session.user.None? ==> r == session
    ensures r.expires == session.expires
    ensures session.user.Some? ==>
      && r.user.Some?
      && r.user.value.id == token.id
      && r.user.value.role == Some(token.role.GetOr("TOURIST"))
      && r.user.value.name == session.user.value.name
      && r.user.value.email == session.user.value.email
      && r.user.value.image == session.user.value.image
  {
    if session.user.Some? then
      session.(user := Some(session.user.value.(id := token.id, role := Some(token.role.GetOr("TOURIST")))))
    else session
  }

  /** A credentials sign-in carries the backend's id and role (TOURIST if
      it sent none) through the token into the session, both at sign-in and
      after a later `jwt` call without a user. */
  lemma CredentialsRoleReachesSession(creds: Option<Credentials>, reply: LoginReply, initial: Token,
                                      session: SessionData)
    requires Authorize(creds, reply).Some?
    requires session.user.Some?
    ensures var signedIn := Jwt(initial, Authorize(creds, reply));
      var atSignIn := SessionCallback(session, signedIn).user.value;
      var later := SessionCallback(session, Jwt(signedIn, None)).user.value;
      && atSignIn.id == later.id == reply.user.value.id
      && atSignIn.role == later.role == Some(reply.user.value.role.GetOr("TOURIST"))
  {
  }

  /** A Google sign-in reaches the session as a TOURIST with the account's
      subject as id, at sign-in and after a later `jwt` call. */
  lemma GoogleRoleReachesSession(p: GoogleClaims, initial: Token, session: SessionData)
    requires session.user.Some?
    ensures var signedIn := Jwt(initial, Some(GoogleProfile(p)));
      var atSignIn := SessionCallback(session, signedIn).user.value;
      var later := SessionCallback(session, Jwt(signedIn, None)).user.value;
      && atSignIn.id == later.id == Some(p.sub)
      && atSignIn.role == later.role == Some("TOURIST")
  {
  }
}
