/** The callback the Google sign-in button hands to Google's script: it
    exchanges the ID token with the backend and, on a well-formed answer,
    commits the session through the session store and navigates on. The
    backend's answer is an input; toasts and navigation are part of the
    result. */
module GoogleSignIn {
  import opened Common
  import opened Types
  import opened AuthContext

  /** The backend's answer to the token exchange. `FetchThrew` covers a
      request that did not complete and a body that is not JSON; otherwise
      the `ok` flag and the fields of the parsed body the callback reads
      (`data?.message`, `data?.data?.token`, `data?.data?.user`). */
  datatype GoogleReply =
    | FetchThrew
    | GoogleReply(ok: bool, message: Option<string>, token: Option<string>, user: Option<User>)

  /** What one invocation of the callback did. */
  datatype Effect = Effect(session: Session, toast: Toast, navigateTo: Option<string>, backendCalled: bool)

  /** The `callbackUrl` prop, `"/"` when not given. */
  function CallbackUrl(prop: Option<string>): (url: string)
    ensures prop.None? ==> url == "/"
    ensures prop.Some? ==> url == prop.value
  {
    prop.GetOr("/")
  }

  /** The callback, from the credential Google returned (`response?.credential`). */
  function OnCredential(s: Session, json: Json, credential: Option<string>, reply: GoogleReply,
                        callbackUrl: Option<string>): (e: Effect)
    ensures !Truthy(credential) ==>
      e == Effect(s, ErrorToast("Google login failed — no token received."), None, false)
    ensures Truthy(credential) ==> e.backendCalled
    ensures e.navigateTo.Some? <==> e.toast.SuccessToast?
    ensures e.toast.SuccessToast? <==>
      && Truthy(credential) && reply.GoogleReply? && reply.ok && Truthy(reply.token) && reply.user.Some?
    ensures e.toast.SuccessToast? ==>
      && e.session == LoginWithGoogle(s, json, reply.user.value, reply.token.value)
      && e.toast == SuccessToast("Signed in with Google!")
      && e.navigateTo == Some(CallbackUrl(callbackUrl))
    ensures !e.toast.SuccessToast? ==> e.session == s && e.toast.ErrorToast?
  {
    if !Truthy(credential) then
      Effect(s, ErrorToast("Google login failed — no token received."), None, false)
    else match reply
      case FetchThrew => Effect(s, ErrorToast("Google login failed. Check console."), None, true)
      case GoogleReply(ok, message, token, user) =>
        if !ok then Effect(s, ErrorToast(TextOr(message, "Google sign-in failed.")), None, true)
        else if !Truthy(token) || user.None? then Effect(s, ErrorToast("Invalid Google response."), None, true)
        else
          Effect(LoginWithGoogle(s, json, user.value, token.value), SuccessToast("Signed in with Google!"),
                 Some(CallbackUrl(callbackUrl)), true)
  }

  /** The error branches and their messages: a failed request, a refused
      exchange (the server's message, or a default), and an incomplete
      answer each leave the session as it was. */
  lemma RejectionMessages(s: Session, json: Json, credential: string, reply: GoogleReply, callbackUrl: Option<string>)
    requires credential != ""
    ensures var e := OnCredential(s, json, Some(credential), reply, callbackUrl);
      && (reply.FetchThrew? ==> e.toast == ErrorToast("Google login failed. Check console."))
      && (reply.GoogleReply? && !reply.ok ==> e.toast == ErrorToast(TextOr(reply.message, "Google sign-in failed.")))
      && (reply.GoogleReply? && reply.ok && (!Truthy(reply.token) || reply.user.None?) ==>
            e.toast == ErrorToast("Invalid Google response."))
      && (e.toast.ErrorToast? ==> e.session == s && e.navigateTo.None?)
  {
  }

  /** A successful Google sign-in ends signed in with the answer's user and
      token, with both stored, and a restart restores that same pair when
      the serialisation is faithful. */
  lemma SuccessSurvivesRestart(s: Session, json: Json, credential: Option<string>, reply: GoogleReply,
                               callbackUrl: Option<string>)
    requires Faithful(json)
    requires OnCredential(s, json, credential, reply, callbackUrl).toast.SuccessToast?
    ensures var e := OnCredential(s, json, credential, reply, callbackUrl);
      && IsAuthenticated(e.session) && Paired(e.session)
      && var r := Boot(e.session.storage, json);
         r.Restored? && r.session.user == reply.user && r.session.token == reply.token
  {
    CommitThenRestart(s, json, reply.user.value, reply.token.value);
  }
}
