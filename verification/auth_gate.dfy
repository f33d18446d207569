/** The gate that hides the application until the session store has
    finished its start-up restore. */
module AuthGate {
  import opened Common
  import opened Types
  import opened AuthContext

  /** What the gate renders: the full-page loader or the children as given. */
  datatype Rendered<T> = Loader | Children(content: T)

  /** The gate's decision; it reads nothing but `authLoading`. */
  function Gate<T>(authLoading: bool, children: T): (r: Rendered<T>)
    ensures authLoading <==> r.Loader?
    ensures !authLoading ==> r == Children(children)
  {
    if authLoading then Loader else Children(children)
  }

  /** The gate over a session: two sessions that agree on `authLoading`
      render the same, whatever their users, tokens and storage. */
  lemma GateReadsOnlyLoading<T>(s1: Session, s2: Session, children: T)
    requires s1.authLoading == s2.authLoading
    ensures Gate(s1.authLoading, children) == Gate(s2.authLoading, children)
  {
  }

  /** Children become visible only through the restore: the first render
      shows the loader, a completed restore shows the children, and no
      later operation closes the gate again. */
  lemma ChildrenOnlyAfterRestore<T>(storage: map<string, string>, json: Json, children: T,
                                    res: ApiResponse, user: User, token: string)
    ensures Gate(Init(storage).authLoading, children) == Loader
    ensures var b := Boot(storage, json);
      b.Restored? ==>
        && Gate(b.session.authLoading, children) == Children(children)
        && Gate(Login(b.session, json, res).session.authLoading, children) == Children(children)
        && Gate(Register(b.session, json, res).session.authLoading, children) == Children(children)
        && Gate(LoginWithGoogle(b.session, json, user, token).authLoading, children) == Children(children)
        && Gate(Logout(b.session).authLoading, children) == Children(children)
  {
  }
}
