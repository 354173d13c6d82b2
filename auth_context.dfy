/** The authentication context of the client: the provider's `user`/`loading` state, driven
    by the initial session check and by auth events, its render gate, and the `useAuth` hook. */
module Auth {
  import opened Wrappers

  /** The auth provider's user object, reduced to the fields the client reads:
      `id`, `email`, `user_metadata.username` and `user_metadata.avatar_url`. */
  datatype AuthUser = AuthUser(id: string, email: string,
                               metaUsername: Option<string>, metaAvatarUrl: Option<string>)

  datatype Session = Session(user: AuthUser)

  /** The backend SDK client, created once at module scope from its URL and anonymous key. */
  datatype Client = Client(url: string, anonKey: string)

  /** The two event names the `onAuthStateChange` listener tests for. */
  const SignedInEvent: string := "SIGNED_IN"
  const SignedOutEvent: string := "SIGNED_OUT"

  /** The value the provider hands to its consumers: exactly `user`, `loading` and the client. */
  datatype ContextValue = ContextValue(user: Option<AuthUser>, loading: bool, client: Client)

  /** What `useContext(AuthContext)` can yield: `undefined`, the `null` the context was
      created with, or the value of the nearest provider. */
  datatype ContextSlot = Undefined | Null | Provided(value: ContextValue)

  /** `useContext(AuthContext)`: the provider's value inside a provider, the context's
      default `null` outside one. It never yields `undefined`, so `useAuth` never throws. */
  function ReadContext(provider: Option<ContextValue>): (c: ContextSlot)
    ensures provider.Some? ==> c == Provided(provider.value)
    ensures provider.None? ==> c == Null
    ensures UseAuth(c).Ok?
  {
    match provider
    case Some(v) => Provided(v)
    case None => Null
  }

  /** `useAuth()`: throws exactly when the context is `undefined`, otherwise returns it as is. */
  function UseAuth(c: ContextSlot): (r: Result<ContextSlot>)
    ensures r.Err? <==> c.Undefined?
    ensures r.Ok? ==> r.value == c
  {
    if c.Undefined? then Err("useAuth must be used within an AuthProvider") else Ok(c)
  }

  /** The state of one mounted `AuthProvider`. */
  class AuthProvider {
    const client: Client
    var user: Option<AuthUser>
    var loading: bool

    /** First render: no user yet, and the session check pending. */
    constructor (client: Client)
      ensures this.client == client
      ensures user.None? && loading
    {
      this.client := client;
      user := None;
      loading := true;
    }

    /** `getSession` resolved. The user is taken from the session when there is one and is
        otherwise left alone (an error is only logged); loading ends in every case. */
    method SessionChecked(session: Option<Session>)
      modifies this
      ensures user == if session.Some? then Some(session.value.user) else old(user)
      ensures !loading
    {
      if session.Some? {
        user := Some(session.value.user);
      }
      loading := false;
    }

    /** The `onAuthStateChange` listener. SIGNED_IN takes the session's user, SIGNED_OUT
        clears it, any other event keeps it; every event that completes ends loading.
        A SIGNED_IN without a session fails on `session.user` before either update runs. */
    method AuthStateChanged(event: string, session: Option<Session>)
      modifies this
      ensures event == SignedInEvent && session.None? ==>
                user == old(user) && loading == old(loading)
      ensures event == SignedInEvent && session.Some? ==>
                user == Some(session.value.user) && !loading
      ensures event == SignedOutEvent ==> user.None? && !loading
      ensures event != SignedInEvent && event != SignedOutEvent ==>
                user == old(user) && !loading
      ensures !old(loading) ==> !loading
    {
      if event == SignedInEvent {
        if session.None? {
          return;
        }
        user := Some(session.value.user);
      } else if event == SignedOutEvent {
        user := None;
      }
      loading := false;
    }

    /** The context value provided to the subtree. */
    function Value(): (v: ContextValue)
      reads this
      ensures v.user == user && v.loading == loading && v.client == client
    {
      ContextValue(user, loading, client)
    }

    /** The render gate `{!loading && children}`. */
    predicate RendersChildren()
      reads this
    {
      !loading
    }
  }

  /** Children appear only once loading is over, and then inside the provider `useAuth`
      hands them this provider's value. */
  lemma RenderGate(p: AuthProvider)
    ensures p.RendersChildren() <==> !p.loading
    ensures UseAuth(ReadContext(Some(p.Value()))) == Ok(Provided(p.Value()))
  {
  }
}
