/**
 * The session store of `AuthProvider`: the triple {session, user, loading},
 * overwritten wholesale by the initial-session read and by every auth-state
 * change event, and the two provider calls it exposes.
 */
module AuthProvider {
  import opened Wrappers
  import opened Routing

  /** The authenticated principal; the model keeps only its identity. */
  datatype User = User(id: string, email: string)

  /** A provider-issued session, opaque except for the user it authenticates. `handle` stands
      for the identity of the object the client library hands out: every auth event delivers
      a new object, and Preact compares dependencies with `!==`, so two sessions with the same
      token and user but different handles count as different. */
  datatype Session = Session(handle: nat, accessToken: string, user: User)

  /** An error returned by the identity provider. */
  datatype AuthError = AuthError(message: string)

  /** The event names the provider passes to the change listener (the store ignores them). */
  datatype ChangeKind = InitialSessionKind | SignedIn | SignedOut | TokenRefreshed | UserUpdated | PasswordRecovery

  /** A delivery to the store: the resolved initial read, or a change notification. */
  datatype AuthEvent =
    | InitialSession(session: Option<Session>)
    | StateChange(kind: ChangeKind, session: Option<Session>)

  /** `session?.user ?? null`. */
  function UserOf(session: Option<Session>): (u: Option<User>)
    ensures u.None? <==> session.None?
    ensures session.Some? ==> u.value == session.value.user
  {
    if session.Some? then Some(session.value.user) else None
  }

  datatype AuthState = AuthState(session: Option<Session>, user: Option<User>, loading: bool)

  /** The state before any callback has run. */
  const Initial: AuthState := AuthState(None, None, true)

  /** `user` is derived from `session` and never set on its own. */
  predicate Consistent(s: AuthState) {
    s.user == UserOf(s.session)
  }

  /** What either callback does: replace session and user together and clear loading. */
  function Apply(s: AuthState, e: AuthEvent): (r: AuthState)
    ensures Consistent(r) && !r.loading
    ensures r.session == e.session
    ensures r.user.None? <==> e.session.None?
  {
    AuthState(e.session, UserOf(e.session), false)
  }

  /** The store after the events are delivered in order. Last write wins: no event leaves
      the state as it was, and after a non-empty sequence the most recent event alone
      determines the state, with the user derived from its session and loading cleared. */
  function Replay(s: AuthState, events: seq<AuthEvent>): (r: AuthState)
    ensures events == [] ==> r == s
    ensures events != [] ==>
      r == AuthState(events[|events| - 1].session, UserOf(events[|events| - 1].session), false)
    decreases |events|
  {
    if events == [] then s else Replay(Apply(s, events[0]), events[1..])
  }

  /** Loading is true exactly until the first delivery, whichever callback it comes from;
      there is no failure branch that clears it otherwise, and once cleared it never returns. */
  lemma LoadingUntilFirstEvent(events: seq<AuthEvent>, later: seq<AuthEvent>)
    ensures Replay(Initial, events).loading <==> events == []
    ensures events != [] ==> !Replay(Replay(Initial, events), later).loading
  {
  }

  /** The user stays the session's user (null exactly when the session is null) across
      every sequence of events. */
  lemma ReplayKeepsConsistent(s: AuthState, events: seq<AuthEvent>)
    requires Consistent(s)
    ensures Consistent(Replay(s, events))
  {
  }

  /** The store as the provider component holds it. */
  class AuthStore {
    var session: Option<Session>
    var user: Option<User>
    var loading: bool

    function State(): AuthState
      reads this
    {
      AuthState(session, user, loading)
    }

    /** The three `useState` cells start as null, null, true. */
    constructor ()
      ensures State() == Initial
    {
      session, user, loading := None, None, true;
    }

    /** `getSession().then(...)`: the initial read has resolved. */
    method OnInitialSession(s: Option<Session>)
      modifies this
      ensures State() == Apply(old(State()), InitialSession(s))
    {
      session := s;
      user := if s.Some? then Some(s.value.user) else None;
      loading := false;
    }

    /** The `onAuthStateChange` listener: the event name is ignored. */
    method OnAuthStateChange(kind: ChangeKind, s: Option<Session>)
      modifies this
      ensures State() == Apply(old(State()), StateChange(kind, s))
    {
      session := s;
      user := if s.Some? then Some(s.value.user) else None;
      loading := false;
    }
  }

  /** A request the store sends to the identity provider. */
  datatype ProviderRequest =
    | OAuthSignIn(provider: string, redirectTo: string)
    | SignOutRequest

  /** One provider call and how the promise returned to the screen settles. */
  datatype ProviderCall = ProviderCall(request: ProviderRequest, outcome: Outcome<AuthError>)

  /** `if (error) throw error`. */
  function RaiseOnError(error: Option<AuthError>): (r: Outcome<AuthError>)
    ensures r.Fail? <==> error.Some?
    ensures r.Fail? ==> r.error == error.value
  {
    if error.Some? then Fail(error.value) else Pass
  }

  /** `signInWithGoogle`: starts Google OAuth returning to the callback route of the page's
      origin, and rejects exactly with the error the provider returns. */
  function SignInWithGoogle(origin: string, providerError: Option<AuthError>): (c: ProviderCall)
    ensures c.request.OAuthSignIn? && c.request.provider == "google"
    ensures |c.request.redirectTo| >= |origin|
    ensures c.request.redirectTo[..|origin|] == origin && c.request.redirectTo[|origin|..] == CallbackPath
    ensures c.outcome.Fail? <==> providerError.Some?
    ensures c.outcome.Fail? ==> c.outcome.error == providerError.value
  {
    ProviderCall(OAuthSignIn("google", origin + CallbackPath), RaiseOnError(providerError))
  }

  /** `signOut`: rejects exactly with the error the provider returns. The store itself is
      only changed by the provider's later `SIGNED_OUT` event. */
  function SignOut(providerError: Option<AuthError>): (c: ProviderCall)
    ensures c.request == SignOutRequest
    ensures c.outcome.Fail? <==> providerError.Some?
    ensures c.outcome.Fail? ==> c.outcome.error == providerError.value
  {
    ProviderCall(SignOutRequest, RaiseOnError(providerError))
  }
}
