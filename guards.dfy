/**
 * `RouteGuard`: a pure decision from {loading, session, requireAuth, redirectTo}
 * and the effect that runs it after every render whose dependencies changed,
 * updating `shouldRender` and issuing history-replace redirects.
 */
module Guards {
  import opened Wrappers
  import opened Routing
  import opened AuthProvider

  /** The guard's decision: wait for the session, render the children, or send the user away. */
  datatype Verdict = Pending | Allowed | Redirecting(target: string)

  /** `requireAuth ? !hasSession : hasSession`. */
  function ShouldRedirect(requireAuth: bool, hasSession: bool): (r: bool)
    ensures r <==> requireAuth != hasSession
  {
    if requireAuth then !hasSession else hasSession
  }

  /** The decision the effect takes. */
  function Decide(loading: bool, hasSession: bool, requireAuth: bool, redirectTo: string): (v: Verdict)
    ensures loading ==> v == Pending
    ensures v == Allowed <==> !loading && requireAuth == hasSession
    ensures v.Redirecting? <==> !loading && requireAuth != hasSession
    ensures v.Redirecting? ==> v.target == redirectTo
  {
    if loading then Pending
    else if ShouldRedirect(requireAuth, hasSession) then Redirecting(redirectTo)
    else Allowed
  }

  /** The effect's dependency list `[session, loading, requireAuth, redirectTo]`. */
  datatype Deps = Deps(session: Option<Session>, loading: bool, requireAuth: bool, redirectTo: string)

  function Judge(d: Deps): Verdict {
    Decide(d.loading, d.session.Some?, d.requireAuth, d.redirectTo)
  }

  /** What a mounted guard remembers: its `shouldRender` state, the dependencies of the
      last effect run, and the `route` calls it has issued, oldest first. */
  datatype GuardMemory = GuardMemory(shouldRender: bool, lastDeps: Option<Deps>, navigations: seq<Navigation>)

  /** A freshly mounted guard: `useState(false)`, no effect run yet, no redirect. */
  const Mounted: GuardMemory := GuardMemory(false, None, [])

  /** The effect body: returns early while loading; otherwise redirects with history replace
      and hides the children, or shows them. */
  function Effect(m: GuardMemory, d: Deps): (r: GuardMemory)
    ensures r.lastDeps == m.lastDeps
    ensures d.loading ==> r == m
    ensures !d.loading ==> (r.shouldRender <==> Judge(d) == Allowed)
    ensures r.navigations == if Judge(d).Redirecting? then m.navigations + [Navigation(d.redirectTo, true)] else m.navigations
  {
    match Judge(d)
    case Pending => m
    case Allowed => m.(shouldRender := true)
    case Redirecting(target) => m.(shouldRender := false, navigations := m.navigations + [Navigation(target, true)])
  }

  /** One commit of the guard: the effect runs on mount and whenever a dependency changed. */
  function Step(m: GuardMemory, d: Deps): (r: GuardMemory)
    ensures r.lastDeps == Some(d)
    ensures m.lastDeps == Some(d) ==> r == m
    ensures d.loading ==> r.shouldRender == m.shouldRender && r.navigations == m.navigations
    ensures m.lastDeps != Some(d) && !d.loading ==>
      (r.shouldRender <==> d.requireAuth == d.session.Some?) &&
      r.navigations == (if r.shouldRender then m.navigations else m.navigations + [Navigation(d.redirectTo, true)])
  {
    if m.lastDeps == Some(d) then m else Effect(m, d).(lastDeps := Some(d))
  }

  /** The guard after a sequence of commits, oldest first: it remembers the last commit's
      dependencies and only ever appends to its navigation log. */
  function StepAll(m: GuardMemory, history: seq<Deps>): (r: GuardMemory)
    ensures history == [] ==> r == m
    ensures history != [] ==> r.lastDeps == Some(history[|history| - 1])
    ensures m.navigations <= r.navigations
    decreases |history|
  {
    if history == [] then m else Step(StepAll(m, history[..|history| - 1]), history[|history| - 1])
  }

  /** Commit `i` had a known session and every later commit was made while loading. */
  ghost predicate LastSettledAt(history: seq<Deps>, i: nat) {
    i < |history| && !history[i].loading && forall k :: i < k < |history| ==> history[k].loading
  }

  /** The most recent commit made while the session was known. */
  function LastSettled(history: seq<Deps>): (r: Option<Deps>)
    ensures r.Some? ==> exists i: nat :: LastSettledAt(history, i) && history[i] == r.value
    ensures r.None? <==> forall k :: 0 <= k < |history| ==> history[k].loading
  {
    if history == [] then None
    else if !history[|history| - 1].loading then
      assert LastSettledAt(history, |history| - 1);
      Some(history[|history| - 1])
    else
      var r := LastSettled(history[..|history| - 1]);
      assert r.Some? ==> exists i: nat :: LastSettledAt(history, i) && history[i] == r.value by {
        if r.Some? {
          var i: nat :| LastSettledAt(history[..|history| - 1], i) && history[..|history| - 1][i] == r.value;
          assert LastSettledAt(history, i);
        }
      }
      r
  }

  /** A token refresh delivers a new session object with the same content; the dependency
      list differs by identity, so a guest route that already redirected redirects again. */
  lemma RefreshedSessionRedirectsAgain(m: GuardMemory, d: Deps, handle: nat)
    requires m.lastDeps == Some(d) && d.session.Some? && !d.loading && !d.requireAuth
    requires handle != d.session.value.handle
    ensures Step(m, d.(session := Some(d.session.value.(handle := handle)))).navigations ==
      m.navigations + [Navigation(d.redirectTo, true)]
  {
  }

  /** What the guard renders: the spinner while loading, otherwise the children only if allowed. */
  function Render(m: GuardMemory, loading: bool): (v: View)
    ensures v == Spinner <==> loading
    ensures v == Children <==> !loading && m.shouldRender
  {
    if loading then Spinner else if m.shouldRender then Children else Nothing
  }

  /** The children are shown only when the latest commit with a known session allowed them:
      a freshly mounted guard renders nothing, and a later redirecting evaluation hides a
      previously allowed screen. */
  lemma {:induction false} ShownOnlyAfterAllow(history: seq<Deps>)
    ensures StepAll(Mounted, history).lastDeps == (if history == [] then None else Some(history[|history| - 1]))
    ensures StepAll(Mounted, history).shouldRender <==> LastSettled(history).Some? && Judge(LastSettled(history).value) == Allowed
    decreases |history|
  {
    if history != [] {
      var init := history[..|history| - 1];
      ShownOnlyAfterAllow(init);
      var d := history[|history| - 1];
      if !d.loading && StepAll(Mounted, init).lastDeps == Some(d) {
        assert LastSettled(init) == Some(d);
      }
    }
  }

  /** What commit `n` itself renders. Effects run after the render, so the render sees the
      `shouldRender` left by the earlier commits: the children show exactly when the commit is
      not loading and the last settled commit BEFORE it allowed them. */
  lemma CommitRendersPreviousVerdict(history: seq<Deps>, n: nat)
    requires n < |history|
    ensures Render(StepAll(Mounted, history[..n]), history[n].loading) == Children <==>
      !history[n].loading && LastSettled(history[..n]).Some? && Judge(LastSettled(history[..n]).value) == Allowed
  {
    ShownOnlyAfterAllow(history[..n]);
  }

  /** After a sign-out on a protected page, the commit that sees no session still renders the
      children once; only its effect then redirects to the sign-in page and hides them. */
  lemma StaleChildrenAfterSignOut(s: Session)
    ensures Render(StepAll(Mounted, [Deps(Some(s), false, true, AuthPath)]), false) == Children
    ensures Step(StepAll(Mounted, [Deps(Some(s), false, true, AuthPath)]), Deps(None, false, true, AuthPath)) ==
      GuardMemory(false, Some(Deps(None, false, true, AuthPath)), [Navigation(AuthPath, true)])
  {
    var allowed := Deps(Some(s), false, true, AuthPath);
    assert [allowed][..0] == [];
  }

  /** Every redirect the guard issues is a history replace to its configured target. */
  lemma {:induction false} RedirectsReplaceHistory(history: seq<Deps>)
    ensures forall k :: 0 <= k < |StepAll(Mounted, history).navigations| ==>
      StepAll(Mounted, history).navigations[k].replace &&
      exists j :: 0 <= j < |history| && StepAll(Mounted, history).navigations[k].path == history[j].redirectTo
    decreases |history|
  {
    if history != [] {
      var init := history[..|history| - 1];
      RedirectsReplaceHistory(init);
      var before := StepAll(Mounted, init).navigations;
      forall k | 0 <= k < |before|
        ensures exists j :: 0 <= j < |history| && before[k].path == history[j].redirectTo
      {
        var j :| 0 <= j < |init| && before[k].path == init[j].redirectTo;
        assert history[j] == init[j];
      }
    }
  }

  /** While the session is loading, no commit ever redirects and nothing is allowed yet. */
  lemma {:induction false} NoRedirectWhileLoading(history: seq<Deps>)
    requires forall k :: 0 <= k < |history| ==> history[k].loading
    ensures StepAll(Mounted, history).navigations == []
    ensures !StepAll(Mounted, history).shouldRender
    decreases |history|
  {
    if history != [] {
      NoRedirectWhileLoading(history[..|history| - 1]);
    }
  }

  /** A mounted `RouteGuard`. */
  class RouteGuard {
    var shouldRender: bool
    var lastDeps: Option<Deps>
    var navigations: seq<Navigation>

    function Memory(): GuardMemory
      reads this
    {
      GuardMemory(shouldRender, lastDeps, navigations)
    }

    constructor ()
      ensures Memory() == Mounted
    {
      shouldRender, lastDeps, navigations := false, None, [];
    }

    /** After a render: run the effect if the dependency list changed. */
    method Commit(session: Option<Session>, loading: bool, requireAuth: bool, redirectTo: string)
      modifies this
      ensures Memory() == Step(old(Memory()), Deps(session, loading, requireAuth, redirectTo))
    {
      var deps := Deps(session, loading, requireAuth, redirectTo);
      if lastDeps == Some(deps) {
        return;
      }
      lastDeps := Some(deps);
      if loading {
        return;
      }
      var hasSession := session.Some?;
      var shouldRedirect := if requireAuth then !hasSession else hasSession;
      if shouldRedirect {
        navigations := navigations + [Navigation(redirectTo, true)];
        shouldRender := false;
      } else {
        shouldRender := true;
      }
    }

    function Rendered(loading: bool): (v: View)
      reads this
      ensures v == Render(Memory(), loading)
    {
      if loading then Spinner else if shouldRender then Children else Nothing
    }
  }

  /** Which session a route demands and where it sends a user who does not meet it. */
  datatype Policy = Policy(requireAuth: bool, redirectTo: string)

  /** `ProtectedRoute`: a session is required, otherwise go to the sign-in page. */
  const ProtectedRoute: Policy := Policy(true, AuthPath)

  /** `GuestRoute`: no session allowed, otherwise go to the landing page. */
  const GuestRoute: Policy := Policy(false, HomePath)

  /** The router's table: the landing page is protected, the sign-in page is for guests, and
      every other page (the callback among them) is unguarded. */
  function GuardOf(path: string): (p: Option<Policy>)
    ensures p.Some? <==> path == HomePath || path == AuthPath
    ensures path == HomePath ==> p == Some(ProtectedRoute)
    ensures path == AuthPath ==> p == Some(GuestRoute)
  {
    if path == HomePath then Some(ProtectedRoute)
    else if path == AuthPath then Some(GuestRoute)
    else None
  }

  function DecidePolicy(p: Policy, loading: bool, hasSession: bool): Verdict {
    Decide(loading, hasSession, p.requireAuth, p.redirectTo)
  }

  lemma ProtectedRouteVerdicts(loading: bool, hasSession: bool)
    ensures DecidePolicy(ProtectedRoute, loading, hasSession) ==
      if loading then Pending else if hasSession then Allowed else Redirecting("/auth")
  {
  }

  lemma GuestRouteVerdicts(loading: bool, hasSession: bool)
    ensures DecidePolicy(GuestRoute, loading, hasSession) ==
      if loading then Pending else if hasSession then Redirecting("/") else Allowed
  {
  }
}
