/**
 * `AuthCallback`: the screen the OAuth flow returns to. Once per mount it reads
 * the session and replaces the history entry with the landing page or the
 * sign-in page; it always renders the spinner.
 */
module AuthCallback {
  import opened Wrappers
  import opened Routing
  import opened AuthProvider
  import Guards

  /** Where the callback sends the browser for the session it read. */
  function CallbackTarget(session: Option<Session>): (n: Navigation)
    ensures n.replace
    ensures session.Some? ==> n.path == HomePath
    ensures session.None? ==> n.path == AuthPath
  {
    if session.Some? then Navigation(HomePath, true) else Navigation(AuthPath, true)
  }

  /** The page the callback replaces history with is guarded, and that guard admits the
      session state the callback read; as long as the provider holds that same session state,
      the landing page does not redirect again. */
  lemma CallbackLandsAdmitted(session: Option<Session>)
    ensures Guards.GuardOf(CallbackTarget(session).path).Some?
    ensures Guards.DecidePolicy(Guards.GuardOf(CallbackTarget(session).path).value, false, session.Some?) == Guards.Allowed
  {
  }

  /** A mounted callback screen. */
  class CallbackScreen {
    /** Whether the mount effect has run (its dependency list is empty). */
    var checked: bool
    /** The `route` calls issued, oldest first. */
    var navigations: seq<Navigation>

    constructor ()
      ensures !checked && navigations == []
    {
      checked, navigations := false, [];
    }

    /** After a render: the effect runs on the first commit only and issues exactly one redirect. */
    method Commit(session: Option<Session>)
      modifies this
      ensures checked
      ensures old(checked) ==> navigations == old(navigations)
      ensures !old(checked) ==> navigations == old(navigations) + [CallbackTarget(session)]
    {
      if !checked {
        checked := true;
        navigations := navigations + [CallbackTarget(session)];
      }
    }

    /** The screen shows the spinner whatever the state. */
    function Rendered(): (v: View)
      reads this
      ensures v == Spinner
    {
      Spinner
    }
  }
}
