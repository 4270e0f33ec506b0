/** The root layout (src/routes/__root.tsx): the effect that watches the
    authentication status and the signed-in user, and clears the query cache
    and sends the browser to '/' when a session ends, starts or changes hands;
    and the sign-out button's handler. The authenticator's state is an input
    of each effect run; a redirect is an output. */
module RootLayout {
  import opened Types
  import opened QueryKeys

  /** The authenticator's `authStatus`. */
  datatype AuthStatus = Configuring | Authenticated | Unauthenticated

  /** What the authenticator knows of the user: `signInDetails.loginId`,
      `username` and `userId`, each possibly missing. */
  datatype AuthUser = AuthUser(loginId: Option<string>, username: Option<string>, userId: Option<string>)

  /** `user?.signInDetails?.loginId || user?.username || user?.userId || null` */
  function UserIdentifier(user: Option<AuthUser>): (r: Option<string>)
    ensures r.Some? ==> r.value != []
  {
    if user.None? then None
    else if Truthy(user.value.loginId) then user.value.loginId
    else if Truthy(user.value.username) then user.value.username
    else if Truthy(user.value.userId) then user.value.userId
    else None
  }

  /** The identifier is the first non-empty one of loginId, username and
      userId, and there is none exactly when all three are missing or empty. */
  lemma UserIdentifierPrefersLoginId(u: AuthUser)
    ensures Truthy(u.loginId) ==> UserIdentifier(Some(u)) == u.loginId
    ensures !Truthy(u.loginId) && Truthy(u.username) ==> UserIdentifier(Some(u)) == u.username
    ensures !Truthy(u.loginId) && !Truthy(u.username) ==> UserIdentifier(Some(u)) == (if Truthy(u.userId) then u.userId else None)
    ensures UserIdentifier(Some(u)).None? <==> !Truthy(u.loginId) && !Truthy(u.username) && !Truthy(u.userId)
    ensures UserIdentifier(Some(u)).Some? ==>
              UserIdentifier(Some(u)) in {u.loginId, u.username, u.userId}
  {
  }

  /** The three refs the effect reads and writes. */
  datatype Refs = Refs(prevAuthStatus: Option<AuthStatus>, prevUserId: Option<string>, isInitialMount: bool)

  const InitialRefs := Refs(None, None, true)

  /** What one effect run does besides updating the refs: whether it clears
      the cache, and the delay in milliseconds of the redirect to '/', if any. */
  datatype Reaction = Reaction(clearsCache: bool, redirectAfter: Option<nat>)

  const Quiet := Reaction(false, None)
  /** The sign-out redirect waits for the authenticator. */
  const SignOutDelay := 100

  /** One effect run: the refs afterwards and the reaction. */
  function Step(refs: Refs, status: AuthStatus, user: Option<AuthUser>): (Refs, Reaction)
  {
    var id := UserIdentifier(user);
    if refs.isInitialMount then
      (Refs(Some(status), id, false), Quiet)
    else if refs.prevAuthStatus == Some(Authenticated) && status == Unauthenticated then
      (refs, Reaction(true, Some(SignOutDelay)))
    else if refs.prevAuthStatus == Some(Unauthenticated) && status == Authenticated then
      (refs, Reaction(true, Some(0)))
    else if status == Authenticated && refs.prevUserId.Some? && id.Some? && refs.prevUserId != id then
      (refs, Reaction(true, Some(0)))
    else
      (Refs(Some(status), id, false), Quiet)
  }

  /** The first run only records the status and identifier. */
  lemma FirstRunOnlyRecords(status: AuthStatus, user: Option<AuthUser>)
    ensures Step(InitialRefs, status, user) == (Refs(Some(status), UserIdentifier(user), false), Quiet)
  {
  }

  /** A run clears the cache exactly when it redirects, and exactly when it
      leaves the refs as they were (after the first run); a run that neither
      clears nor redirects records the current status and identifier. */
  lemma {:induction false} ClearGoesWithRedirect(refs: Refs, status: AuthStatus, user: Option<AuthUser>)
    ensures var (next, r) := Step(refs, status, user);
            (r.clearsCache <==> r.redirectAfter.Some?)
            && (r.clearsCache ==> next == refs && !refs.isInitialMount)
            && (!r.clearsCache ==> next == Refs(Some(status), UserIdentifier(user), false) && r == Quiet)
  {
  }

  /** Which transitions clear and redirect: sign-out (after 100 ms), sign-in,
      and a change between two known users while signed in. */
  lemma {:induction false} TransitionsThatClear(refs: Refs, status: AuthStatus, user: Option<AuthUser>)
    requires !refs.isInitialMount
    ensures var id := UserIdentifier(user);
            var r := Step(refs, status, user).1;
            r.clearsCache <==>
              (refs.prevAuthStatus == Some(Authenticated) && status == Unauthenticated)
              || (refs.prevAuthStatus == Some(Unauthenticated) && status == Authenticated)
              || (status == Authenticated && refs.prevUserId.Some? && id.Some? && refs.prevUserId != id)
    ensures refs.prevAuthStatus == Some(Authenticated) && status == Unauthenticated ==>
              Step(refs, status, user).1 == Reaction(true, Some(SignOutDelay))
    ensures refs.prevAuthStatus == Some(Unauthenticated) && status == Authenticated ==>
              Step(refs, status, user).1 == Reaction(true, Some(0))
  {
  }

  /** A run that sees the status and user it last recorded does nothing. */
  lemma {:induction false} UnchangedSessionIsQuiet(refs: Refs, status: AuthStatus, user: Option<AuthUser>)
    requires !refs.isInitialMount
    requires refs.prevAuthStatus == Some(status) && refs.prevUserId == UserIdentifier(user)
    ensures Step(refs, status, user) == (refs, Quiet)
  {
  }

  /** Re-running after a quiet run with the same inputs is quiet again. */
  lemma {:induction false} QuietRunIsStable(refs: Refs, status: AuthStatus, user: Option<AuthUser>)
    requires Step(refs, status, user).1 == Quiet
    ensures var next := Step(refs, status, user).0;
            Step(next, status, user) == (next, Quiet)
  {
    var next := Step(refs, status, user).0;
    assert next == Refs(Some(status), UserIdentifier(user), false);
    UnchangedSessionIsQuiet(next, status, user);
  }

  /** Because a clearing run does not record the new status, a further run
      before the page reloads sees the same transition and clears again. */
  lemma {:induction false} ClearingRunRepeats(refs: Refs, status: AuthStatus, user: Option<AuthUser>)
    requires Step(refs, status, user).1.clearsCache
    ensures Step(Step(refs, status, user).0, status, user) == Step(refs, status, user)
  {
    ClearGoesWithRedirect(refs, status, user);
  }

  /** A user who was unknown while the authenticator was configuring and is
      then signed in does not trigger a clear. */
  lemma ConfiguringToSignedInIsQuiet(user: Option<AuthUser>)
    ensures Step(Refs(Some(Configuring), None, false), Authenticated, user).1 == Quiet
  {
  }

  /** The component's refs, updated in place by each effect run. */
  class AuthWatcher {
    var prevAuthStatus: Option<AuthStatus>
    var prevUserId: Option<string>
    var isInitialMount: bool

    function RefsOf(): Refs
      reads this
    {
      Refs(prevAuthStatus, prevUserId, isInitialMount)
    }

    constructor ()
      ensures RefsOf() == InitialRefs
    {
      prevAuthStatus, prevUserId, isInitialMount := None, None, true;
    }

    /** The effect: the redirect delay, if any; the refs and the cache
        change as `Step` says. */
    method Effect(qc: QueryClient, status: AuthStatus, user: Option<AuthUser>)
      returns (redirectAfter: Option<nat>)
      modifies this, qc
      ensures RefsOf() == Step(old(RefsOf()), status, user).0
      ensures redirectAfter == Step(old(RefsOf()), status, user).1.redirectAfter
      ensures qc.upToDate == if Step(old(RefsOf()), status, user).1.clearsCache then {} else old(qc.upToDate)
    {
      var currentUserIdentifier := UserIdentifier(user);
      if isInitialMount {
        isInitialMount := false;
        prevAuthStatus := Some(status);
        prevUserId := currentUserIdentifier;
        return None;
      }
      if prevAuthStatus == Some(Authenticated) && status == Unauthenticated {
        qc.Clear();
        return Some(SignOutDelay);
      }
      if prevAuthStatus == Some(Unauthenticated) && status == Authenticated {
        qc.Clear();
        return Some(0);
      }
      if status == Authenticated && prevUserId.Some? && currentUserIdentifier.Some?
         && prevUserId != currentUserIdentifier {
        qc.Clear();
        return Some(0);
      }
      prevAuthStatus := Some(status);
      prevUserId := currentUserIdentifier;
      redirectAfter := None;
    }
  }

  /** The observable steps of a sign-out. */
  datatype SignOutStep = ClearCache | CallSignOut | RedirectHome

  /** The cache is cleared first, then `signOut` is called; if it throws,
      the browser goes to '/'. */
  function SignOutSteps(signOutThrows: bool): (r: seq<SignOutStep>)
    ensures |r| >= 2 && r[0] == ClearCache && r[1] == CallSignOut
    ensures RedirectHome in r <==> signOutThrows
  {
    [ClearCache, CallSignOut] + (if signOutThrows then [RedirectHome] else [])
  }

  /** `handleSignOut`: whether `signOut` throws is an input. */
  method HandleSignOut(qc: QueryClient, signOutThrows: bool) returns (steps: seq<SignOutStep>)
    modifies qc
    ensures steps == SignOutSteps(signOutThrows)
    ensures qc.upToDate == {}
  {
    qc.Clear();
    steps := [ClearCache, CallSignOut];
    if signOutThrows {
      steps := steps + [RedirectHome];
    }
  }
}
