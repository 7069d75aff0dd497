/**
 * The guard at the head of both apps' `authWithCognito`: only a missing pool
 * id is refused; a present one is trimmed and handed to the authentication
 * helper, even when trimming leaves nothing.
 */
module CognitoGuard {
  import opened Optional
  import opened SwiftText
  import opened TrackingSession

  /** What the guard decides: show the "not configured" alert, or authenticate with the
      trimmed pool id. */
  datatype AuthStep = NotConfigured | Authenticate(identityPoolId: string)

  const ErrorTitle: string := "Error"
  const NotConfiguredText: string := "NotAllFieldsAreConfigured"

  function AuthGuard(identityPoolId: Option<string>): (r: AuthStep)
    ensures r.NotConfigured? <==> identityPoolId.None?
    ensures r.Authenticate? ==>
      && (exists i, j :: TrimmedSlice(identityPoolId.value, r.identityPoolId, i, j))
      && (r.identityPoolId == "" || (!IsWhitespace(r.identityPoolId[0])
                                     && !IsWhitespace(r.identityPoolId[|r.identityPoolId| - 1])))
  {
    match identityPoolId
    case None => NotConfigured
    case Some(id) => Authenticate(Trim(id))
  }

  /** A blank pool id passes the guard and reaches authentication as "", since trimming
      never fails. */
  lemma BlankPoolIdIsNotRefused(id: string)
    requires forall k :: 0 <= k < |id| ==> IsWhitespace(id[k])
    ensures AuthGuard(Some(id)) == Authenticate("")
  {
    TrimEmptyIff(id);
  }

  /** The id handed on is already trimmed: the guard applied to it again changes nothing. */
  lemma AuthGuardTrimmed(id: string)
    ensures AuthGuard(Some(AuthGuard(Some(id)).identityPoolId)) == AuthGuard(Some(id))
  {
    TrimIdempotent(id);
  }

  /** What the quick-start `authWithCognito` leaves: the screen state, and whether the call
      throws to its caller (the authentication error is not caught there). */
  datatype QuickAuth = QuickAuth(session: QuickSession, thrown: bool)

  /** The quick-start `authWithCognito`: the alert is set on the view-model itself; an
      authentication that returns leaves a credentials provider, one that throws passes its
      error on to the caller. */
  function QuickAuthWithCognito(s: QuickSession, identityPoolId: Option<string>, auth: Outcome)
    : (r: QuickAuth)
    ensures r.thrown <==> identityPoolId.Some? && !auth.Succeeded?
    ensures identityPoolId.None? ==> r.session == s.(alert := Alert(true, ErrorTitle, NotConfiguredText))
    ensures identityPoolId.Some? ==>
      r.session == s.(hasCredentials := s.hasCredentials || auth.Succeeded?)
  {
    match AuthGuard(identityPoolId)
    case NotConfigured => QuickAuth(s.(alert := Alert(true, ErrorTitle, NotConfiguredText)), false)
    case Authenticate(_) =>
      if auth.Succeeded? then QuickAuth(s.(hasCredentials := true), false)
      else QuickAuth(s, true)
  }

  /** A failed authentication changes nothing on the screen and is reported only by the
      throw; only a missing pool id raises the alert. */
  lemma QuickAuthErrorsEscape(s: QuickSession, identityPoolId: Option<string>, auth: Outcome)
    ensures var r := QuickAuthWithCognito(s, identityPoolId, auth);
      && (r.thrown ==> r.session == s)
      && (r.session.alert != s.alert ==> identityPoolId.None?)
  {
  }

  /** The sample app's `startTracking` passes its non-optional pool id, so its guard never
      refuses. */
  lemma SampleStartNeverRefused(id: string)
    ensures AuthGuard(Some(id)).Authenticate?
  {
  }
}
