/**
 * The start / resume / stop transitions of both apps' tracking screens: the
 * button's label, colour and icon, the tracking-active flag, and the alert.
 *
 * The SDK and service calls a transition makes (authentication, listing the
 * geofences, starting the tracker) are inputs: each is given as the `Outcome`
 * it would have. Localised strings are represented by their localisation keys.
 * The hops to the main queue are taken as done by the time the next
 * transition runs.
 */
module TrackingSession {
  import opened Optional
  import opened CollectionArn
  import opened PositionHistory

  datatype ButtonColor = Blue | Red

  /** `showAlert`, `alertTitle`, `alertMessage`. */
  datatype Alert = Alert(shown: bool, title: string, message: string)

  /** How a call into the SDK ended: it returned, it threw
      `TrackingLocationError.permissionDenied`, or it threw any other error. */
  datatype Outcome = Succeeded | PermissionDenied | Failed(description: string)

  const StartLabel: string := "StartTrackingLabel"
  const StopLabel: string := "StopTrackingLabel"
  const RationaleTitle: string := "locationManagerAlertTitle"
  const RationaleText: string := "locationManagerAlertText"

  /** `showLocationDeniedRationale` of both apps. */
  function RationaleAlert(): (r: Alert)
    ensures r.shown && r.title == RationaleTitle && r.message == RationaleText
  {
    Alert(true, RationaleTitle, RationaleText)
  }

  /** The first call that did not return; later calls are not made once one throws. */
  function FirstFailure(steps: seq<Outcome>): (r: Outcome)
    ensures r.Succeeded? <==> forall k :: 0 <= k < |steps| ==> steps[k].Succeeded?
    ensures !r.Succeeded? ==>
      exists k :: 0 <= k < |steps| && steps[k] == r && forall m :: 0 <= m < k ==> steps[m].Succeeded?
  {
    if |steps| == 0 then Succeeded
    else if steps[0].Succeeded? then
      var r := FirstFailure(steps[1..]);
      assert forall k :: 1 <= k < |steps| ==> steps[k] == steps[1..][k - 1];
      if r.Succeeded? then r
      else
        var k :| 0 <= k < |steps[1..]| && steps[1..][k] == r && forall m :: 0 <= m < k ==> steps[1..][m].Succeeded?;
        assert steps[k + 1] == r && forall m :: 0 <= m < k + 1 ==> steps[m].Succeeded?;
        r
    else steps[0]
  }

  // ---------------------------------------------------------------------------
  // The location sample app (`AuthViewModel`)

  /** The sample app's screen. `trackingActive` is the persisted flag (absent until first
      saved); `hasClient` says whether the tracker client exists. */
  datatype SampleSession = SampleSession(
    buttonText: string,
    buttonColor: ButtonColor,
    trackingActive: Option<bool>,
    alert: Alert,
    hasClient: bool)

  /** A fresh `AuthViewModel`: Start label, blue, the placeholder alert, no client. The
      persisted flag is whatever a previous run saved. */
  function SampleInitial(persisted: Option<bool>): SampleSession {
    SampleSession(StartLabel, Blue, persisted, Alert(false, "Title", "Message"), false)
  }

  /** The button shows Stop in red exactly when it does not show Start in blue. */
  predicate ButtonConsistent(text: string, color: ButtonColor) {
    (text == StopLabel && color == Red) || (text == StartLabel && color == Blue)
  }

  /** The calls `startTracking` / `resumeTracking` make, in order: authentication when there
      is no client yet, then (for a start) the geofence listing when the collection name
      resolves, then the tracker's own start or resume. */
  function SampleSteps(hasClient: bool, listsGeofences: bool, auth: Outcome,
                       listing: Outcome, tracking: Outcome): seq<Outcome> {
    (if hasClient then [] else [auth]) + (if listsGeofences then [listing] else []) + [tracking]
  }

  /** The common tail of `startTracking` and `resumeTracking`: success shows Stop in red and
      persists `true`; a denied permission shows the rationale; any other error is only
      printed. A successful authentication leaves a client behind either way. */
  function SampleFinish(s: SampleSession, auth: Outcome, outcome: Outcome): (r: SampleSession)
    ensures r.hasClient <==> s.hasClient || auth.Succeeded?
  {
    var withClient := s.(hasClient := s.hasClient || auth.Succeeded?);
    match outcome
    case Succeeded => withClient.(buttonText := StopLabel, buttonColor := Red, trackingActive := Some(true))
    case PermissionDenied => withClient.(alert := RationaleAlert())
    case Failed(_) => withClient
  }

  /** `startTracking`; `arn` is the configured geofence collection ARN. */
  function SampleStart(s: SampleSession, arn: string, auth: Outcome, listing: Outcome,
                       tracking: Outcome): (r: SampleSession)
    ensures (r.trackingActive == Some(true) && r.buttonText == StopLabel && r.buttonColor == Red)
      || (r.trackingActive == s.trackingActive && r.buttonText == s.buttonText && r.buttonColor == s.buttonColor)
    ensures var steps := SampleSteps(s.hasClient, GeofenceCollectionName(arn).Some?, auth, listing, tracking);
      (forall k :: 0 <= k < |steps| ==> steps[k].Succeeded?) ==>
        r.trackingActive == Some(true) && r.buttonText == StopLabel && r.buttonColor == Red
  {
    var steps := SampleSteps(s.hasClient, GeofenceCollectionName(arn).Some?, auth, listing, tracking);
    SampleFinish(s, if s.hasClient then Succeeded else auth, FirstFailure(steps))
  }

  /** `resumeTracking`: as a start, without the geofence listing. */
  function SampleResume(s: SampleSession, auth: Outcome, tracking: Outcome): (r: SampleSession)
    ensures (!s.hasClient ==> auth.Succeeded?) && tracking.Succeeded? ==>
      r.trackingActive == Some(true) && r.buttonText == StopLabel && r.buttonColor == Red
  {
    var steps := SampleSteps(s.hasClient, false, auth, Succeeded, tracking);
    SampleFinish(s, if s.hasClient then Succeeded else auth, FirstFailure(steps))
  }

  /** `stopTracking`: needs the client (it is force-unwrapped). */
  function SampleStop(s: SampleSession): (r: SampleSession)
    requires s.hasClient
    ensures r.buttonText == StartLabel && r.buttonColor == Blue && r.trackingActive == Some(false)
    ensures r.alert == s.alert && r.hasClient
  {
    s.(buttonText := StartLabel, buttonColor := Blue, trackingActive := Some(false))
  }

  /** How a start ends, step by step: success exactly when every call it makes returns; a
      denied permission shows the rationale and leaves the flag; any other error changes
      nothing but the client. */
  lemma SampleStartOutcome(s: SampleSession, arn: string, auth: Outcome, listing: Outcome,
                           tracking: Outcome)
    ensures var steps := SampleSteps(s.hasClient, GeofenceCollectionName(arn).Some?, auth, listing, tracking);
      var r := SampleStart(s, arn, auth, listing, tracking);
      && ((forall k :: 0 <= k < |steps| ==> steps[k].Succeeded?) <==> FirstFailure(steps).Succeeded?)
      && (FirstFailure(steps).Succeeded? ==>
            r == s.(buttonText := StopLabel, buttonColor := Red, trackingActive := Some(true), hasClient := true))
      && (FirstFailure(steps).PermissionDenied? ==>
            r.alert == RationaleAlert() && r.trackingActive == s.trackingActive
            && r.buttonText == s.buttonText && r.buttonColor == s.buttonColor)
      && (FirstFailure(steps).Failed? ==>
            r.alert == s.alert && r.trackingActive == s.trackingActive
            && r.buttonText == s.buttonText && r.buttonColor == s.buttonColor)
  {
    var steps := SampleSteps(s.hasClient, GeofenceCollectionName(arn).Some?, auth, listing, tracking);
    if FirstFailure(steps).Succeeded? && !s.hasClient {
      assert steps[0] == auth;
    }
  }

  /** How a resume ends: the first call that throws is the authentication (made only without
      a client) or else the tracker's resume. Success shows Stop in red, persists `true` and
      keeps the alert; a denied permission shows the rationale and keeps the flag and the
      button; any other error changes nothing but the client. */
  lemma SampleResumeOutcome(s: SampleSession, auth: Outcome, tracking: Outcome)
    ensures var failure := if !s.hasClient && !auth.Succeeded? then auth else tracking;
      var client := s.hasClient || auth.Succeeded?;
      var r := SampleResume(s, auth, tracking);
      && (failure.Succeeded? ==>
            r == s.(buttonText := StopLabel, buttonColor := Red, trackingActive := Some(true), hasClient := true))
      && (failure.PermissionDenied? ==> r == s.(alert := RationaleAlert(), hasClient := client))
      && (failure.Failed? ==> r == s.(hasClient := client))
  {
    var steps := SampleSteps(s.hasClient, false, auth, Succeeded, tracking);
    var failure := if !s.hasClient && !auth.Succeeded? then auth else tracking;
    if !s.hasClient {
      assert steps == [auth, tracking];
      assert steps[1..] == [tracking];
      if auth.Succeeded? {
        assert FirstFailure(steps) == FirstFailure([tracking]);
        assert [tracking][1..] == [];
      }
    } else {
      assert steps == [tracking];
      assert steps[1..] == [];
    }
    assert FirstFailure(steps) == failure;
  }

  /** An unresolved collection ARN skips the listing: its outcome does not matter. */
  lemma SampleStartSkipsListing(s: SampleSession, arn: string, auth: Outcome, listing1: Outcome,
                                listing2: Outcome, tracking: Outcome)
    requires GeofenceCollectionName(arn).None?
    ensures SampleStart(s, arn, auth, listing1, tracking) == SampleStart(s, arn, auth, listing2, tracking)
  {
  }

  /** Stopping twice is stopping once. */
  lemma SampleStopIdempotent(s: SampleSession)
    requires s.hasClient
    ensures SampleStop(SampleStop(s)) == SampleStop(s)
  {
  }

  /** Every transition keeps the button's label and colour in agreement. */
  lemma SampleButtonConsistent(s: SampleSession, arn: string, auth: Outcome, listing: Outcome,
                               tracking: Outcome)
    requires ButtonConsistent(s.buttonText, s.buttonColor)
    ensures var r := SampleStart(s, arn, auth, listing, tracking);
      ButtonConsistent(r.buttonText, r.buttonColor)
    ensures var r := SampleResume(s, auth, tracking);
      ButtonConsistent(r.buttonText, r.buttonColor)
    ensures s.hasClient ==> ButtonConsistent(SampleStop(s).buttonText, SampleStop(s).buttonColor)
  {
  }

  /** A start that succeeds followed by a stop returns the button to its initial look and
      persists `false`. */
  lemma SampleStartThenStop(persisted: Option<bool>, arn: string, listing: Outcome)
    ensures var started := SampleStart(SampleInitial(persisted), arn, Succeeded, listing, Succeeded);
      && started.hasClient
      && (listing.Succeeded? || GeofenceCollectionName(arn).None? ==> started.trackingActive == Some(true))
      && SampleStop(started).buttonText == SampleInitial(persisted).buttonText
      && SampleStop(started).buttonColor == SampleInitial(persisted).buttonColor
      && SampleStop(started).trackingActive == Some(false)
  {
    var steps := SampleSteps(false, GeofenceCollectionName(arn).Some?, Succeeded, listing, Succeeded);
    if listing.Succeeded? || GeofenceCollectionName(arn).None? {
      assert forall k :: 0 <= k < |steps| ==> steps[k].Succeeded?;
    }
  }

  // ---------------------------------------------------------------------------
  // The quick-start app (`TrackingViewModel`)

  const PlayIcon: string := "play.circle"
  const PauseIcon: string := "pause.circle"

  /** The quick-start screen; `hasCredentials` says whether `authWithCognito` left a
      credentials provider, which building the client force-unwraps. */
  datatype QuickSession = QuickSession(
    buttonText: string,
    buttonColor: ButtonColor,
    buttonIcon: string,
    trackingActive: bool,
    alert: Alert,
    centerLabel: string,
    hasClient: bool,
    hasCredentials: bool)

  /** A fresh `TrackingViewModel`. */
  function QuickInitial(): QuickSession {
    QuickSession(StartLabel, Blue, PlayIcon, false, Alert(false, "", ""), "", false, false)
  }

  /** The button tells whether tracking is active: Stop / red / pause while active, Start /
      blue / play otherwise. */
  predicate QuickConsistent(s: QuickSession) {
    if s.trackingActive then s.buttonText == StopLabel && s.buttonColor == Red && s.buttonIcon == PauseIcon
    else s.buttonText == StartLabel && s.buttonColor == Blue && s.buttonIcon == PlayIcon
  }

  /** `showErrorAlertPopup`: overwrites the alert and shows it. */
  function ShowErrorAlertPopup(s: QuickSession, title: string, message: string): (r: QuickSession)
    ensures r.alert.shown && r.alert.title == title && r.alert.message == message
    ensures r.(alert := s.alert) == s
  {
    s.(alert := Alert(true, title, message))
  }

  /** The message of the alert a failed start shows. */
  function TrackingErrorMessage(description: string): (m: string)
    ensures |m| > |description| && m[|m| - |description|..] == description
  {
    "Error in tracking: " + description
  }

  /** `startTracking`: build the client if there is none (force-unwrapping the
      credentials), then start it. */
  function QuickStart(s: QuickSession, tracking: Outcome): (r: QuickSession)
    requires s.hasClient || s.hasCredentials
    ensures r.hasClient && r.hasCredentials == s.hasCredentials && r.centerLabel == s.centerLabel
    ensures r.trackingActive <==> tracking.Succeeded? || s.trackingActive
    ensures tracking.Succeeded? ==>
      r.buttonText == StopLabel && r.buttonColor == Red && r.buttonIcon == PauseIcon && r.alert == s.alert
    ensures !tracking.Succeeded? ==>
      && r.buttonText == s.buttonText && r.buttonColor == s.buttonColor && r.buttonIcon == s.buttonIcon
    ensures tracking.PermissionDenied? ==> r.alert == RationaleAlert()
    ensures tracking.Failed? ==> r.alert == Alert(true, "Error", TrackingErrorMessage(tracking.description))
  {
    var withClient := s.(hasClient := true);
    match tracking
    case Succeeded =>
      withClient.(buttonText := StopLabel, buttonColor := Red, buttonIcon := PauseIcon, trackingActive := true)
    case PermissionDenied => withClient.(alert := RationaleAlert())
    case Failed(description) => ShowErrorAlertPopup(withClient, "Error", TrackingErrorMessage(description))
  }

  /** `stopTracking`: needs the client (it is force-unwrapped). */
  function QuickStop(s: QuickSession): (r: QuickSession)
    requires s.hasClient
    ensures !r.trackingActive && r.buttonText == StartLabel && r.buttonColor == Blue && r.buttonIcon == PlayIcon
    ensures r.alert == s.alert && r.hasClient
  {
    s.(buttonText := StartLabel, buttonColor := Blue, buttonIcon := PlayIcon, trackingActive := false)
  }

  /** The last popup wins: a second call replaces whatever the first one set. */
  lemma ShowErrorAlertPopupLastWins(s: QuickSession, t1: string, m1: string, t2: string, m2: string)
    ensures ShowErrorAlertPopup(ShowErrorAlertPopup(s, t1, m1), t2, m2) == ShowErrorAlertPopup(s, t2, m2)
  {
  }

  /** The quick-start screen starts consistent, and start and stop keep it so. */
  lemma QuickConsistentPreserved(s: QuickSession, tracking: Outcome)
    ensures QuickConsistent(QuickInitial())
    ensures QuickConsistent(s) && (s.hasClient || s.hasCredentials) ==> QuickConsistent(QuickStart(s, tracking))
    ensures s.hasClient ==> QuickConsistent(QuickStop(s))
  {
  }

  /** Stopping twice is stopping once, and a stop undoes a successful start's button. */
  lemma QuickStopAfterStart(s: QuickSession)
    requires s.hasClient || s.hasCredentials
    ensures QuickStop(QuickStop(QuickStart(s, Succeeded))) == QuickStop(QuickStart(s, Succeeded))
    ensures QuickStop(QuickStart(s, Succeeded)) == QuickStop(s.(hasClient := true))
  {
  }

  // ---------------------------------------------------------------------------
  // The session and the history fetch

  /** After a stop, a history fetch of the sample app requests and draws nothing and keeps
      the checkpoint: the persisted flag it checks is false. */
  lemma StoppedSampleFetchesNothing(s: SampleSession, last: Option<int>, token: Option<string>,
                                    rounds: seq<Round>)
    requires s.hasClient
    ensures SampleGetTrackingPoints(SampleStop(s).trackingActive, SampleStop(s).hasClient, last, token, rounds) == Fetch([], [], last, false)
  {
  }

  /** The same for the quick-start app, whose fetch checks the in-memory flag. */
  lemma StoppedQuickStartFetchesNothing(s: QuickSession, last: Option<int>, token: Option<string>,
                                        rounds: seq<Round>)
    requires s.hasClient
    ensures QuickStartGetTrackingPoints(QuickStop(s).trackingActive, QuickStop(s).hasClient, last, token, rounds) == Fetch([], [], last, false)
  {
  }
}
