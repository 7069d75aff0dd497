# Location tracking demo apps: a verified model of the view-model rules

This Dafny project models the rules inside the view-models of two iOS demo
apps for Amazon Location Service.

- The location sample app ("tracking with geofence notifications"). Its
  `AuthViewModel` resolves the geofence collection name from an ARN. It
  encodes and decodes the tracker's location-filter configuration. It pages
  through the device's position history and draws it. It builds the
  geofence-evaluation request. It also runs the start, resume and stop
  transitions of the tracking button. Its `ClientConfigView` validates the
  configuration sheet, and its `CustomConnectionModel` derives the region
  from the identity pool id.
- The quick-start app. Its `TrackingViewModel` pages through the position
  history in its own way, with a different coordinate reader and error
  handling. It runs its own start and stop transitions, shows error
  popups, and builds the reverse-geocoding query for the map centre.

Modules, one per concept:

| module | file | what it holds |
|---|---|---|
| `Optional` | optional.dfy | Swift optionals as `Option<T>` |
| `SwiftText` | swift_text.dfy | `split(separator:)`, `prefix(while:)`, `trimmingCharacters(in:)` |
| `CollectionArn` | collection_arn.dfy | `getGeofenceCollectionName` |
| `TrackerFilters` | tracker_filters.dfy | `setClientConfig` and `populateFilterValues` |
| `PositionHistory` | position_history.dfy | both apps' `getTrackingPoints`: window, checkpoint, sort, coordinate extraction, one draw per page, next-token recursion |
| `GeofenceEvaluation` | geofence_evaluation.dfy | `batchEvaluateGeofences` |
| `TrackingSession` | tracking_session.dfy | start, resume and stop in both apps; `showErrorAlertPopup` |
| `CognitoGuard` | cognito_guard.dfy | the nil-only guard of `authWithCognito` in both apps |
| `ConnectionModel` | connection_model.dfy | `CustomConnectionModel.region` |
| `ClientConfigForm` | client_config_form.dfy | the Save Configuration and Cancel buttons |
| `GeofenceEvents` | geofence_events.dfy | the enter and exit labels of geofence notifications |
| `ReverseGeocode` | reverse_geocode.dfy | `reverseGeocodeCenter` and `searchPositionAPI` |

The service, the SDKs and the clock are inputs to the model:

- The history server is a script of rounds. Each round gives the clock
  reading of that request, the reply (a page or a thrown error), and whether
  tracking is still active when the recursive call for the next token checks
  its guard again: a stop may run while a page is awaited. Whether
  the tracker client exists is a separate input: without one, `client?.`
  sends nothing and the fetch changes nothing. A script that ends on a page
  carrying a next token stands for an observation cut short, and so does the
  empty script: with a client the code always sends at least one request.
- Each SDK call made by a start or resume is given as its `Outcome`: it
  returned, it was denied permission, or it failed with a description.
- The places service's reply is given as an optional value.

Dates are whole seconds. Coordinates are opaque `real`s; no arithmetic is
done on them. Localised strings are represented by their localisation keys.

Behaviour of the code that the model keeps:

- Paging follows every next token the server sends, for as long as tracking
  stays active: each recursive call checks the tracking-active guard again,
  so a stop ends the paging after the page being awaited. A drain ends
  because the script of rounds is finite.
- The checkpoint is the view-model's `lastGetTrackingTime`: the time the
  last page arrived. A request's window ends there, or at now when there is
  none yet, and the geofence evaluation is stamped with it.
- Each page's points go to the map in their own draw call, in fetch order.
  Pages are not concatenated into one result.
- Only a missing pool id is refused before authentication. A blank one is
  trimmed to "" and passed on.
- The two apps read a record's coordinates differently:
  - the sample app drops a record without a coordinate array and traps on
    an array shorter than two, the empty one included;
  - the quick-start app traps on a record without a coordinate array, drops
    an empty one, and turns a one-element array into a point whose latitude
    equals its longitude.

## Model

| member | source | states |
|---|---|---|
| SwiftText.Split | tracking-with-geofence-notifications/AWSLocationSampleApp/Scenes/Tracking/ViewModels/AuthViewModel.swift:256-259 | every piece of a split is non-empty and free of the separator, uses only characters of the input, and there are no more pieces than characters |
| SwiftText.SplitJoin | tracking-with-geofence-notifications/AWSLocationSampleApp/Scenes/Tracking/ViewModels/AuthViewModel.swift:256-259 | splitting a string built by joining legal pieces with the separator gives back exactly those pieces |
| SwiftText.SplitEmptyIff | tracking-with-geofence-notifications/AWSLocationSampleApp/Scenes/Tracking/ViewModels/AuthViewModel.swift:256-258 | a split has no piece at all exactly when the string consists of separators only (the empty string included) |
| SwiftText.SplitTwoPiecesIff | tracking-with-geofence-notifications/AWSLocationSampleApp/Scenes/Tracking/ViewModels/AuthViewModel.swift:259-260 | a split has at least two pieces exactly when a separator stands between two non-separator characters |
| SwiftText.SplitAtSeparator | tracking-with-geofence-notifications/AWSLocationSampleApp/Scenes/Tracking/ViewModels/AuthViewModel.swift:256-259 | splitting at one separator gives the pieces of the left side followed by those of the right side |
| SwiftText.SplitLeadingSeparator | tracking-with-geofence-notifications/AWSLocationSampleApp/Scenes/Tracking/ViewModels/AuthViewModel.swift:256 | a leading separator adds no piece |
| SwiftText.SplitTrailingSeparator | tracking-with-geofence-notifications/AWSLocationSampleApp/Scenes/Tracking/ViewModels/AuthViewModel.swift:256 | a trailing separator adds no piece |
| SwiftText.SplitDoubledSeparator | tracking-with-geofence-notifications/AWSLocationSampleApp/Scenes/Tracking/ViewModels/AuthViewModel.swift:256 | two separators in a row split like one |
| SwiftText.SplitLastPiece | tracking-with-geofence-notifications/AWSLocationSampleApp/Scenes/Tracking/ViewModels/AuthViewModel.swift:256-259 | the last piece of a split is the last maximal run of non-separators: a separator or the start before it, only separators after it |
| SwiftText.LastRunUnique | tracking-with-geofence-notifications/AWSLocationSampleApp/Scenes/Tracking/ViewModels/AuthViewModel.swift:256-259 | a string has at most one last run of non-separators |
| SwiftText.Trim | tracking-with-geofence-notifications/AWSLocationSampleApp/Scenes/Tracking/ViewModels/AuthViewModel.swift:73 | trimming yields a slice of the input with only whitespace outside it, and the slice neither starts nor ends with whitespace |
| SwiftText.TrimEmptyIff | quick-start/QuickStartTrackingApp/ViewModels/TrackingViewModel.swift:43 | trimming leaves the empty string exactly when the input is whitespace only |
| CollectionArn.GeofenceCollectionName | tracking-with-geofence-notifications/AWSLocationSampleApp/Scenes/Tracking/ViewModels/AuthViewModel.swift:255-270 | a resolved collection name is non-empty, contains neither ':' nor '/', and is made of characters of the ARN; its value in general is stated by CollectionNameIsLastRuns |
| CollectionArn.CollectionNameNoneIff | tracking-with-geofence-notifications/AWSLocationSampleApp/Scenes/Tracking/ViewModels/AuthViewModel.swift:256-269 | resolution fails exactly when the ARN is nothing but ':' characters, or its last ':'-piece does not hold two '/'-separated runs |
| CollectionArn.CollectionNameSomeIff | tracking-with-geofence-notifications/AWSLocationSampleApp/Scenes/Tracking/ViewModels/AuthViewModel.swift:256-269 | resolution succeeds exactly when the ARN's last run of non-':' characters holds two runs of non-'/' characters divided by a '/' |
| CollectionArn.CollectionNameIsLastRuns | tracking-with-geofence-notifications/AWSLocationSampleApp/Scenes/Tracking/ViewModels/AuthViewModel.swift:256-262 | a resolved name is the last run of non-'/' characters inside the ARN's last run of non-':' characters |
| CollectionArn.CollectionNameIgnoresEmptyPieces | tracking-with-geofence-notifications/AWSLocationSampleApp/Scenes/Tracking/ViewModels/AuthViewModel.swift:256 | leading, trailing and doubled ':' characters do not change the result |
| CollectionArn.NoSlashNoCollection | tracking-with-geofence-notifications/AWSLocationSampleApp/Scenes/Tracking/ViewModels/AuthViewModel.swift:259-265 | an ARN without any '/' never resolves |
| CollectionArn.CollectionNameOfArn | tracking-with-geofence-notifications/AWSLocationSampleApp/Scenes/Tracking/ViewModels/AuthViewModel.swift:255-262 | an ARN assembled from legal ':'-pieces whose last piece is at least two '/'-pieces resolves to the last '/'-piece |
| CollectionArn.ExampleArn | tracking-with-geofence-notifications/AWSLocationSampleApp/Scenes/Tracking/ViewModels/AuthViewModel.swift:255-262 | `arn:aws:geo:us-east-1:123456789012:geofence-collection/MyCollection` resolves to `MyCollection` |
| TrackerFilters.SetClientConfig | tracking-with-geofence-notifications/AWSLocationSampleApp/Scenes/Tracking/ViewModels/AuthViewModel.swift:98-117 | the filter list is nil exactly when no toggle is on; otherwise it holds exactly the enabled filters, each once, in the order time, distance, accuracy; both intervals are passed through |
| TrackerFilters.PopulateFilterValues | tracking-with-geofence-notifications/AWSLocationSampleApp/Scenes/Tracking/ViewModels/AuthViewModel.swift:48-59 | without a tracker the form is unchanged; with one, each toggle is on exactly when its filter kind is in the tracker's list, and both intervals are copied |
| TrackerFilters.FiltersRoundTrip | tracking-with-geofence-notifications/AWSLocationSampleApp/Scenes/Tracking/ViewModels/AuthViewModel.swift:99-112 | with at least one toggle on, building the filter list from the toggles and reading it back gives the same toggles and intervals |
| TrackerFilters.FilterListRoundTrip | tracking-with-geofence-notifications/AWSLocationSampleApp/Scenes/Tracking/ViewModels/AuthViewModel.swift:53-55 | reading the toggles off any non-empty list in append order and building again gives the same list |
| PositionHistory.SortIsNewestFirstPermutation | tracking-with-geofence-notifications/AWSLocationSampleApp/Scenes/Tracking/ViewModels/AuthViewModel.swift:195-200 | the sorted page is a permutation of the page that is non-increasing by sample time, a missing time counting as now |
| PositionHistory.SortNewestFirst | tracking-with-geofence-notifications/AWSLocationSampleApp/Scenes/Tracking/ViewModels/AuthViewModel.swift:195-200 | the sorted page has as many records as the page; its order and contents are stated by SortIsNewestFirstPermutation |
| PositionHistory.PlottedRecordsFilter | tracking-with-geofence-notifications/AWSLocationSampleApp/Scenes/Tracking/ViewModels/AuthViewModel.swift:201-206 | the records that become points are exactly the records with coordinates, each as often as in the page |
| PositionHistory.PointOf | tracking-with-geofence-notifications/AWSLocationSampleApp/Scenes/Tracking/ViewModels/AuthViewModel.swift:201-206 | the longitude is a record's first value in both apps; the latitude is one of its values: index 1 in the sample app, the last one in the quick-start app; the quick-start reader is at TrackingViewModel.swift:167-172 |
| PositionHistory.Points | tracking-with-geofence-notifications/AWSLocationSampleApp/Scenes/Tracking/ViewModels/AuthViewModel.swift:201-206 | the compactMap yields no more points than records |
| PositionHistory.PointsOfPlottedRecords | quick-start/QuickStartTrackingApp/ViewModels/TrackingViewModel.swift:167-172 | the compactMap yields one point per plotted record, in order, each read by the app's coordinate reader |
| PositionHistory.PagePoints | tracking-with-geofence-notifications/AWSLocationSampleApp/Scenes/Tracking/ViewModels/AuthViewModel.swift:195-206 | a page never yields more points than it has records |
| PositionHistory.DrawnRecordsNewestFirst | tracking-with-geofence-notifications/AWSLocationSampleApp/Scenes/Tracking/ViewModels/AuthViewModel.swift:195-206 | the points drawn for a page are the page's plotted records, newest first, in any order among equal times |
| PositionHistory.SingleValueIsBothCoordinates | quick-start/QuickStartTrackingApp/ViewModels/TrackingViewModel.swift:168 | the quick-start app turns a one-element coordinate array into a point whose latitude equals its longitude |
| PositionHistory.Drain | tracking-with-geofence-notifications/AWSLocationSampleApp/Scenes/Tracking/ViewModels/AuthViewModel.swift:187-213 | with a client, one request per round up to and including the first round that ends the paging (a reply without a next token, or tracking stopped meanwhile); one draw per page received, so the draws fall one short exactly when the last reply is an error; only the quick-start app throws, and only then |
| PositionHistory.StopWhilePagingEndsDrain | tracking-with-geofence-notifications/AWSLocationSampleApp/Scenes/Tracking/ViewModels/AuthViewModel.swift:182-213 | when tracking is stopped while a page is awaited, that page is drawn and sets the checkpoint, but its next token is not followed and nothing more is requested |
| PositionHistory.DrainStartTimes | tracking-with-geofence-notifications/AWSLocationSampleApp/Scenes/Tracking/ViewModels/AuthViewModel.swift:187 | every request starts 86400 seconds before its round's clock reading |
| PositionHistory.DrainFirstRequest | tracking-with-geofence-notifications/AWSLocationSampleApp/Scenes/Tracking/ViewModels/AuthViewModel.swift:188-192 | the first request carries the caller's token and ends at the checkpoint, or at now when there is none |
| PositionHistory.DrainFollowUps | tracking-with-geofence-notifications/AWSLocationSampleApp/Scenes/Tracking/ViewModels/AuthViewModel.swift:193-213 | each later request follows a page with a next token after which tracking was still active, carries that token, and ends at the checkpoint that page set |
| PositionHistory.DrainDraws | tracking-with-geofence-notifications/AWSLocationSampleApp/Scenes/Tracking/ViewModels/AuthViewModel.swift:195-209 | draw i is page i's points, sorted newest first, in fetch order |
| PositionHistory.DrainCheckpoint | tracking-with-geofence-notifications/AWSLocationSampleApp/Scenes/Tracking/ViewModels/AuthViewModel.swift:193-218 | the checkpoint ends at the clock reading of the last page received and is unchanged when none arrived, so a later failure keeps the earlier draws and checkpoint |
| PositionHistory.SampleGetTrackingPoints | tracking-with-geofence-notifications/AWSLocationSampleApp/Scenes/Tracking/ViewModels/AuthViewModel.swift:182-219 | with the persisted flag false or absent, or without a client, nothing is requested, drawn or changed; errors never escape |
| PositionHistory.QuickStartGetTrackingPoints | quick-start/QuickStartTrackingApp/ViewModels/TrackingViewModel.swift:144-180 | with tracking inactive or without a client nothing is requested, drawn or changed; the call throws exactly when a request was sent and the last reply it reached is an error |
| GeofenceEvaluation.BatchEvaluateGeofences | tracking-with-geofence-notifications/AWSLocationSampleApp/Scenes/Tracking/ViewModels/AuthViewModel.swift:221-231 | nothing is sent exactly when the checkpoint or the current location is missing or the collection name does not resolve; otherwise one update at `[longitude, latitude]` stamped with the checkpoint |
| GeofenceEvaluation.EvaluatedPositionReadsBack | tracking-with-geofence-notifications/AWSLocationSampleApp/Scenes/Tracking/ViewModels/AuthViewModel.swift:228 | reading the sent update as a history record with the sample app's reader gives the current location back |
| GeofenceEvaluation.EvaluatedPositionReadsBackQuickStart | tracking-with-geofence-notifications/AWSLocationSampleApp/Scenes/Tracking/ViewModels/AuthViewModel.swift:228 | the quick-start reader agrees with the sample reader on the sent update |
| GeofenceEvaluation.NoEvaluationBeforeFirstPage | tracking-with-geofence-notifications/AWSLocationSampleApp/Scenes/Tracking/ViewModels/AuthViewModel.swift:222-224 | starting without a checkpoint, nothing is evaluated until a history page has arrived |
| TrackingSession.FirstFailure | tracking-with-geofence-notifications/AWSLocationSampleApp/Scenes/Tracking/ViewModels/AuthViewModel.swift:128-146 | a sequence of calls succeeds exactly when every call returns; otherwise its outcome is that of the first call that did not return, every earlier call having returned |
| TrackingSession.SampleStart | tracking-with-geofence-notifications/AWSLocationSampleApp/Scenes/Tracking/ViewModels/AuthViewModel.swift:127-147 | either the button shows Stop in red with the flag persisted true, or flag and button are as before; when every call returns it is the former |
| TrackingSession.SampleStartOutcome | tracking-with-geofence-notifications/AWSLocationSampleApp/Scenes/Tracking/ViewModels/AuthViewModel.swift:127-147 | success sets Stop, red and true and nothing else but the client; a denied permission shows the rationale alert and leaves the flag; any other error leaves alert, flag and button |
| TrackingSession.SampleStartSkipsListing | tracking-with-geofence-notifications/AWSLocationSampleApp/Scenes/Tracking/ViewModels/AuthViewModel.swift:243-244 | with an unresolved collection ARN the geofence listing is skipped and cannot affect the start |
| TrackingSession.SampleResume | tracking-with-geofence-notifications/AWSLocationSampleApp/Scenes/Tracking/ViewModels/AuthViewModel.swift:149-168 | when authentication (if needed) and the resume return, the button shows Stop in red and the flag is persisted true |
| TrackingSession.SampleResumeOutcome | tracking-with-geofence-notifications/AWSLocationSampleApp/Scenes/Tracking/ViewModels/AuthViewModel.swift:149-168 | the first call to throw is the authentication (made only without a client) or else the resume; success sets Stop, red and true and keeps the alert; a denied permission shows the rationale and keeps flag and button; any other error changes nothing but the client |
| TrackingSession.SampleStop | tracking-with-geofence-notifications/AWSLocationSampleApp/Scenes/Tracking/ViewModels/AuthViewModel.swift:170-177 | stopping shows Start in blue, persists false and leaves the alert |
| TrackingSession.SampleStopIdempotent | tracking-with-geofence-notifications/AWSLocationSampleApp/Scenes/Tracking/ViewModels/AuthViewModel.swift:170-177 | stopping twice is stopping once |
| TrackingSession.SampleStartThenStop | tracking-with-geofence-notifications/AWSLocationSampleApp/Scenes/Tracking/ViewModels/AuthViewModel.swift:14-177 | from the fresh screen SampleInitial (Start label, blue, placeholder alert, no client: lines 14-15 and 22-24), a successful start followed by a stop returns the button to its initial look and persists false |
| TrackingSession.SampleButtonConsistent | tracking-with-geofence-notifications/AWSLocationSampleApp/Scenes/Tracking/ViewModels/AuthViewModel.swift:127-177 | start, resume and stop each keep the button showing Stop in red or Start in blue |
| TrackingSession.RationaleAlert | tracking-with-geofence-notifications/AWSLocationSampleApp/Scenes/Tracking/ViewModels/AuthViewModel.swift:119-125 | the rationale shows the alert with the location-permission title and text |
| TrackingSession.ShowErrorAlertPopup | quick-start/QuickStartTrackingApp/ViewModels/TrackingViewModel.swift:107-112 | the popup shows the given title and message and changes nothing else |
| TrackingSession.ShowErrorAlertPopupLastWins | quick-start/QuickStartTrackingApp/ViewModels/TrackingViewModel.swift:107-112 | of two popups in a row, the last one's title and message remain |
| TrackingSession.TrackingErrorMessage | quick-start/QuickStartTrackingApp/ViewModels/TrackingViewModel.swift:131 | the failed-start message ends with the error's description |
| TrackingSession.QuickStart | quick-start/QuickStartTrackingApp/ViewModels/TrackingViewModel.swift:115-133 | a client exists afterwards; success shows Stop, red and pause and sets tracking active; a denied permission shows the rationale; any other error shows the "Error" alert; a failure leaves the tracking flag and button |
| TrackingSession.QuickStop | quick-start/QuickStartTrackingApp/ViewModels/TrackingViewModel.swift:135-142 | stopping shows Start, blue and play, sets tracking inactive and leaves the alert |
| TrackingSession.QuickConsistentPreserved | quick-start/QuickStartTrackingApp/ViewModels/TrackingViewModel.swift:11-142 | the button shows Stop, red and pause exactly while tracking is active: on the fresh screen QuickInitial (Start, blue, play, inactive: lines 11-13, 18-21 and 38-39) and across every start and stop |
| TrackingSession.QuickStopAfterStart | quick-start/QuickStartTrackingApp/ViewModels/TrackingViewModel.swift:115-142 | a stop after a successful start gives the same screen as a stop alone, and a second stop changes nothing |
| TrackingSession.StoppedSampleFetchesNothing | tracking-with-geofence-notifications/AWSLocationSampleApp/Scenes/Tracking/ViewModels/AuthViewModel.swift:176-186 | after a stop the sample app's history fetch requests and draws nothing and keeps the checkpoint, whatever the rounds would have been |
| TrackingSession.StoppedQuickStartFetchesNothing | quick-start/QuickStartTrackingApp/ViewModels/TrackingViewModel.swift:141-147 | after a stop the quick-start history fetch requests and draws nothing and keeps the checkpoint |
| CognitoGuard.AuthGuard | tracking-with-geofence-notifications/AWSLocationSampleApp/Scenes/Tracking/ViewModels/AuthViewModel.swift:73-81 | only a missing pool id is refused; a present one is passed on trimmed of whitespace at both ends |
| CognitoGuard.BlankPoolIdIsNotRefused | quick-start/QuickStartTrackingApp/ViewModels/TrackingViewModel.swift:43-50 | a whitespace-only pool id passes the guard and is passed on as "" |
| CognitoGuard.AuthGuardTrimmed | tracking-with-geofence-notifications/AWSLocationSampleApp/Scenes/Tracking/ViewModels/AuthViewModel.swift:73 | the id passed on is already trimmed: guarding it again gives the same result |
| CognitoGuard.QuickAuthWithCognito | quick-start/QuickStartTrackingApp/ViewModels/TrackingViewModel.swift:42-51 | a missing pool id shows the "not configured" error alert and does not throw; otherwise the call throws exactly when authentication fails, and only the credentials change, only when authentication returns |
| CognitoGuard.QuickAuthErrorsEscape | quick-start/QuickStartTrackingApp/ViewModels/TrackingViewModel.swift:42-51 | a failed authentication leaves the screen as it was and is reported only by the throw; only a missing pool id changes the alert |
| CognitoGuard.SampleStartNeverRefused | tracking-with-geofence-notifications/AWSLocationSampleApp/Scenes/Tracking/ViewModels/AuthViewModel.swift:129-132 | the sample app's start passes its non-optional pool id, so the guard never refuses it: without a client, authentication is always attempted |
| ConnectionModel.Region | tracking-with-geofence-notifications/AWSLocationSampleApp/Scenes/Tracking/Models/CustomConnectionModel.swift:12-15 | the region is a prefix of the pool id without ':' that ends at a ':' or at the end of the id |
| ConnectionModel.RegionCharacterization | tracking-with-geofence-notifications/AWSLocationSampleApp/Scenes/Tracking/Models/CustomConnectionModel.swift:14 | a string is the region exactly when it is such a prefix: the region is the only one |
| ConnectionModel.RegionOfPoolId | tracking-with-geofence-notifications/AWSLocationSampleApp/Scenes/Tracking/Models/CustomConnectionModel.swift:14 | a pool id written as region, ':', rest yields that region |
| ConnectionModel.RegionEdgeCases | tracking-with-geofence-notifications/AWSLocationSampleApp/Scenes/Tracking/Models/CustomConnectionModel.swift:14 | without ':' the region is the whole id; with a leading ':' it is empty |
| ConnectionModel.RegionExample | tracking-with-geofence-notifications/AWSLocationSampleApp/Scenes/Tracking/Models/CustomConnectionModel.swift:12-15 | `us-east-1:abc` yields `us-east-1` |
| ConnectionModel.RegionIgnoresOtherFields | tracking-with-geofence-notifications/AWSLocationSampleApp/Scenes/Tracking/Models/CustomConnectionModel.swift:3-15 | the region depends on the pool id only |
| ClientConfigForm.Save | tracking-with-geofence-notifications/AWSLocationSampleApp/Scenes/Tracking/Views/ClientConfigView.swift:39-48 | with a required field empty the error "FillAllFields" is shown, the sheet stays and nothing is saved; otherwise the fields are saved once and the sheet is dismissed |
| ClientConfigForm.SaveIff | tracking-with-geofence-notifications/AWSLocationSampleApp/Scenes/Tracking/Views/ClientConfigView.swift:40-47 | a save happens exactly when pool id, tracker name, websocket URL and collection ARN are all non-empty, and it adds one entry after the earlier ones |
| ClientConfigForm.SaveIgnoresApiKey | tracking-with-geofence-notifications/AWSLocationSampleApp/Scenes/Tracking/Views/ClientConfigView.swift:40 | the API key and its region do not affect the decision |
| ClientConfigForm.BlankFieldsAreSaved | tracking-with-geofence-notifications/AWSLocationSampleApp/Scenes/Tracking/Views/ClientConfigView.swift:40 | required fields that are non-empty but hold only whitespace are accepted and saved, as the check is for emptiness only |
| ClientConfigForm.RejectedSaveIsStable | tracking-with-geofence-notifications/AWSLocationSampleApp/Scenes/Tracking/Views/ClientConfigView.swift:40-43 | pressing Save again after a rejection changes nothing more |
| ClientConfigForm.Cancel | tracking-with-geofence-notifications/AWSLocationSampleApp/Scenes/Tracking/Views/ClientConfigView.swift:52-54 | cancelling dismisses the sheet without saving or touching the error text |
| GeofenceEvents.EventText | tracking-with-geofence-notifications/AWSLocationSampleApp/Scenes/Tracking/ViewModels/AuthViewModel.swift:369-375 | every event type gets the enter or the exit label |
| GeofenceEvents.EventTextRoundTrip | tracking-with-geofence-notifications/AWSLocationSampleApp/Scenes/Tracking/ViewModels/AuthViewModel.swift:369-375 | the label read back gives the event type |
| GeofenceEvents.EventTextInjective | tracking-with-geofence-notifications/AWSLocationSampleApp/Scenes/Tracking/ViewModels/AuthViewModel.swift:369-375 | two event types get the same label exactly when they are the same |
| ReverseGeocode.ReverseGeocodeQuery | quick-start/QuickStartTrackingApp/ViewModels/TrackingViewModel.swift:68-77 | the query uses the API key, English, at most ten results and a radius of 100, with a two-element position |
| ReverseGeocode.QueryPositionReadsBack | quick-start/QuickStartTrackingApp/ViewModels/TrackingViewModel.swift:69 | the query position is `[longitude, latitude]`: either app's history reader gives the map centre back |
| ReverseGeocode.CenterLabel | quick-start/QuickStartTrackingApp/ViewModels/TrackingViewModel.swift:80 | a non-empty centre label is the address label of the first result |
| ReverseGeocode.CenterLabelIff | quick-start/QuickStartTrackingApp/ViewModels/TrackingViewModel.swift:80 | the centre label is the first result's address label when there is one, and "" otherwise |
| ReverseGeocode.SearchCenter | quick-start/QuickStartTrackingApp/ViewModels/TrackingViewModel.swift:73-88 | a places client that cannot be built shows the "Places location client" popup and sends nothing; otherwise the query is sent and only the centre label changes |

## Left out

- SDK, service and MQTT calls are not modelled. This covers authentication, identity lookup, the tracker, listing the geofences, the evaluation reply, the MQTT connection and subscriptions, and notification scheduling. Their effects appear only as outcomes given to the model.
- The hops to the main queue are not modelled. The sample app builds its client on the main queue after authenticating, while `startTracking` goes on. The model takes the client as built once authentication returns.
- Localisation, `localizedDateString` and the notification texts built with `String(format:)` are left out. Localised strings are kept as their keys.
- Persistence is left out: UserDefaults, Info.plist and `saveCognitoConfiguration`. A save is recorded as the fields handed over.
- The map, its delegate calls and `locateMe` are left out. A draw call is recorded as its list of points. The quick-start app force-unwraps its map delegate when drawing; this trap is not modelled.
- PositionHistory.Drain: the force-unwrap of `devicePositions` is not modelled; a page always carries a list of records.
- PositionHistory.Drain: `Date()` is read several times per round in the source. The model uses one clock reading per round.
- PositionHistory.SortNewestFirst: Swift's `sorted` is not stable. The model fixes one order, and every contract rests only on the result being a permutation that is newest first.
- TrackerFilters.SetClientConfig: the force-unwrap of `client` is not modelled; the call traps without a client. The model builds the configuration that would be handed to it.
- GeofenceEvaluation.BatchEvaluateGeofences: the device id is taken as an input. The force-unwrap of the client is not modelled. It can only trap without a client, and without a client the checkpoint is never set.
- GeofenceEvaluation.BatchEvaluateGeofences: the service call is not modelled, only the request it would send. Its reply is only printed; an error it throws is not caught and passes to the caller.
- SwiftText.IsWhitespace: only the ASCII and Latin-1 members of `.whitespacesAndNewlines` are listed. Strings are sequences of characters, not grapheme clusters.
- Console output is not modelled: the `print` calls of both view-models and the `os_log` call of `showErrorAlertPopup`. Nothing in the model depends on them.
- The polling timer that calls `getTrackingPoints` and `batchEvaluateGeofences` lives outside these view-models. It is not part of this model.
