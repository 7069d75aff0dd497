/**
 * `AuthViewModel.batchEvaluateGeofences`: the request the sample app sends to
 * have its current position evaluated against the geofence collection. The
 * function yields the request that would be sent, if any. The service call
 * itself is not modelled: its reply is only printed, and an error it throws
 * is not caught here but passes to the caller.
 */
module GeofenceEvaluation {
  import opened Optional
  import opened CollectionArn
  import opened PositionHistory

  /** One entry of `devicePositionUpdates`; `position` is `[longitude, latitude]`. */
  datatype DevicePositionUpdate = DevicePositionUpdate(
    deviceId: Option<string>,
    position: seq<real>,
    sampleTime: int)

  datatype EvaluateRequest = EvaluateRequest(
    collectionName: string,
    devicePositionUpdates: seq<DevicePositionUpdate>)

  /** The request for the checkpoint `last`, the current location and the collection ARN;
      `deviceId` is what the tracker client reports as its device id. */
  function BatchEvaluateGeofences(last: Option<int>, currentLocation: Option<Coordinate>,
                                  arn: string, deviceId: Option<string>): (r: Option<EvaluateRequest>)
    ensures r.None? <==> last.None? || currentLocation.None? || GeofenceCollectionName(arn).None?
    ensures r.Some? ==>
      && r.value.collectionName == GeofenceCollectionName(arn).value
      && |r.value.devicePositionUpdates| == 1
      && r.value.devicePositionUpdates[0].deviceId == deviceId
      && r.value.devicePositionUpdates[0].sampleTime == last.value
      && |r.value.devicePositionUpdates[0].position| == 2
      && r.value.devicePositionUpdates[0].position[0] == currentLocation.value.longitude
      && r.value.devicePositionUpdates[0].position[1] == currentLocation.value.latitude
  {
    if last.None? || currentLocation.None? then None
    else
      match GeofenceCollectionName(arn)
      case None => None
      case Some(name) =>
        var location := currentLocation.value;
        var update := DevicePositionUpdate(deviceId, [location.longitude, location.latitude], last.value);
        Some(EvaluateRequest(name, [update]))
  }

  /** The position the sample app sends uses the same `[longitude, latitude]` layout it reads
      back from the position history: reading the sent update as a history record gives the
      current location again. */
  lemma EvaluatedPositionReadsBack(last: Option<int>, currentLocation: Option<Coordinate>,
                                   arn: string, deviceId: Option<string>)
    requires BatchEvaluateGeofences(last, currentLocation, arn, deviceId).Some?
    ensures var update := BatchEvaluateGeofences(last, currentLocation, arn, deviceId).value.devicePositionUpdates[0];
      var record := DevicePosition(Some(update.position), Some(update.sampleTime));
      && Extractable(SampleApp, record) && Plotted(SampleApp, record)
      && PointOf(SampleApp, record) == currentLocation.value
  {
  }

  /** The quick-start reader (latitude last, longitude first) agrees on the same update. */
  lemma EvaluatedPositionReadsBackQuickStart(last: Option<int>, currentLocation: Option<Coordinate>,
                                             arn: string, deviceId: Option<string>)
    requires BatchEvaluateGeofences(last, currentLocation, arn, deviceId).Some?
    ensures var update := BatchEvaluateGeofences(last, currentLocation, arn, deviceId).value.devicePositionUpdates[0];
      var record := DevicePosition(Some(update.position), Some(update.sampleTime));
      && Extractable(QuickStartApp, record) && Plotted(QuickStartApp, record)
      && PointOf(QuickStartApp, record) == currentLocation.value
  {
  }

  /** Nothing is sent before the first history page arrived, since only a page sets the
      checkpoint: evaluation follows a successful `getTrackingPoints`. */
  lemma NoEvaluationBeforeFirstPage(app: App, token: Option<string>, rounds: seq<Round>,
                                    currentLocation: Option<Coordinate>, arn: string, deviceId: Option<string>)
    requires ReachedPagesExtractable(app, rounds)
    requires |Drain(app, None, token, rounds).draws| == 0
    ensures BatchEvaluateGeofences(Drain(app, None, token, rounds).lastGetTrackingTime,
                                   currentLocation, arn, deviceId).None?
  {
    DrainCheckpoint(app, None, token, rounds);
  }
}
