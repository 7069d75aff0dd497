/**
 * The label the sample app puts into a geofence notification for the event
 * type of a tracker event (`createIoTClientIfNeeded`). Decoding the MQTT
 * payload and formatting the notification are not modelled.
 */
module GeofenceEvents {
  import opened Optional

  datatype TrackerEventType = Enter | Exit

  const EnterText: string := "GeofenceEnterEvent"
  const ExitText: string := "GeofenceExitEvent"

  function EventText(e: TrackerEventType): (r: string)
    ensures r == EnterText || r == ExitText
  {
    match e
    case Enter => EnterText
    case Exit => ExitText
  }

  /** Reads a label back; the labels name the event types unambiguously. */
  function EventOfText(text: string): (r: Option<TrackerEventType>)
  {
    if text == EnterText then Some(Enter)
    else if text == ExitText then Some(Exit)
    else None
  }

  /** Reading back the label gives the event type: distinct events get distinct labels. */
  lemma EventTextRoundTrip(e: TrackerEventType)
    ensures EventOfText(EventText(e)) == Some(e)
  {
  }

  lemma EventTextInjective(a: TrackerEventType, b: TrackerEventType)
    ensures EventText(a) == EventText(b) <==> a == b
  {
    EventTextRoundTrip(a);
    EventTextRoundTrip(b);
  }
}
