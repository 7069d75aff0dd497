/**
 * The quick-start app's reverse geocoding of the map centre
 * (`reverseGeocodeCenter` and `searchPositionAPI`): the query it builds, the
 * label it shows, and the alert when the places client cannot be built. The
 * service call is an input: its reply, or `None` when it threw (`try?`).
 */
module ReverseGeocode {
  import opened Optional
  import opened PositionHistory
  import opened TrackingSession

  datatype ReverseGeocodeInput = ReverseGeocodeInput(
    key: string,
    language: string,
    maxResults: int,
    queryPosition: seq<real>,
    queryRadius: int)

  /** The reply's address; `addressLabel` is the service's `label` field. */
  datatype Address = Address(addressLabel: Option<string>)
  datatype ResultItem = ResultItem(address: Option<Address>)
  datatype ReverseGeocodeOutput = ReverseGeocodeOutput(resultItems: Option<seq<ResultItem>>)

  const Language: string := "en"
  const MaxResults: int := 10
  const QueryRadius: int := 100
  const PlacesClientTitle: string := "Places location client"

  /** The request for the map centre: English, at most ten results within 100 metres,
      position in `[longitude, latitude]` order. */
  function ReverseGeocodeQuery(apiKey: string, center: Coordinate): (q: ReverseGeocodeInput)
    ensures q.key == apiKey && q.language == Language
    ensures q.maxResults == MaxResults && q.queryRadius == QueryRadius
    ensures |q.queryPosition| == 2
  {
    ReverseGeocodeInput(apiKey, Language, MaxResults, [center.longitude, center.latitude], QueryRadius)
  }

  /** `searchResponse?.resultItems?.first?.address?.label ?? ""`. */
  function CenterLabel(response: Option<ReverseGeocodeOutput>): (r: string)
    ensures r != "" ==>
      && response.Some? && response.value.resultItems.Some?
      && |response.value.resultItems.value| > 0
      && response.value.resultItems.value[0].address.Some?
      && response.value.resultItems.value[0].address.value.addressLabel == Some(r)
  {
    match response
    case None => ""
    case Some(output) =>
      match output.resultItems
      case None => ""
      case Some(items) =>
        if |items| == 0 then ""
        else match items[0].address
          case None => ""
          case Some(address) => address.addressLabel.GetOr("")
  }

  /** The first result's label when there is one, and "" in every other case. */
  lemma CenterLabelIff(response: Option<ReverseGeocodeOutput>)
    ensures var hasLabel := response.Some? && response.value.resultItems.Some?
        && |response.value.resultItems.value| > 0
        && response.value.resultItems.value[0].address.Some?
        && response.value.resultItems.value[0].address.value.addressLabel.Some?;
      && (hasLabel ==> CenterLabel(response) == response.value.resultItems.value[0].address.value.addressLabel.value)
      && (!hasLabel ==> CenterLabel(response) == "")
  {
  }

  /** The query position uses the same `[longitude, latitude]` layout as the position
      history: either app's reader gives the map centre back. */
  lemma QueryPositionReadsBack(apiKey: string, center: Coordinate, app: App)
    ensures var record := DevicePosition(Some(ReverseGeocodeQuery(apiKey, center).queryPosition), None);
      Extractable(app, record) && Plotted(app, record) && PointOf(app, record) == center
  {
  }

  /** `searchPositionAPI`: a client that cannot be built shows the error alert and sends
      nothing; otherwise the query is sent and the label taken from the reply. */
  datatype Search = Search(session: QuickSession, query: Option<ReverseGeocodeInput>)

  function SearchCenter(s: QuickSession, apiKey: string, center: Coordinate,
                        clientError: Option<string>, response: Option<ReverseGeocodeOutput>): (r: Search)
    ensures clientError.Some? ==>
      && r.query.None?
      && r.session == ShowErrorAlertPopup(s, PlacesClientTitle, clientError.value)
    ensures clientError.None? ==>
      && r.query == Some(ReverseGeocodeQuery(apiKey, center))
      && r.session.centerLabel == CenterLabel(response)
      && r.session.(centerLabel := s.centerLabel) == s
  {
    match clientError
    case Some(description) => Search(ShowErrorAlertPopup(s, PlacesClientTitle, description), None)
    case None => Search(s.(centerLabel := CenterLabel(response)), Some(ReverseGeocodeQuery(apiKey, center)))
  }
}
