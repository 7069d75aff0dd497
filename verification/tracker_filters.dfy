/**
 * The tracker's location-filter configuration as the sample app's view-model
 * builds it (`setClientConfig`) and reads it back (`populateFilterValues`).
 * The SDK's filter classes become an enumeration; the SDK tracker itself is
 * represented only by the configuration it stores.
 */
module TrackerFilters {
  import opened Optional

  datatype LocationFilter = TimeFilter | DistanceFilter | AccuracyFilter

  /** The three toggles of the configuration form. */
  datatype FilterFlags = FilterFlags(time: bool, distance: bool, accuracy: bool)

  /** What `setClientConfig` hands to the tracker: `nil` filters when none is enabled. */
  datatype ConfigRequest = ConfigRequest(
    locationFilters: Option<seq<LocationFilter>>,
    trackingDistanceInterval: Option<real>,
    trackingTimeInterval: Option<real>)

  /** What `getTrackerConfig()` returns: the tracker's effective configuration. */
  datatype TrackerConfig = TrackerConfig(
    locationFilters: seq<LocationFilter>,
    trackingDistanceInterval: real,
    trackingTimeInterval: real)

  /** The view-model fields `populateFilterValues` writes. */
  datatype FilterForm = FilterForm(flags: FilterFlags, timeInterval: real, distanceInterval: real)

  /** The order in which `setClientConfig` appends filters. */
  function Rank(f: LocationFilter): nat {
    match f
    case TimeFilter => 0
    case DistanceFilter => 1
    case AccuracyFilter => 2
  }

  /** The toggle of the form that corresponds to a filter kind. */
  predicate Enabled(flags: FilterFlags, f: LocationFilter) {
    match f
    case TimeFilter => flags.time
    case DistanceFilter => flags.distance
    case AccuracyFilter => flags.accuracy
  }

  predicate NoneEnabled(flags: FilterFlags) {
    !flags.time && !flags.distance && !flags.accuracy
  }

  /** Each filter kind at most once, time before distance before accuracy. */
  predicate InAppendOrder(fs: seq<LocationFilter>) {
    forall i, j :: 0 <= i < j < |fs| ==> Rank(fs[i]) < Rank(fs[j])
  }

  function SetClientConfig(flags: FilterFlags, timeInterval: Option<real>, distanceInterval: Option<real>)
    : (r: ConfigRequest)
    ensures r.locationFilters.None? <==> NoneEnabled(flags)
    ensures r.locationFilters.Some? ==> InAppendOrder(r.locationFilters.value)
    ensures r.locationFilters.Some? ==>
      forall f :: f in r.locationFilters.value <==> Enabled(flags, f)
    ensures r.trackingTimeInterval == timeInterval && r.trackingDistanceInterval == distanceInterval
  {
    var filters :=
      (if flags.time then [TimeFilter] else [])
      + (if flags.distance then [DistanceFilter] else [])
      + (if flags.accuracy then [AccuracyFilter] else []);
    ConfigRequest(if filters == [] then None else Some(filters), distanceInterval, timeInterval)
  }

  /** `filters.contains { $0 is ... }` for each of the three kinds. */
  function FlagsOf(filters: seq<LocationFilter>): (r: FilterFlags)
    ensures forall f :: Enabled(r, f) <==> f in filters
  {
    FilterFlags(TimeFilter in filters, DistanceFilter in filters, AccuracyFilter in filters)
  }

  /** `populateFilterValues`: nothing changes when there is no tracker to ask; otherwise the
      toggles and both intervals are read from the tracker's configuration. */
  function PopulateFilterValues(form: FilterForm, config: Option<TrackerConfig>): (r: FilterForm)
    ensures config.None? ==> r == form
    ensures config.Some? ==> forall f :: Enabled(r.flags, f) <==> f in config.value.locationFilters
    ensures config.Some? ==>
      (r.timeInterval == config.value.trackingTimeInterval
       && r.distanceInterval == config.value.trackingDistanceInterval)
  {
    match config
    case None => form
    case Some(c) => FilterForm(FlagsOf(c.locationFilters), c.trackingTimeInterval, c.trackingDistanceInterval)
  }

  /** Saving the toggles and reading them back gives the same toggles, whenever at least one
      toggle was on (otherwise the request carries `nil` and the tracker's default applies). */
  lemma FiltersRoundTrip(flags: FilterFlags, form: FilterForm, time: real, distance: real)
    ensures var request := SetClientConfig(flags, Some(time), Some(distance));
      request.locationFilters.Some? ==>
        (PopulateFilterValues(form, Some(TrackerConfig(request.locationFilters.value, distance, time)))
          == FilterForm(flags, time, distance))
  {
    var request := SetClientConfig(flags, Some(time), Some(distance));
    if request.locationFilters.Some? {
      var r := PopulateFilterValues(form, Some(TrackerConfig(request.locationFilters.value, distance, time)));
      assert Enabled(r.flags, TimeFilter) == Enabled(flags, TimeFilter);
      assert Enabled(r.flags, DistanceFilter) == Enabled(flags, DistanceFilter);
      assert Enabled(r.flags, AccuracyFilter) == Enabled(flags, AccuracyFilter);
    }
  }

  /** Reading back the filters of any request built from toggles, and building again, gives
      the same request: the list form and the toggle form carry the same information. */
  lemma FilterListRoundTrip(fs: seq<LocationFilter>, time: Option<real>, distance: Option<real>)
    requires fs != [] && InAppendOrder(fs)
    ensures SetClientConfig(FlagsOf(fs), time, distance) == ConfigRequest(Some(fs), distance, time)
  {
    assert fs[0] in fs;
    var r := SetClientConfig(FlagsOf(fs), time, distance);
    var gs := r.locationFilters.value;
    UniqueOrdered(fs, gs);
  }

  /** Two duplicate-free lists in append order with the same members are equal. */
  lemma UniqueOrdered(fs: seq<LocationFilter>, gs: seq<LocationFilter>)
    requires InAppendOrder(fs) && InAppendOrder(gs)
    requires forall f :: f in fs <==> f in gs
    ensures fs == gs
  {
    InAppendOrderIsSelected(fs);
    InAppendOrderIsSelected(gs);
  }

  /** The filters of `fs`, listed in append order. */
  function Selected(fs: seq<LocationFilter>): seq<LocationFilter> {
    (if TimeFilter in fs then [TimeFilter] else [])
    + (if DistanceFilter in fs then [DistanceFilter] else [])
    + (if AccuracyFilter in fs then [AccuracyFilter] else [])
  }

  /** A list in append order is determined by its members. */
  lemma InAppendOrderIsSelected(fs: seq<LocationFilter>)
    requires InAppendOrder(fs)
    ensures fs == Selected(fs)
  {
    assert |fs| > 3 ==> Rank(fs[0]) < Rank(fs[1]) < Rank(fs[2]) < Rank(fs[3]);
    if |fs| == 1 {
      assert forall f :: f in fs <==> f == fs[0];
    } else if |fs| == 2 {
      assert forall f :: f in fs <==> f == fs[0] || f == fs[1];
      assert Rank(fs[0]) < Rank(fs[1]);
      if fs[0] == TimeFilter && fs[1] == DistanceFilter {
        assert Selected(fs) == [TimeFilter, DistanceFilter];
      } else if fs[0] == TimeFilter {
        assert Selected(fs) == [TimeFilter, AccuracyFilter];
      } else {
        assert Selected(fs) == [DistanceFilter, AccuracyFilter];
      }
    } else if |fs| == 3 {
      assert Rank(fs[0]) < Rank(fs[1]) < Rank(fs[2]);
      assert fs[0] == TimeFilter && fs[1] == DistanceFilter && fs[2] == AccuracyFilter;
      assert fs == [TimeFilter, DistanceFilter, AccuracyFilter];
    }
  }
}
