/** The detail screen as a pure state machine. Its state is the locator it
    was opened with, the forecast summary built by the last successful load
    (null before one), and whether the menu produced a share provider. Every
    callback returns the next state and the effects it asks of the platform:
    a share intent for the provider, the values shown in the detail views, a
    loader start. */
module DetailFragment {
  import opened Common
  import opened Store
  import opened Formatting

  const DETAIL_URI: string := "URI"
  const FORECAST_SHARE_HASHTAG: string := " #SunshineApp"
  const DETAIL_LOADER: int := 0
  const SHARE_MIME_TYPE: string := "text/plain"

  const DETAIL_COLUMNS: seq<Column> :=
    [WeatherRowId, Date, ShortDesc, MaxTemp, MinTemp, Humidity, Pressure,
     WindSpeed, Degrees, WeatherConditionId, LocationSetting]

  const COL_WEATHER_ID: nat := 0
  const COL_WEATHER_DATE: nat := 1
  const COL_WEATHER_DESC: nat := 2
  const COL_WEATHER_MAX_TEMP: nat := 3
  const COL_WEATHER_MIN_TEMP: nat := 4
  const COL_WEATHER_HUMIDITY: nat := 5
  const COL_WEATHER_PRESSURE: nat := 6
  const COL_WEATHER_WIND_SPEED: nat := 7
  const COL_WEATHER_DEGREES: nat := 8
  const COL_WEATHER_CONDITION_ID: nat := 9

  predicate IsDetailRow(row: Row)
  {
    Conforms(row, DETAIL_COLUMNS)
  }

  /** Each index constant reads, from a projected row, the record field its
      name promises. */
  lemma DetailIndicesReadTheirFields(rec: WeatherRecord)
    ensures IsDetailRow(Project(rec, DETAIL_COLUMNS))
    ensures var row := Project(rec, DETAIL_COLUMNS);
      && row[COL_WEATHER_ID] == IntValue(rec.id)
      && row[COL_WEATHER_DATE] == IntValue(rec.date)
      && row[COL_WEATHER_DESC] == TextValue(rec.shortDesc)
      && row[COL_WEATHER_MAX_TEMP] == RealValue(rec.maxTemp)
      && row[COL_WEATHER_MIN_TEMP] == RealValue(rec.minTemp)
      && row[COL_WEATHER_HUMIDITY] == RealValue(rec.humidity)
      && row[COL_WEATHER_PRESSURE] == RealValue(rec.pressure)
      && row[COL_WEATHER_WIND_SPEED] == RealValue(rec.windSpeed)
      && row[COL_WEATHER_DEGREES] == RealValue(rec.degrees)
      && row[COL_WEATHER_CONDITION_ID] == IntValue(rec.conditionId)
  {
    ProjectConforms(rec, DETAIL_COLUMNS);
  }

  /** The fragment arguments bundle: parcelable locators by key. */
  type Arguments = map<string, Locator>

  datatype State = State(
    uri: Option<Locator>,
    forecast: Option<string>,
    hasShareProvider: bool)

  /** An ACTION_SEND intent carrying FLAG_ACTIVITY_CLEAR_WHEN_TASK_RESET. */
  datatype ShareIntent = ShareIntent(mimeType: string, text: string)

  /** What `onLoadFinished` puts into the detail views. */
  datatype DetailView = DetailView(
    icon: Icon,
    friendlyDate: string,
    date: string,
    description: string,
    high: string,
    low: string,
    humidity: string,
    wind: string,
    pressure: string)

  datatype Effect =
    | SetShareIntent(intent: ShareIntent)
    | ShowDetail(view: DetailView)
    | InitLoader(loaderId: int)

  datatype Step = Step(state: State, effects: seq<Effect>)

  /** A freshly constructed fragment: no locator, no forecast, no menu yet. */
  function Initial(): (s: State)
    ensures s.uri.None? && s.forecast.None? && !s.hasShareProvider
  {
    State(None, None, false)
  }

  /** `onCreateView`: with arguments, the locator is whatever they hold under
      DETAIL_URI (none if the key is missing); without, it stays as it was. */
  function OnCreateView(s: State, arguments: Option<Arguments>): (r: State)
    ensures r.forecast == s.forecast && r.hasShareProvider == s.hasShareProvider
    ensures arguments.None? ==> r.uri == s.uri
    ensures arguments.Some? && DETAIL_URI in arguments.value ==> r.uri == Some(arguments.value[DETAIL_URI])
    ensures arguments.Some? && DETAIL_URI !in arguments.value ==> r.uri.None?
  {
    match arguments
    case None => s
    case Some(args) => s.(uri := if DETAIL_URI in args then Some(args[DETAIL_URI]) else None)
  }

  /** `createShareForecastIntent`: plain text, the current forecast summary
      (rendered "null" before any load) followed by the hashtag. */
  function CreateShareForecastIntent(forecast: Option<string>): (i: ShareIntent)
    ensures i.mimeType == SHARE_MIME_TYPE
    ensures EndsWith(i.text, FORECAST_SHARE_HASHTAG)
    ensures StripSuffix(i.text, FORECAST_SHARE_HASHTAG) == JavaString(forecast)
  {
    StripAppendedSuffix(JavaString(forecast), FORECAST_SHARE_HASHTAG);
    ShareIntent(SHARE_MIME_TYPE, JavaString(forecast) + FORECAST_SHARE_HASHTAG)
  }

  /** Different forecasts never share the same payload. */
  lemma SharePayloadDeterminesForecast(a: Option<string>, b: Option<string>)
    requires a.Some? && b.Some?
    requires CreateShareForecastIntent(a) == CreateShareForecastIntent(b)
    ensures a == b
  {
    assert StripSuffix(CreateShareForecastIntent(a).text, FORECAST_SHARE_HASHTAG) == a.value;
  }

  /** `onCreateOptionsMenu`: the provider the menu yields is kept, and the
      share intent is set on it exactly when there is one. */
  function OnCreateOptionsMenu(s: State, providerFound: bool): (r: Step)
    ensures r.state == s.(hasShareProvider := providerFound)
    ensures providerFound ==> r.effects == [SetShareIntent(CreateShareForecastIntent(s.forecast))]
    ensures !providerFound ==> r.effects == []
  {
    var effects := if providerFound then [SetShareIntent(CreateShareForecastIntent(s.forecast))] else [];
    Step(s.(hasShareProvider := providerFound), effects)
  }

  /** `onActivityCreated`: the detail loader is started. */
  function OnActivityCreated(s: State): (r: Step)
    ensures r.state == s && r.effects == [InitLoader(DETAIL_LOADER)]
  {
    Step(s, [InitLoader(DETAIL_LOADER)])
  }

  /** `onCreateLoader`: the stored locator (possibly none) with the detail
      projection, no selection and no sort order. */
  function OnCreateLoader(s: State): (q: Query)
    ensures q.uri == s.uri && q.projection == DETAIL_COLUMNS
    ensures q.selection.None? && q.sortOrder.None?
  {
    Query(s.uri, DETAIL_COLUMNS, None, None)
  }

  /** `onCreateLoader` with the guard the source keeps commented out put
      back: a fragment that has no locator creates no loader at all, and one
      that has a locator creates the same loader as before. */
  function OnCreateLoaderGuarded(s: State): (r: Option<Query>)
    ensures r.None? <==> s.uri.None?
    ensures r.Some? ==> r.value == OnCreateLoader(s) && r.value.uri == s.uri
  {
    if s.uri.None? then None else Some(OnCreateLoader(s))
  }

  /** A detail fragment created without arguments, as written, still builds
      its loader, on no locator at all; the guarded loader builds none. */
  lemma ArgumentlessDetailQueriesNothing(arguments: Option<Arguments>)
    requires arguments.None? || DETAIL_URI !in arguments.value
    ensures OnCreateLoader(OnCreateView(Initial(), arguments)).uri.None?
    ensures OnCreateLoaderGuarded(OnCreateView(Initial(), arguments)).None?
  {
  }

  /** The summary `String.format("%s - %s - %s/%s", ...)` builds: the month
      and day, the description, then the raw high and low as "%s" renders a
      double (not the unit-formatted temperatures the views show). */
  function ForecastSummary(fmt: Formatter, dateText: string, description: string, high: real, low: real): (summary: string)
  {
    dateText + " - " + description + " - " + fmt.showDouble(high) + "/" + fmt.showDouble(low)
  }

  /** The values `onLoadFinished` puts into the detail views, read from the
      first row of the result. */
  function BuildDetailView(fmt: Formatter, isMetric: bool, row: Row): (view: DetailView)
    requires IsDetailRow(row)
  {
    var date := GetLong(row, COL_WEATHER_DATE);
    DetailView(
      ArtIcon(GetLong(row, COL_WEATHER_CONDITION_ID)),
      fmt.dayName(date),
      fmt.monthDay(date),
      GetString(row, COL_WEATHER_DESC),
      fmt.temperature(GetDouble(row, COL_WEATHER_MAX_TEMP), isMetric),
      fmt.temperature(GetDouble(row, COL_WEATHER_MIN_TEMP), isMetric),
      fmt.humidity(GetDouble(row, COL_WEATHER_HUMIDITY)),
      fmt.wind(GetDouble(row, COL_WEATHER_WIND_SPEED), GetDouble(row, COL_WEATHER_DEGREES)),
      fmt.pressure(GetDouble(row, COL_WEATHER_PRESSURE)))
  }

  predicate HasFirstRow(data: Option<Cursor>)
  {
    data.Some? && |data.value| > 0
  }

  /** `onLoadFinished`: only a result with a first row changes anything.
      Then the views show that row, the summary is rebuilt from it, and the
      share intent is refreshed if the provider already exists. */
  function OnLoadFinished(s: State, data: Option<Cursor>, fmt: Formatter, isMetric: bool): (r: Step)
    requires HasFirstRow(data) ==> IsDetailRow(data.value[0])
    ensures !HasFirstRow(data) ==> r == Step(s, [])
    ensures HasFirstRow(data) ==> r.state.uri == s.uri && r.state.hasShareProvider == s.hasShareProvider
    ensures HasFirstRow(data) ==> r.state.forecast.Some?
    ensures HasFirstRow(data) ==> |r.effects| == if s.hasShareProvider then 2 else 1
    ensures HasFirstRow(data) ==> r.effects[0] == ShowDetail(BuildDetailView(fmt, isMetric, data.value[0]))
    ensures HasFirstRow(data) && s.hasShareProvider ==>
      r.effects[1] == SetShareIntent(CreateShareForecastIntent(r.state.forecast))
  {
    if !HasFirstRow(data) then Step(s, [])
    else
      var row := data.value[0];
      var view := BuildDetailView(fmt, isMetric, row);
      var forecast := ForecastSummary(fmt, view.date, view.description,
        GetDouble(row, COL_WEATHER_MAX_TEMP), GetDouble(row, COL_WEATHER_MIN_TEMP));
      var state := s.(forecast := Some(forecast));
      var share := if s.hasShareProvider then [SetShareIntent(CreateShareForecastIntent(state.forecast))] else [];
      Step(state, [ShowDetail(view)] + share)
  }

  /** A loaded record's summary and share text are built from its own date,
      description and temperatures. */
  lemma LoadedSummaryShowsRecord(s: State, rec: WeatherRecord, rest: Cursor, fmt: Formatter, isMetric: bool)
    ensures IsDetailRow(Project(rec, DETAIL_COLUMNS))
    ensures var r := OnLoadFinished(s, Some([Project(rec, DETAIL_COLUMNS)] + rest), fmt, isMetric);
      var summary := fmt.monthDay(rec.date) + " - " + rec.shortDesc + " - " +
        fmt.showDouble(rec.maxTemp) + "/" + fmt.showDouble(rec.minTemp);
      && r.state.forecast == Some(summary)
      && CreateShareForecastIntent(r.state.forecast).text == summary + " #SunshineApp"
  {
    DetailIndicesReadTheirFields(rec);
    var data := [Project(rec, DETAIL_COLUMNS)] + rest;
    assert data[0] == Project(rec, DETAIL_COLUMNS);
  }

  /** The detail views of a loaded record show that record: the art icon of
      its condition, its day name and month-day, its description, both
      temperatures under one unit flag, its humidity, wind and pressure. */
  lemma DetailViewShowsRecord(fmt: Formatter, isMetric: bool, rec: WeatherRecord)
    ensures IsDetailRow(Project(rec, DETAIL_COLUMNS))
    ensures BuildDetailView(fmt, isMetric, Project(rec, DETAIL_COLUMNS)) == DetailView(
      ArtIcon(rec.conditionId), fmt.dayName(rec.date), fmt.monthDay(rec.date), rec.shortDesc,
      fmt.temperature(rec.maxTemp, isMetric), fmt.temperature(rec.minTemp, isMetric),
      fmt.humidity(rec.humidity), fmt.wind(rec.windSpeed, rec.degrees), fmt.pressure(rec.pressure))
  {
    DetailIndicesReadTheirFields(rec);
  }

  /** `onLoaderReset` keeps nothing to release: state and effects unchanged. */
  function OnLoaderReset(s: State): (r: Step)
    ensures r.state == s && r.effects == []
  {
    Step(s, [])
  }

  /** The callbacks a detail screen receives. */
  datatype Event =
    | CreateView(arguments: Option<Arguments>)
    | CreateOptionsMenu(providerFound: bool)
    | LoadFinished(data: Option<Cursor>, fmt: Formatter, isMetric: bool)
    | LoaderReset

  predicate ValidEvent(e: Event)
  {
    e.LoadFinished? && HasFirstRow(e.data) ==> IsDetailRow(e.data.value[0])
  }

  predicate ValidEvents(events: seq<Event>)
  {
    forall i :: 0 <= i < |events| ==> ValidEvent(events[i])
  }

  function Apply(s: State, e: Event): (r: Step)
    requires ValidEvent(e)
  {
    match e
    case CreateView(arguments) => Step(OnCreateView(s, arguments), [])
    case CreateOptionsMenu(found) => OnCreateOptionsMenu(s, found)
    case LoadFinished(data, fmt, isMetric) => OnLoadFinished(s, data, fmt, isMetric)
    case LoaderReset => OnLoaderReset(s)
  }

  function Run(s: State, events: seq<Event>): (r: Step)
    requires ValidEvents(events)
    decreases |events|
  {
    if |events| == 0 then Step(s, [])
    else
      var first := Apply(s, events[0]);
      assert ValidEvents(events[1..]) by {
        assert forall i :: 0 <= i < |events[1..]| ==> events[1..][i] == events[i + 1];
      }
      var rest := Run(first.state, events[1..]);
      Step(rest.state, first.effects + rest.effects)
  }

  /** The intent the provider holds after `effects`, starting from `held`. */
  function LastShared(held: Option<ShareIntent>, effects: seq<Effect>): (last: Option<ShareIntent>)
    decreases |effects|
  {
    if |effects| == 0 then held
    else LastShared(if effects[0].SetShareIntent? then Some(effects[0].intent) else held, effects[1..])
  }

  lemma {:induction false} LastSharedAppend(held: Option<ShareIntent>, a: seq<Effect>, b: seq<Effect>)
    ensures LastShared(held, a + b) == LastShared(LastShared(held, a), b)
    decreases |a|
  {
    if |a| > 0 {
      assert (a + b)[0] == a[0];
      assert (a + b)[1..] == a[1..] + b;
      LastSharedAppend(if a[0].SetShareIntent? then Some(a[0].intent) else held, a[1..], b);
    } else {
      assert a + b == b;
    }
  }

  /** While a provider exists it holds the share intent of the current
      forecast. */
  predicate ShareIsCurrent(s: State, held: Option<ShareIntent>)
  {
    s.hasShareProvider ==> held == Some(CreateShareForecastIntent(s.forecast))
  }

  /** Whatever sequence of callbacks arrives, a provider never holds a stale
      payload: after every run the shared intent carries the current
      forecast. */
  lemma {:induction false} ShareNeverStale(s: State, held: Option<ShareIntent>, events: seq<Event>)
    requires ValidEvents(events)
    requires ShareIsCurrent(s, held)
    ensures ShareIsCurrent(Run(s, events).state, LastShared(held, Run(s, events).effects))
    decreases |events|
  {
    if |events| > 0 {
      var first := Apply(s, events[0]);
      assert ShareIsCurrent(first.state, LastShared(held, first.effects)) by {
        match events[0]
        case CreateView(_) =>
        case CreateOptionsMenu(found) =>
          if found {
            assert first.effects[1..] == [];
          }
        case LoadFinished(data, fmt, isMetric) =>
          if HasFirstRow(data) && s.hasShareProvider {
            var share := first.effects[1];
            assert first.effects[1..] == [share];
            assert [share][1..] == [];
            assert LastShared(held, first.effects) == LastShared(held, [share]);
          }
        case LoaderReset =>
      }
      assert ValidEvents(events[1..]) by {
        assert forall i :: 0 <= i < |events[1..]| ==> events[1..][i] == events[i + 1];
      }
      var rest := Run(first.state, events[1..]);
      ShareNeverStale(first.state, LastShared(held, first.effects), events[1..]);
      LastSharedAppend(held, first.effects, rest.effects);
    }
  }
}
