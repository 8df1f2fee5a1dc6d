/** The list adapter: the two-way row-kind rule, the layout and icon family
    each kind selects, the text it binds into a row, and the row-summary
    strings it can build. */
module ForecastAdapter {
  import opened Common
  import opened Store
  import opened Formatting
  import opened ForecastColumns

  const VIEW_TYPE_TODAY: int := 0
  const VIEW_TYPE_FUTURE_DAY: int := 1

  /** The adapter's own state: the cursor it shows (none is null) and whether
      row 0 takes the expanded layout. */
  datatype Adapter = Adapter(cursor: Option<Cursor>, useTodayLayout: bool)

  /** A freshly constructed adapter: no cursor, flag at Java's default. */
  function NewAdapter(): (a: Adapter)
    ensures a.cursor.None? && !a.useTodayLayout
  {
    Adapter(None, false)
  }

  function SetUseTodayLayout(a: Adapter, useTodayLayout: bool): (r: Adapter)
    ensures r.useTodayLayout == useTodayLayout
    ensures r.cursor == a.cursor
  {
    a.(useTodayLayout := useTodayLayout)
  }

  /** Swapping in a new cursor (none to drop the data) keeps the layout flag. */
  function SwapCursor(a: Adapter, c: Option<Cursor>): (r: Adapter)
    ensures r.cursor == c
    ensures r.useTodayLayout == a.useTodayLayout
  {
    a.(cursor := c)
  }

  /** The number of rows the adapter offers: none without a cursor. */
  function Count(a: Adapter): nat
  {
    if a.cursor.Some? then |a.cursor.value| else 0
  }

  /** `getViewTypeCount`: as many as there are distinct view types. */
  function GetViewTypeCount(): (n: nat)
    ensures n == |{VIEW_TYPE_TODAY, VIEW_TYPE_FUTURE_DAY}|
  {
    2
  }

  /** The view type of the row at `position`. */
  function GetItemViewType(a: Adapter, position: int): (t: int)
    ensures 0 <= t < GetViewTypeCount()
    ensures t == VIEW_TYPE_TODAY <==> position == 0 && a.useTodayLayout
    ensures t != VIEW_TYPE_TODAY ==> t == VIEW_TYPE_FUTURE_DAY
  {
    if position == 0 && a.useTodayLayout then VIEW_TYPE_TODAY else VIEW_TYPE_FUTURE_DAY
  }

  /** The view types `GetItemViewType` can produce are exactly as many as
      `GetViewTypeCount` announces, and every one of them occurs. The type
      depends only on the position and the flag, never on the cursor. */
  lemma ViewTypesMatchTheirCount(a: Adapter, b: Adapter, position: int)
    ensures |{VIEW_TYPE_TODAY, VIEW_TYPE_FUTURE_DAY}| == GetViewTypeCount()
    ensures GetItemViewType(a, position) in {VIEW_TYPE_TODAY, VIEW_TYPE_FUTURE_DAY}
    ensures GetItemViewType(Adapter(None, true), 0) == VIEW_TYPE_TODAY
    ensures GetItemViewType(Adapter(None, false), 0) == VIEW_TYPE_FUTURE_DAY
    ensures a.useTodayLayout == b.useTodayLayout ==>
      GetItemViewType(a, position) == GetItemViewType(b, position)
  {
  }

  /** With the flag off every row is a future-day row; with it on, row 0 is the
      only today row. */
  lemma TodayRowIsOnlyRowZero(a: Adapter, position: int)
    ensures !a.useTodayLayout ==> GetItemViewType(a, position) == VIEW_TYPE_FUTURE_DAY
    ensures a.useTodayLayout ==>
      (GetItemViewType(a, position) == VIEW_TYPE_TODAY <==> position == 0)
  {
  }

  /** The two row layouts. */
  datatype Layout =
    | TodayLayout      // list_item_forecast_today
    | ForecastLayout   // list_item_forecast

  /** The layout `newView` inflates for the row the cursor stands on. */
  function NewView(a: Adapter, position: int): (l: Layout)
    ensures l == TodayLayout <==> position == 0 && a.useTodayLayout
  {
    if GetItemViewType(a, position) == VIEW_TYPE_TODAY then TodayLayout else ForecastLayout
  }

  /** The icon `bindView`'s switch sets: the art family for the today type,
      the small family for the future-day type, and nothing for any other. */
  function IconFor(viewType: int, conditionId: int): (r: Option<Icon>)
    ensures r.Some? <==> viewType == VIEW_TYPE_TODAY || viewType == VIEW_TYPE_FUTURE_DAY
    ensures r.Some? ==> r.value.conditionId == conditionId
    ensures r.Some? ==> (r.value.ArtIcon? <==> viewType == VIEW_TYPE_TODAY)
  {
    if viewType == VIEW_TYPE_TODAY then Some(ArtIcon(conditionId))
    else if viewType == VIEW_TYPE_FUTURE_DAY then Some(SmallIcon(conditionId))
    else None
  }

  /** What one bound row shows. */
  datatype RowView = RowView(
    layout: Layout,
    icon: Option<Icon>,
    date: string,
    description: string,
    high: string,
    low: string)

  /** `bindView`: fills `view` (a layout made by `NewView`, possibly for
      another row) with the row at `position`. */
  function BindView(a: Adapter, fmt: Formatter, isMetric: bool, view: Layout, position: int, row: Row): (v: RowView)
    requires IsForecastRow(row)
    ensures v.layout == view
    ensures v.icon.Some?
    ensures v.icon.value.conditionId == GetLong(row, COL_WEATHER_CONDITION_ID)
    ensures v.icon.value.ArtIcon? <==> position == 0 && a.useTodayLayout
  {
    var viewType := GetItemViewType(a, position);
    RowView(
      view,
      IconFor(viewType, GetLong(row, COL_WEATHER_CONDITION_ID)),
      fmt.friendlyDay(GetLong(row, COL_WEATHER_DATE)),
      GetString(row, COL_WEATHER_DESC),
      fmt.temperature(GetDouble(row, COL_WEATHER_MAX_TEMP), isMetric),
      fmt.temperature(GetDouble(row, COL_WEATHER_MIN_TEMP), isMetric))
  }

  /** Binding a projected record shows that record's date, description and
      temperatures, with the icon family of its row kind. */
  lemma BindViewShowsRecord(a: Adapter, fmt: Formatter, isMetric: bool, view: Layout, position: int, rec: WeatherRecord)
    ensures IsForecastRow(Project(rec, FORECAST_COLUMNS))
    ensures BindView(a, fmt, isMetric, view, position, Project(rec, FORECAST_COLUMNS)) ==
      RowView(
        view,
        Some(if position == 0 && a.useTodayLayout then ArtIcon(rec.conditionId) else SmallIcon(rec.conditionId)),
        fmt.friendlyDay(rec.date),
        rec.shortDesc,
        fmt.temperature(rec.maxTemp, isMetric),
        fmt.temperature(rec.minTemp, isMetric))
  {
    ForecastIndicesReadTheirFields(rec);
  }

  /** A view recycled between rows of the same type keeps layout and icon
      family in agreement: the today layout always carries an art icon and
      the normal layout a small one. */
  lemma RecycledViewKeepsItsKind(a: Adapter, fmt: Formatter, isMetric: bool, createdAt: int, position: int, row: Row)
    requires IsForecastRow(row)
    requires GetItemViewType(a, createdAt) == GetItemViewType(a, position)
    ensures var v := BindView(a, fmt, isMetric, NewView(a, createdAt), position, row);
      v.layout == TodayLayout <==> v.icon.value.ArtIcon?
  {
  }

  /** A render pass over the adapter's cursor: each row gets a view made by
      `NewView` for its own position and bound by `BindView`. */
  method Render(a: Adapter, fmt: Formatter, isMetric: bool) returns (views: seq<RowView>)
    requires a.cursor.Some? ==> AllForecastRows(a.cursor.value)
    ensures |views| == Count(a)
    ensures forall i :: 0 <= i < |views| ==>
      views[i].layout == (if i == 0 && a.useTodayLayout then TodayLayout else ForecastLayout)
    ensures forall i :: 0 <= i < |views| ==>
      a.cursor.Some? && views[i] == BindView(a, fmt, isMetric, NewView(a, i), i, a.cursor.value[i])
  {
    views := [];
    if a.cursor.None? {
      return;
    }
    var rows := a.cursor.value;
    var i := 0;
    while i < |rows|
      invariant 0 <= i <= |rows|
      invariant |views| == i
      invariant forall j :: 0 <= j < i ==> views[j] == BindView(a, fmt, isMetric, NewView(a, j), j, rows[j])
    {
      views := views + [BindView(a, fmt, isMetric, NewView(a, i), i, rows[i])];
      i := i + 1;
    }
  }

  /** `formatHighLows`: both temperatures rendered with the same unit flag,
      joined by a slash. */
  function FormatHighLows(fmt: Formatter, isMetric: bool, high: real, low: real): (text: string)
  {
    fmt.temperature(high, isMetric) + "/" + fmt.temperature(low, isMetric)
  }

  /** The high/low text splits back into its two temperatures at the first
      slash, as long as the rendered high contains none. */
  lemma HighLowSplitsBack(fmt: Formatter, isMetric: bool, high: real, low: real)
    requires '/' !in fmt.temperature(high, isMetric)
    ensures SplitFirst(FormatHighLows(fmt, isMetric, high, low), '/') ==
      (fmt.temperature(high, isMetric), fmt.temperature(low, isMetric))
  {
    SplitFirstOfJoin(fmt.temperature(high, isMetric), '/', fmt.temperature(low, isMetric));
  }

  /** `convertCursorRowToUXFormat`: "date - description - high/low". The
      adapter never calls it (nor `formatHighLows`): the list rows show the
      fields separately, as `BindView` does. */
  function ConvertCursorRowToUXFormat(fmt: Formatter, isMetric: bool, row: Row): (summary: string)
    requires IsForecastRow(row)
  {
    var highAndLow := FormatHighLows(fmt, isMetric,
      GetDouble(row, COL_WEATHER_MAX_TEMP), GetDouble(row, COL_WEATHER_MIN_TEMP));
    fmt.formatDate(GetLong(row, COL_WEATHER_DATE)) + " - " + GetString(row, COL_WEATHER_DESC) + " - " + highAndLow
  }

  /** The summary of a projected record is built from that record's date,
      description and temperatures. */
  lemma UXFormatShowsRecord(fmt: Formatter, isMetric: bool, rec: WeatherRecord)
    ensures IsForecastRow(Project(rec, FORECAST_COLUMNS))
    ensures ConvertCursorRowToUXFormat(fmt, isMetric, Project(rec, FORECAST_COLUMNS)) ==
      fmt.formatDate(rec.date) + " - " + rec.shortDesc + " - " +
      fmt.temperature(rec.maxTemp, isMetric) + "/" + fmt.temperature(rec.minTemp, isMetric)
  {
    ForecastIndicesReadTheirFields(rec);
  }
}
