/** The forecast list screen as a pure state machine. Its state is the
    remembered list position (INVALID until a click or a restore), the
    today-layout flag and the adapter (absent until the view is created).
    Every callback returns the next state and the effects it asks of the
    platform: a selection to the hosting activity, a scroll, a sync request,
    a loader start or restart, a map launch. */
module ForecastFragment {
  import opened Common
  import opened Store
  import opened ForecastColumns
  import ForecastAdapter
  import Formatting

  /** ListView.INVALID_POSITION. */
  const INVALID_POSITION: int := -1
  const SELECTED_KEY: string := "selected_position"
  const FORECAST_LOADER: int := 0

  /** The saved-instance-state bundle, as far as this screen uses it. */
  type Bundle = map<string, int>

  datatype State = State(
    position: int,
    useTodayLayout: bool,
    adapter: Option<ForecastAdapter.Adapter>)

  datatype Effect =
    | ItemSelected(locator: Locator)   // Callback.onItemSelected on the activity
    | SmoothScrollTo(position: int)
    | SyncImmediately                  // SunshineSyncAdapter.syncImmediately
    | InitLoader(loaderId: int)
    | RestartLoader(loaderId: int)
    | ViewOnMap(geo: string)           // an ACTION_VIEW intent for a geo: URI

  datatype Step = Step(state: State, effects: seq<Effect>)

  /** Every cursor the adapter holds was loaded with the list projection. */
  predicate WellFormed(s: State)
  {
    s.adapter.Some? && s.adapter.value.cursor.Some? ==> AllForecastRows(s.adapter.value.cursor.value)
  }

  /** A freshly constructed fragment: nothing selected, no view yet. */
  function Initial(): (s: State)
    ensures s.position == INVALID_POSITION
    ensures s.adapter.None?
    ensures WellFormed(s)
  {
    State(INVALID_POSITION, false, None)
  }

  /** `onCreateView`: a new adapter without data that takes over the stored
      today-layout flag, and the saved position if the bundle holds one. */
  function OnCreateView(s: State, savedInstanceState: Option<Bundle>): (r: State)
    ensures r.adapter == Some(ForecastAdapter.Adapter(None, s.useTodayLayout))
    ensures r.useTodayLayout == s.useTodayLayout
    ensures savedInstanceState.Some? && SELECTED_KEY in savedInstanceState.value ==>
      r.position == savedInstanceState.value[SELECTED_KEY]
    ensures !(savedInstanceState.Some? && SELECTED_KEY in savedInstanceState.value) ==>
      r.position == s.position
    ensures WellFormed(r)
  {
    var adapter := ForecastAdapter.SetUseTodayLayout(ForecastAdapter.NewAdapter(), s.useTodayLayout);
    var position :=
      if savedInstanceState.Some? && SELECTED_KEY in savedInstanceState.value
      then savedInstanceState.value[SELECTED_KEY]
      else s.position;
    State(position, s.useTodayLayout, Some(adapter))
  }

  /** The row click handler. `item` is what the list returns for the clicked
      position: the cursor row, or none when it cannot seek there. The
      position is recorded either way; a selection is sent only for a row. */
  function OnItemClick(s: State, position: int, item: Option<Row>, preferredLocation: string): (r: Step)
    requires item.Some? ==> IsForecastRow(item.value)
    ensures r.state == s.(position := position)
    ensures item.None? ==> r.effects == []
    ensures item.Some? ==> |r.effects| == 1 && r.effects[0].ItemSelected?
    ensures item.Some? ==> r.effects[0].locator.location == preferredLocation
    ensures item.Some? ==> r.effects[0].locator == WeatherLocationWithDate(preferredLocation, GetLong(item.value, COL_WEATHER_DATE))
  {
    var effects :=
      if item.Some?
      then [ItemSelected(WeatherLocationWithDate(preferredLocation, GetLong(item.value, COL_WEATHER_DATE)))]
      else [];
    Step(s.(position := position), effects)
  }

  /** Clicking the row of a record selects that record's date at the
      preferred location. */
  lemma ClickSelectsRecordDate(s: State, position: int, rec: WeatherRecord, preferredLocation: string)
    ensures IsForecastRow(Project(rec, FORECAST_COLUMNS))
    ensures OnItemClick(s, position, Some(Project(rec, FORECAST_COLUMNS)), preferredLocation).effects ==
      [ItemSelected(WeatherLocationWithDate(preferredLocation, rec.date))]
  {
    ForecastIndicesReadTheirFields(rec);
  }

  /** `onSaveInstanceState`: the position goes under SELECTED_KEY only when
      it is not INVALID_POSITION; every other entry is left alone. */
  function OnSaveInstanceState(s: State, outState: Bundle): (r: Bundle)
    ensures s.position != INVALID_POSITION ==> SELECTED_KEY in r && r[SELECTED_KEY] == s.position
    ensures s.position == INVALID_POSITION ==> r == outState
    ensures r.Keys == outState.Keys + (if s.position != INVALID_POSITION then {SELECTED_KEY} else {})
    ensures forall k :: k in outState && k != SELECTED_KEY ==> r[k] == outState[k]
  {
    if s.position != INVALID_POSITION then outState[SELECTED_KEY := s.position] else outState
  }

  /** Saving and then creating a view from the saved bundle restores any
      position other than INVALID_POSITION; a fragment with nothing selected saves nothing, so the new
      view keeps the position it had. */
  lemma SaveThenRestore(s: State, newer: State, outState: Bundle)
    requires SELECTED_KEY !in outState
    ensures OnCreateView(newer, Some(OnSaveInstanceState(s, outState))).position ==
      if s.position != INVALID_POSITION then s.position else newer.position
  {
  }

  /** A fragment that never had a selection adds nothing to the bundle. */
  lemma NeverSelectedSavesNothing(outState: Bundle)
    ensures OnSaveInstanceState(Initial(), outState) == outState
  {
  }

  /** `onLoadFinished`: the adapter shows the new cursor, and a scroll to the
      remembered position is requested whenever that position is not INVALID_POSITION. The
      position itself is kept. */
  function OnLoadFinished(s: State, cursor: Option<Cursor>): (r: Step)
    requires s.adapter.Some?
    ensures r.state.position == s.position && r.state.useTodayLayout == s.useTodayLayout
    ensures r.state.adapter == Some(ForecastAdapter.SwapCursor(s.adapter.value, cursor))
    ensures r.effects == if s.position != INVALID_POSITION then [SmoothScrollTo(s.position)] else []
  {
    var state := s.(adapter := Some(ForecastAdapter.SwapCursor(s.adapter.value, cursor)));
    if s.position != INVALID_POSITION then Step(state, [SmoothScrollTo(s.position)]) else Step(state, [])
  }

  /** Since the position is never cleared, every later load scrolls again. */
  lemma EveryLoadScrollsAgain(s: State, first: Option<Cursor>, second: Option<Cursor>)
    requires s.adapter.Some?
    requires s.position != INVALID_POSITION
    ensures var one := OnLoadFinished(s, first);
      var two := OnLoadFinished(one.state, second);
      one.effects + two.effects == [SmoothScrollTo(s.position), SmoothScrollTo(s.position)]
  {
  }

  /** `onLoaderReset`: the adapter drops its cursor, nothing else changes. */
  function OnLoaderReset(s: State): (r: State)
    requires s.adapter.Some?
    ensures r.adapter.Some? && r.adapter.value.cursor.None?
    ensures r.adapter.value.useTodayLayout == s.adapter.value.useTodayLayout
    ensures r.position == s.position && r.useTodayLayout == s.useTodayLayout
  {
    s.(adapter := Some(ForecastAdapter.SwapCursor(s.adapter.value, None)))
  }

  /** After a reset a render pass produces no rows at all. */
  method RenderAfterReset(s: State, fmt: Formatting.Formatter, isMetric: bool) returns (views: seq<ForecastAdapter.RowView>)
    requires s.adapter.Some?
    ensures views == []
  {
    var r := OnLoaderReset(s);
    views := ForecastAdapter.Render(r.adapter.value, fmt, isMetric);
  }

  /** `onActivityCreated`: the forecast loader is started. */
  function OnActivityCreated(s: State): (r: Step)
    ensures r.state == s
    ensures r.effects == [InitLoader(FORECAST_LOADER)]
  {
    Step(s, [InitLoader(FORECAST_LOADER)])
  }

  /** `onLocationChanged`: one sync request, then one loader restart. */
  function OnLocationChanged(s: State): (r: Step)
    ensures r.state == s
    ensures r.effects == [SyncImmediately, RestartLoader(FORECAST_LOADER)]
  {
    Step(s, [SyncImmediately, RestartLoader(FORECAST_LOADER)])
  }

  /** `onCreateLoader`: the preferred location's weather from `nowMillis` on,
      with the list projection, no selection, ascending by date. */
  function OnCreateLoader(preferredLocation: string, nowMillis: int): (q: Query)
    ensures q.uri == Some(WeatherLocationWithStartDate(preferredLocation, nowMillis))
    ensures q.projection == FORECAST_COLUMNS
    ensures q.selection.None?
    ensures q.sortOrder == Some(Ascending(Date))
  {
    Query(Some(WeatherLocationWithStartDate(preferredLocation, nowMillis)), FORECAST_COLUMNS, None, Some(Ascending(Date)))
  }

  /** `setUseTodayLayout`: the fragment keeps the flag and forwards it to the
      adapter when there is one. */
  function SetUseTodayLayout(s: State, useTodayLayout: bool): (r: State)
    ensures r.useTodayLayout == useTodayLayout
    ensures r.position == s.position
    ensures r.adapter.Some? <==> s.adapter.Some?
    ensures r.adapter.Some? ==> r.adapter.value == ForecastAdapter.SetUseTodayLayout(s.adapter.value, useTodayLayout)
  {
    var adapter :=
      if s.adapter.Some?
      then Some(ForecastAdapter.SetUseTodayLayout(s.adapter.value, useTodayLayout))
      else None;
    State(s.position, useTodayLayout, adapter)
  }

  /** A flag set before the view exists reaches the adapter once the view is
      created. */
  lemma FlagReachesLaterAdapter(s: State, useTodayLayout: bool, saved: Option<Bundle>)
    ensures OnCreateView(SetUseTodayLayout(s, useTodayLayout), saved).adapter.value.useTodayLayout == useTodayLayout
  {
  }

  /** The map location text. */
  function GeoString(lat: string, long: string): (geo: string)
  {
    "geo:" + lat + "," + long
  }

  /** The coordinates split back out of the map location text. */
  lemma GeoStringSplitsBack(lat: string, long: string)
    requires ',' !in lat
    ensures |GeoString(lat, long)| >= 4 && GeoString(lat, long)[..4] == "geo:"
    ensures SplitFirst(GeoString(lat, long)[4..], ',') == (lat, long)
  {
    var g := GeoString(lat, long);
    assert g[4..] == lat + [','] + long;
    SplitFirstOfJoin(lat, ',', long);
  }

  /** What the map action as written leads to. */
  datatype MapOutcome =
    | NoMapAction
    | MapLaunch(geo: string)
    | CursorIndexOutOfBounds   // reading row 0 of a cursor that has none throws

  /** `openPreferredLocationInMap` as written: with a cursor it moves to row 0
      without looking at the result and reads the coordinates there. */
  function OpenPreferredLocationInMapAsWritten(s: State): (r: MapOutcome)
    requires WellFormed(s)
    ensures r.CursorIndexOutOfBounds? <==>
      s.adapter.Some? && s.adapter.value.cursor.Some? && |s.adapter.value.cursor.value| == 0
  {
    if s.adapter.None? || s.adapter.value.cursor.None? then NoMapAction
    else
      var c := s.adapter.value.cursor.value;
      if |c| == 0 then CursorIndexOutOfBounds
      else MapLaunch(GeoString(GetString(c[0], COL_COORD_LAT), GetString(c[0], COL_COORD_LONG)))
  }

  /** The map action as written fails on a loaded but empty forecast. */
  lemma MapOnEmptyCursorFailsAsWritten(s: State)
    requires s.adapter.Some? && s.adapter.value.cursor == Some([])
    ensures OpenPreferredLocationInMapAsWritten(s) == CursorIndexOutOfBounds
  {
  }

  /** The map action with the seek to row 0 checked: a map is opened exactly
      when the adapter has a cursor with a first row, at that row's
      coordinates. */
  function OpenPreferredLocationInMap(s: State): (r: seq<Effect>)
    requires WellFormed(s)
    ensures |r| <= 1
    ensures |r| == 1 <==> s.adapter.Some? && s.adapter.value.cursor.Some? && |s.adapter.value.cursor.value| > 0
    ensures |r| == 1 ==> r[0] == ViewOnMap(GeoString(
      GetString(s.adapter.value.cursor.value[0], COL_COORD_LAT),
      GetString(s.adapter.value.cursor.value[0], COL_COORD_LONG)))
  {
    if s.adapter.None? || s.adapter.value.cursor.None? then []
    else
      var c := s.adapter.value.cursor.value;
      if |c| == 0 then []
      else [ViewOnMap(GeoString(GetString(c[0], COL_COORD_LAT), GetString(c[0], COL_COORD_LONG)))]
  }

  /** Wherever the code as written launches a map, the checked action opens
      the same one; it differs only where the code as written fails. */
  lemma CheckedMapAgreesWhereWrittenSucceeds(s: State)
    requires WellFormed(s)
    ensures OpenPreferredLocationInMapAsWritten(s).NoMapAction? ==> OpenPreferredLocationInMap(s) == []
    ensures OpenPreferredLocationInMapAsWritten(s).MapLaunch? ==>
      OpenPreferredLocationInMap(s) == [ViewOnMap(OpenPreferredLocationInMapAsWritten(s).geo)]
  {
  }

  /** The map of a loaded forecast points at its first record's coordinates. */
  lemma MapUsesFirstRecord(s: State, rec: WeatherRecord, rest: Cursor)
    requires s.adapter.Some?
    requires AllForecastRows(rest)
    ensures WellFormed(s.(adapter := Some(ForecastAdapter.SwapCursor(s.adapter.value, Some([Project(rec, FORECAST_COLUMNS)] + rest)))))
    ensures OpenPreferredLocationInMap(s.(adapter := Some(ForecastAdapter.SwapCursor(s.adapter.value, Some([Project(rec, FORECAST_COLUMNS)] + rest))))) ==
      [ViewOnMap("geo:" + rec.coordLat + "," + rec.coordLong)]
  {
    ForecastIndicesReadTheirFields(rec);
    var c := [Project(rec, FORECAST_COLUMNS)] + rest;
    assert c[0] == Project(rec, FORECAST_COLUMNS);
    assert forall i :: 1 <= i < |c| ==> c[i] == rest[i - 1];
  }

  datatype MenuItem = ActionMap | OtherItem

  /** Whether a menu callback consumed the item, and what it asked for. */
  datatype Handled = Handled(consumed: bool, effects: seq<Effect>)

  /** `onOptionsItemSelected`: the map item is handled here (and runs the map
      action); any other item is left to the default handling, which does
      not consume it. */
  function OnOptionsItemSelected(s: State, item: MenuItem): (r: Handled)
    requires WellFormed(s)
    ensures r.consumed <==> item == ActionMap
    ensures item == OtherItem ==> r.effects == []
    ensures item == ActionMap ==> r.effects == OpenPreferredLocationInMap(s)
  {
    match item
    case ActionMap => Handled(true, OpenPreferredLocationInMap(s))
    case OtherItem => Handled(false, [])
  }

  /** The callbacks that arrive once the view exists. */
  datatype Event =
    | CreateView(savedInstanceState: Option<Bundle>)
    | Click(position: int, item: Option<Row>, preferredLocation: string)
    | LoadFinished(cursor: Option<Cursor>)
    | LoaderReset
    | LocationChanged
    | UseTodayLayout(flag: bool)

  predicate ValidEvent(e: Event)
  {
    match e
    case Click(_, item, _) => item.Some? ==> IsForecastRow(item.value)
    case LoadFinished(cursor) => cursor.Some? ==> AllForecastRows(cursor.value)
    case _ => true
  }

  predicate ValidEvents(events: seq<Event>)
  {
    forall i :: 0 <= i < |events| ==> ValidEvent(events[i])
  }

  /** Does the event overwrite the remembered position? */
  predicate WritesPosition(e: Event)
  {
    e.Click? || (e.CreateView? && e.savedInstanceState.Some? && SELECTED_KEY in e.savedInstanceState.value)
  }

  /** The position an event writes. */
  function WrittenPosition(e: Event): int
    requires WritesPosition(e)
  {
    if e.Click? then e.position else e.savedInstanceState.value[SELECTED_KEY]
  }

  function Apply(s: State, e: Event): (r: Step)
    requires s.adapter.Some? && WellFormed(s) && ValidEvent(e)
    ensures r.state.adapter.Some? && WellFormed(r.state)
  {
    match e
    case CreateView(saved) => Step(OnCreateView(s, saved), [])
    case Click(position, item, location) => OnItemClick(s, position, item, location)
    case LoadFinished(cursor) => OnLoadFinished(s, cursor)
    case LoaderReset => Step(OnLoaderReset(s), [])
    case LocationChanged => OnLocationChanged(s)
    case UseTodayLayout(flag) => Step(SetUseTodayLayout(s, flag), [])
  }

  /** Runs the callbacks in order, collecting their effects. */
  function Run(s: State, events: seq<Event>): (r: Step)
    requires s.adapter.Some? && WellFormed(s) && ValidEvents(events)
    ensures r.state.adapter.Some? && WellFormed(r.state)
    decreases |events|
  {
    if |events| == 0 then Step(s, [])
    else
      var first := Apply(s, events[0]);
      var rest := Run(first.state, events[1..]);
      Step(rest.state, first.effects + rest.effects)
  }

  lemma {:induction false} RunAppend(s: State, events: seq<Event>, e: Event)
    requires s.adapter.Some? && WellFormed(s) && ValidEvents(events) && ValidEvent(e)
    ensures ValidEvents(events + [e])
    ensures var before := Run(s, events);
      var last := Apply(before.state, e);
      Run(s, events + [e]) == Step(last.state, before.effects + last.effects)
    decreases |events|
  {
    var all := events + [e];
    assert forall i :: 0 <= i < |all| ==> all[i] == if i < |events| then events[i] else e;
    if |events| == 0 {
      assert all == [e];
      assert all[1..] == [];
    } else {
      assert all[0] == events[0];
      assert all[1..] == events[1..] + [e];
      var first := Apply(s, events[0]);
      RunAppend(first.state, events[1..], e);
    }
  }

  /** The position the last position-writing event left, or `p` if none did:
      the most recent click, or the most recent restore from saved state. */
  function LastWrittenPosition(p: int, events: seq<Event>): (position: int)
  {
    if |events| == 0 then p
    else if WritesPosition(events[|events| - 1]) then WrittenPosition(events[|events| - 1])
    else LastWrittenPosition(p, events[..|events| - 1])
  }

  /** After any run, the remembered position is exactly the one the last
      click or restore wrote; loads, resets, flag changes and location
      changes never touch it. */
  lemma {:induction false} RunPositionIsLastWritten(s: State, events: seq<Event>)
    requires s.adapter.Some? && WellFormed(s) && ValidEvents(events)
    ensures Run(s, events).state.position == LastWrittenPosition(s.position, events)
    decreases |events|
  {
    if |events| > 0 {
      var init := events[..|events| - 1];
      var e := events[|events| - 1];
      assert init + [e] == events;
      assert ValidEvents(init) by {
        assert forall i :: 0 <= i < |init| ==> init[i] == events[i];
      }
      RunAppend(s, init, e);
      RunPositionIsLastWritten(s, init);
    }
  }

  /** Until a click or a restore writes a position, no run ever asks for a
      scroll. */
  lemma {:induction false} NoScrollBeforeSelection(s: State, events: seq<Event>)
    requires s.adapter.Some? && WellFormed(s) && ValidEvents(events)
    requires s.position == INVALID_POSITION
    requires forall i :: 0 <= i < |events| ==> !WritesPosition(events[i])
    ensures forall j :: 0 <= j < |Run(s, events).effects| ==> !Run(s, events).effects[j].SmoothScrollTo?
    decreases |events|
  {
    if |events| > 0 {
      var first := Apply(s, events[0]);
      assert !WritesPosition(events[0]);
      assert first.state.position == INVALID_POSITION;
      assert forall j :: 0 <= j < |first.effects| ==> !first.effects[j].SmoothScrollTo?;
      assert ValidEvents(events[1..]) by {
        assert forall i :: 0 <= i < |events[1..]| ==> events[1..][i] == events[i + 1];
      }
      assert forall i :: 0 <= i < |events[1..]| ==> !WritesPosition(events[1..][i]) by {
        assert forall i :: 0 <= i < |events[1..]| ==> events[1..][i] == events[i + 1];
      }
      NoScrollBeforeSelection(first.state, events[1..]);
    }
  }

  /** Every scroll any run asks for targets a position other than INVALID_POSITION. */
  lemma {:induction false} ScrollsTargetValidPositions(s: State, events: seq<Event>)
    requires s.adapter.Some? && WellFormed(s) && ValidEvents(events)
    ensures forall j :: 0 <= j < |Run(s, events).effects| && Run(s, events).effects[j].SmoothScrollTo? ==>
      Run(s, events).effects[j].position != INVALID_POSITION
    decreases |events|
  {
    if |events| > 0 {
      var first := Apply(s, events[0]);
      assert ValidEvents(events[1..]) by {
        assert forall i :: 0 <= i < |events[1..]| ==> events[1..][i] == events[i + 1];
      }
      ScrollsTargetValidPositions(first.state, events[1..]);
    }
  }

  /** The positions of the scrolls among `effects`, in order. */
  function Scrolls(effects: seq<Effect>): (positions: seq<int>)
    decreases |effects|
  {
    if |effects| == 0 then []
    else (if effects[0].SmoothScrollTo? then [effects[0].position] else []) + Scrolls(effects[1..])
  }

  lemma {:induction false} ScrollsAppend(a: seq<Effect>, b: seq<Effect>)
    ensures Scrolls(a + b) == Scrolls(a) + Scrolls(b)
    decreases |a|
  {
    if |a| == 0 {
      assert a + b == b;
    } else {
      assert (a + b)[0] == a[0];
      assert (a + b)[1..] == a[1..] + b;
      ScrollsAppend(a[1..], b);
    }
  }

  /** The number of load deliveries among `events`. */
  function Loads(events: seq<Event>): (count: nat)
    decreases |events|
  {
    if |events| == 0 then 0 else (if events[0].LoadFinished? then 1 else 0) + Loads(events[1..])
  }

  /** Once a position is remembered, and until a click or restore writes
      another, each load delivery asks for one scroll to it and nothing else
      asks for a scroll: the remembered position is never consumed. */
  lemma {:induction false} EachLoadScrollsToRemembered(s: State, events: seq<Event>)
    requires s.adapter.Some? && WellFormed(s) && ValidEvents(events)
    requires s.position != INVALID_POSITION
    requires forall i :: 0 <= i < |events| ==> !WritesPosition(events[i])
    ensures Scrolls(Run(s, events).effects) == seq(Loads(events), _ => s.position)
    decreases |events|
  {
    if |events| > 0 {
      var first := Apply(s, events[0]);
      var rest := events[1..];
      assert forall i :: 0 <= i < |rest| ==> rest[i] == events[i + 1];
      assert ValidEvents(rest);
      assert !WritesPosition(events[0]);
      assert first.state.position == s.position;
      assert Scrolls(first.effects) == if events[0].LoadFinished? then [s.position] else [] by {
        match events[0]
        case LoadFinished(_) =>
          assert first.effects == [SmoothScrollTo(s.position)];
          assert first.effects[1..] == [];
        case Click(_, _, _) =>
        case CreateView(_) =>
        case LoaderReset =>
        case LocationChanged =>
          var e := first.effects;
          assert e == [SyncImmediately, RestartLoader(FORECAST_LOADER)];
          assert e[1..][1..] == [];
          assert Scrolls(e[1..]) == [];
        case UseTodayLayout(_) =>
      }
      EachLoadScrollsToRemembered(first.state, rest);
      ScrollsAppend(first.effects, Run(first.state, rest).effects);
    }
  }
}
