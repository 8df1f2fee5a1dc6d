# Sunshine presentation layer: a Dafny model

This project models the decision rules of the Sunshine weather app's presentation layer: the
forecast list screen (`ForecastFragment`), its row adapter (`ForecastAdapter`), the detail screen
(`DetailFragment`) and the master/detail activity (`MainActivity`). Each screen is a pure state
machine over immutable records. A callback is a function from the current state (and its inputs)
to the next state plus a list of *effects*: the requests the screen makes of the platform, such
as a selection sent to the activity, a scroll, a sync request, a loader start or restart, a share
intent, a fragment transaction or a navigation.

The data the screens see is modelled as follows:

- A cursor is a `seq<Row>`. A `Row` is a `seq<Value>` aligned with the column projection it was
  loaded with.
- `Store.Project(rec, cols)` is the row the store returns for a joined weather/location record.
  This makes it possible to prove that each column-index constant reads the record field its name
  promises. The list projection and its indices are in `ForecastColumns`; the detail projection
  and its indices are in `DetailFragment`.
- The app's formatting helpers (`Utility`, string resources) are function values in a
  `Formatting.Formatter`. Every result proved here holds whatever they compute.
- Content locators (the weather contract's URI builders) are a symbolic datatype, `Store.Locator`.

Modules: `Common` (optional values, Java's `"null"` rendering, split/suffix helpers), `Store`,
`Formatting`, `ForecastColumns`, `ForecastAdapter`, `ForecastFragment`, `DetailFragment`,
`MainActivity`, and `Wiring`. `Wiring` connects the activity's calls into the list fragment and
the detail fragment it creates.

Main results:

- The remembered list position after any sequence of callbacks is the one written by the last
  click or restore (`ForecastFragment.RunPositionIsLastWritten`).
- No scroll is requested before a position has been written (`NoScrollBeforeSelection`).
- Saving and then restoring state round-trips any position other than INVALID_POSITION (`SaveThenRestore`).
- The view type is one of exactly `getViewTypeCount()` values.
- A recycled row view keeps its layout and its icon family in agreement.
- The share provider never holds a stale payload (`DetailFragment.ShareNeverStale`).
- In two-pane mode, a click on a row opens a detail pane whose loader queries that row's locator
  (`Wiring.TwoPaneClickOpensRecordDetail`).

## Behaviour worth knowing

The model follows the code in each of these points.

- **Restore scroll.** `mposition` is never cleared, so every `onLoadFinished` scrolls to it
  again, not only the first one after a restore (`EachLoadScrollsToRemembered`).
- **Click that cannot be resolved.** A click whose item is null still records the clicked
  position; only the selection is skipped (`OnItemClick`).
- **Share payload temperatures.** The share text formats the raw doubles with `%s`, so the high
  and low appear as Java renders a `double` (for example `68.0/54.0`). The unit-formatted strings
  are used only in the views (`ForecastSummary`, `LoadedSummaryShowsRecord`).
- **Share payload before any load.** Java's string concatenation renders a null `mForecast` as
  `"null"` (`Common.JavaString`).
- **The list's summary string is unused.** `formatHighLows` and `convertCursorRowToUXFormat` are
  private and never called: the list rows show the date, description and two temperatures
  separately (`BindView`). The two functions are modelled with their properties all the same.
- **A detail fragment without a locator still builds its loader.** The guard that would return no
  loader is commented out, so such a fragment queries a null URI (`OnCreateLoader`,
  `ArgumentlessDetailQueriesNothing`).
- **Stale deliveries and last-writer-wins loading.** These belong to Android's `LoaderManager`,
  not to this code, and are not stated as properties here.

## Model

| member | source | states |
|---|---|---|
| ForecastColumns.ForecastIndicesReadTheirFields | app/src/main/java/com/example/android/sunshine/app/ForecastFragment.java:55-84 | each COL_* constant indexes, in a row loaded with FORECAST_COLUMNS, the field it names (id, date, description, max, min, location, condition, lat, long) |
| ForecastFragment.Initial | app/src/main/java/com/example/android/sunshine/app/ForecastFragment.java:87 | a new fragment's position is the INVALID sentinel and it has no adapter yet |
| ForecastFragment.OnCreateView | app/src/main/java/com/example/android/sunshine/app/ForecastFragment.java:163-218 | the new adapter has no cursor and carries the fragment's today-layout flag; the position is read from the bundle only when SELECTED_KEY is present, otherwise kept |
| ForecastFragment.OnItemClick | app/src/main/java/com/example/android/sunshine/app/ForecastFragment.java:183-198 | the clicked position is always recorded; exactly one selection is emitted iff the item resolved, with a locator built from the preferred location and the row's date column |
| ForecastFragment.ClickSelectsRecordDate | app/src/main/java/com/example/android/sunshine/app/ForecastFragment.java:187-193 | clicking a record's row selects exactly that record's date at the preferred location |
| ForecastFragment.OnSaveInstanceState | app/src/main/java/com/example/android/sunshine/app/ForecastFragment.java:346-356 | SELECTED_KEY is written iff the position is not INVALID_POSITION, with that position; all other entries are preserved |
| ForecastFragment.SaveThenRestore | app/src/main/java/com/example/android/sunshine/app/ForecastFragment.java:209-214 | saving and then creating a view from the bundle restores any position other than INVALID_POSITION, and leaves the new fragment's position alone when nothing was saved |
| ForecastFragment.NeverSelectedSavesNothing | app/src/main/java/com/example/android/sunshine/app/ForecastFragment.java:348-354 | a fragment that never had a selection leaves the bundle unchanged |
| ForecastFragment.OnLoadFinished | app/src/main/java/com/example/android/sunshine/app/ForecastFragment.java:323-336 | the adapter gets the new cursor and a scroll to the position is requested iff the position is not INVALID_POSITION; the position is kept |
| ForecastFragment.EveryLoadScrollsAgain | app/src/main/java/com/example/android/sunshine/app/ForecastFragment.java:329-335 | with a position other than INVALID_POSITION, two consecutive loads each request the same scroll |
| ForecastFragment.EachLoadScrollsToRemembered | app/src/main/java/com/example/android/sunshine/app/ForecastFragment.java:329-335 | from a remembered position other than INVALID_POSITION, until a click or restore writes another, any sequence of callbacks asks for exactly one scroll to that position per load delivery and no other scroll |
| ForecastFragment.OnLoaderReset | app/src/main/java/com/example/android/sunshine/app/ForecastFragment.java:338-344 | the adapter keeps no cursor and nothing else changes |
| ForecastFragment.RenderAfterReset | app/src/main/java/com/example/android/sunshine/app/ForecastFragment.java:343 | a render pass after a reset produces no rows |
| ForecastFragment.OnActivityCreated | app/src/main/java/com/example/android/sunshine/app/ForecastFragment.java:260-274 | the forecast loader (id 0) is started and the state is unchanged |
| ForecastFragment.OnLocationChanged | app/src/main/java/com/example/android/sunshine/app/ForecastFragment.java:280-283 | exactly one sync request followed by one restart of the forecast loader, and the state is unchanged |
| ForecastFragment.OnCreateLoader | app/src/main/java/com/example/android/sunshine/app/ForecastFragment.java:285-315 | the query is the preferred location's weather from the given time on, with FORECAST_COLUMNS, no selection, ascending by date |
| ForecastFragment.SetUseTodayLayout | app/src/main/java/com/example/android/sunshine/app/ForecastFragment.java:364-369 | the fragment's flag is always updated; it is forwarded to the adapter exactly when an adapter exists |
| ForecastFragment.FlagReachesLaterAdapter | app/src/main/java/com/example/android/sunshine/app/ForecastFragment.java:215 | a flag set before the view exists reaches the adapter created with the view |
| ForecastFragment.GeoStringSplitsBack | app/src/main/java/com/example/android/sunshine/app/ForecastFragment.java:145-147 | the map text starts with "geo:" and splits back into latitude and longitude at the first comma |
| ForecastFragment.GeoString | app/src/main/java/com/example/android/sunshine/app/ForecastFragment.java:147 | returns "geo:" + latitude + "," + longitude; its partner GeoStringSplitsBack recovers both coordinates from it (no ensures of its own) |
| ForecastFragment.OpenPreferredLocationInMapAsWritten | app/src/main/java/com/example/android/sunshine/app/ForecastFragment.java:137-161 | the map action as written fails exactly when the adapter holds a cursor with no rows |
| ForecastFragment.MapOnEmptyCursorFailsAsWritten | app/src/main/java/com/example/android/sunshine/app/ForecastFragment.java:143-146 | a loaded empty cursor makes the map action as written read past the end |
| ForecastFragment.OpenPreferredLocationInMap | app/src/main/java/com/example/android/sunshine/app/ForecastFragment.java:141-147 | a map is opened iff a cursor with a first row exists, at that row's coordinates |
| ForecastFragment.CheckedMapAgreesWhereWrittenSucceeds | app/src/main/java/com/example/android/sunshine/app/ForecastFragment.java:141-147 | wherever the code as written launches a map or does nothing, the checked action does the same |
| ForecastFragment.MapUsesFirstRecord | app/src/main/java/com/example/android/sunshine/app/ForecastFragment.java:144-147 | the map of a loaded forecast is "geo:" + the first record's latitude + "," + its longitude |
| ForecastFragment.OnOptionsItemSelected | app/src/main/java/com/example/android/sunshine/app/ForecastFragment.java:119-135 | only the map item is consumed, and only it runs the map action |
| ForecastFragment.RunPositionIsLastWritten | app/src/main/java/com/example/android/sunshine/app/ForecastFragment.java:196-212 | after any sequence of callbacks the position is the one the last click or restore wrote, or the initial one if none did |
| ForecastFragment.NoScrollBeforeSelection | app/src/main/java/com/example/android/sunshine/app/ForecastFragment.java:331-335 | starting from INVALID, no sequence of callbacks without a click or restore requests a scroll |
| ForecastFragment.ScrollsTargetValidPositions | app/src/main/java/com/example/android/sunshine/app/ForecastFragment.java:331-334 | every scroll requested in any sequence of callbacks targets a position other than INVALID_POSITION (any other integer, including negative ones, is passed on as it is) |
| ForecastAdapter.NewAdapter | app/src/main/java/com/example/android/sunshine/app/ForecastAdapter.java:21-25 | a new adapter has no cursor and the today layout off |
| ForecastAdapter.SetUseTodayLayout | app/src/main/java/com/example/android/sunshine/app/ForecastAdapter.java:27-29 | the flag is set and the cursor kept |
| ForecastAdapter.GetItemViewType | app/src/main/java/com/example/android/sunshine/app/ForecastAdapter.java:63-66 | the type lies in [0, getViewTypeCount()); it is TODAY iff position is 0 and the today layout is on, and FUTURE_DAY otherwise |
| ForecastAdapter.GetViewTypeCount | app/src/main/java/com/example/android/sunshine/app/ForecastAdapter.java:68-71 | the count it reports is the number of distinct view types, TODAY and FUTURE_DAY; ViewTypesMatchTheirCount shows every GetItemViewType result lies among them |
| ForecastAdapter.ViewTypesMatchTheirCount | app/src/main/java/com/example/android/sunshine/app/ForecastAdapter.java:18-71 | the possible types are exactly two, as many as getViewTypeCount() reports; both occur; the type depends only on position and flag |
| ForecastAdapter.TodayRowIsOnlyRowZero | app/src/main/java/com/example/android/sunshine/app/ForecastAdapter.java:65 | with the flag off every row is FUTURE_DAY; with it on, only row 0 is TODAY |
| ForecastAdapter.NewView | app/src/main/java/com/example/android/sunshine/app/ForecastAdapter.java:80-98 | the today layout is inflated iff the row is row 0 with the today layout on |
| ForecastAdapter.IconFor | app/src/main/java/com/example/android/sunshine/app/ForecastAdapter.java:121-130 | TODAY selects the art icon and FUTURE_DAY the small icon of the condition; any other type sets none |
| ForecastAdapter.BindView | app/src/main/java/com/example/android/sunshine/app/ForecastAdapter.java:103-152 | a bound row always has an icon for its condition column; it is the art icon iff the row is the today row; the view's layout is kept |
| ForecastAdapter.BindViewShowsRecord | app/src/main/java/com/example/android/sunshine/app/ForecastAdapter.java:115-149 | binding a record shows its friendly date, description and both temperatures under one unit flag |
| ForecastAdapter.RecycledViewKeepsItsKind | app/src/main/java/com/example/android/sunshine/app/ForecastAdapter.java:80-130 | a view made for one row and rebound to a row of the same type has the today layout iff it shows an art icon |
| ForecastAdapter.Render | app/src/main/java/com/example/android/sunshine/app/ForecastAdapter.java:80-152 | a render pass yields one view per cursor row (none without a cursor); the today layout is used only for row 0 with the flag on |
| ForecastAdapter.HighLowSplitsBack | app/src/main/java/com/example/android/sunshine/app/ForecastAdapter.java:34-38 | the high/low text splits back at the slash into the two temperatures, both rendered with one unit flag |
| ForecastAdapter.FormatHighLows | app/src/main/java/com/example/android/sunshine/app/ForecastAdapter.java:34-38 | returns the high and the low, each rendered under the same unit flag, joined by a slash; its partner HighLowSplitsBack splits it back into the two temperatures (it has no ensures of its own; the list never calls it) |
| ForecastAdapter.ConvertCursorRowToUXFormat | app/src/main/java/com/example/android/sunshine/app/ForecastAdapter.java:47-61 | returns the row's formatted date, " - ", description, " - ", and the high/low text; its partner UXFormatShowsRecord ties each part to the record the row was loaded from (no ensures of its own; the list never calls it) |
| ForecastAdapter.UXFormatShowsRecord | app/src/main/java/com/example/android/sunshine/app/ForecastAdapter.java:47-61 | a record's row summary is its formatted date, " - ", description, " - ", high "/" low |
| DetailFragment.DetailIndicesReadTheirFields | app/src/main/java/com/example/android/sunshine/app/DetailFragment.java:41-68 | each detail COL_* constant indexes, in a row loaded with DETAIL_COLUMNS, the field it names |
| DetailFragment.Initial | app/src/main/java/com/example/android/sunshine/app/DetailFragment.java:36-70 | a new detail fragment has no locator, no forecast and no share provider |
| DetailFragment.OnCreateView | app/src/main/java/com/example/android/sunshine/app/DetailFragment.java:89-92 | the locator is taken from the arguments only when they exist (none when the key is missing); otherwise it stays as it was |
| DetailFragment.CreateShareForecastIntent | app/src/main/java/com/example/android/sunshine/app/DetailFragment.java:134-141 | the intent is text/plain and its text is the forecast (or "null") followed by " #SunshineApp", which strips back off |
| DetailFragment.SharePayloadDeterminesForecast | app/src/main/java/com/example/android/sunshine/app/DetailFragment.java:137-139 | two loaded forecasts with the same share intent are the same forecast |
| DetailFragment.OnCreateOptionsMenu | app/src/main/java/com/example/android/sunshine/app/DetailFragment.java:113-132 | the provider is remembered and the share intent is set iff a provider exists |
| DetailFragment.OnActivityCreated | app/src/main/java/com/example/android/sunshine/app/DetailFragment.java:143-147 | the detail loader is started and the state is unchanged |
| DetailFragment.OnCreateLoader | app/src/main/java/com/example/android/sunshine/app/DetailFragment.java:149-178 | the query is the stored locator with DETAIL_COLUMNS, no selection and no sort order |
| DetailFragment.OnCreateLoaderGuarded | app/src/main/java/com/example/android/sunshine/app/DetailFragment.java:153-160 | with the commented-out guard restored, no loader is created iff the fragment has no locator, and otherwise the loader is the unguarded one |
| DetailFragment.ArgumentlessDetailQueriesNothing | app/src/main/java/com/example/android/sunshine/app/DetailFragment.java:89-92 | a fragment created without a DETAIL_URI argument builds, as written, a loader on no locator, and the guarded loader builds none |
| DetailFragment.OnLoadFinished | app/src/main/java/com/example/android/sunshine/app/DetailFragment.java:186-240 | nothing changes unless the data has a first row; then that row is shown, a forecast is stored, and the share intent is refreshed iff a provider already exists |
| DetailFragment.LoadedSummaryShowsRecord | app/src/main/java/com/example/android/sunshine/app/DetailFragment.java:197-233 | a loaded record's forecast is month-day " - " description " - " high "/" low (raw doubles), and its share text adds " #SunshineApp" |
| DetailFragment.ForecastSummary | app/src/main/java/com/example/android/sunshine/app/DetailFragment.java:233 | returns month-day " - " description " - " high "/" low with the doubles as "%s" shows them; its partner LoadedSummaryShowsRecord ties it to the loaded record (no ensures of its own) |
| DetailFragment.BuildDetailView | app/src/main/java/com/example/android/sunshine/app/DetailFragment.java:191-230 | returns the values the detail views show, read from the first row; its partner DetailViewShowsRecord ties each of them to the loaded record (no ensures of its own) |
| DetailFragment.DetailViewShowsRecord | app/src/main/java/com/example/android/sunshine/app/DetailFragment.java:191-230 | a loaded record's detail views show the art icon of its condition, its day name and month-day, its description, both temperatures under one unit flag, and its humidity, wind and pressure |
| DetailFragment.OnLoaderReset | app/src/main/java/com/example/android/sunshine/app/DetailFragment.java:242-245 | the state is unchanged and no effect is emitted |
| DetailFragment.ShareNeverStale | app/src/main/java/com/example/android/sunshine/app/DetailFragment.java:235-238 | after any sequence of callbacks, an existing provider holds the share intent of the current forecast |
| MainActivity.CreateWith | app/src/main/java/com/example/android/sunshine/app/MainActivity.java:45-82 | two-pane iff the detail container exists; a fragment is added only on a fresh two-pane start; the list is told to use the today layout iff one-pane |
| MainActivity.OnCreateAsWritten | app/src/main/java/com/example/android/sunshine/app/MainActivity.java:58-62 | as written, a fresh two-pane start leaves a forecast list in the detail container |
| MainActivity.AsWrittenDetailPaneHoldsList | app/src/main/java/com/example/android/sunshine/app/MainActivity.java:58-62 | as written, the detail container of a fresh two-pane start does not show a detail fragment |
| MainActivity.OnCreate | app/src/main/java/com/example/android/sunshine/app/MainActivity.java:45-82 | the mode and the remembered location are fixed at creation; a fresh two-pane start shows an empty detail fragment; useTodayLayout is set to !twoPane |
| MainActivity.OnResume | app/src/main/java/com/example/android/sunshine/app/MainActivity.java:91-103 | the list is notified iff the location is non-null, differs from the remembered one and the list exists; a changed location is remembered even without the list; the mode never changes |
| MainActivity.RepeatedResumesNotifyAtMostOnce | app/src/main/java/com/example/android/sunshine/app/MainActivity.java:96-102 | any number of resumes with the same location notify the list at most once, on the first resume and only if the location is new and the list exists; a new location is remembered from then on |
| MainActivity.OnItemSelected | app/src/main/java/com/example/android/sunshine/app/MainActivity.java:121-148 | two-pane replaces the detail container with a detail fragment carrying the locator under DETAIL_URI; one-pane starts the detail screen with the locator |
| MainActivity.SelectionsKeepDetailPane | app/src/main/java/com/example/android/sunshine/app/MainActivity.java:139-141 | in two-pane mode any sequence of selections leaves a detail fragment in the detail container, showing the last locator selected |
| MainActivity.DetailPaneAlwaysShowsDetail | app/src/main/java/com/example/android/sunshine/app/MainActivity.java:55-62 | from creation on, through any selections, the two-pane detail container shows only detail fragments |
| Wiring.DeliverToList | app/src/main/java/com/example/android/sunshine/app/MainActivity.java:77-99 | the activity's today-layout call updates the list's flag, and its location-change call makes the list sync and restart; nothing else reaches the list |
| Wiring.DetailOpenedBy | app/src/main/java/com/example/android/sunshine/app/DetailFragment.java:89-92 | a detail fragment is created exactly when the activity adds or replaces one in the detail container; it starts with no forecast and no share provider |
| Wiring.TwoPaneClickOpensRecordDetail | app/src/main/java/com/example/android/sunshine/app/MainActivity.java:131-141 | in two-pane mode a click on a record opens a detail pane whose locator, and whose loader's query, is that record's date at the preferred location |
| Wiring.FreshDetailPaneLoadsNothing | app/src/main/java/com/example/android/sunshine/app/MainActivity.java:58-62 | with the corrected start, the detail fragment the fresh two-pane start adds (as seen through DetailOpenedBy) has no locator: as written its loader queries none, and the guarded loader issues no query |
| Wiring.OnePaneClickNavigates | app/src/main/java/com/example/android/sunshine/app/MainActivity.java:142-147 | in one-pane mode the same click starts the detail screen with that locator |
| Wiring.NewLocationResyncsList | app/src/main/java/com/example/android/sunshine/app/MainActivity.java:94-99 | a resume with a new location makes the list request one sync and one loader restart |
| Wiring.TodayLayoutOnlyInOnePane | app/src/main/java/com/example/android/sunshine/app/MainActivity.java:77-79 | the list's row 0 is a today row iff the activity is one-pane, whether its view exists before or after the flag is set; other rows never are |

## Findings

| source | as written | input that shows it | evidently intended | confidence | as-written member | corrected member |
|---|---|---|---|---|---|---|
| app/src/main/java/com/example/android/sunshine/app/MainActivity.java:58-62 | a fresh two-pane start adds `new ForecastFragment()` to the detail container under the detail tag | a layout with the detail container and no saved state | add a `DetailFragment`, as the comment above it says; since that fragment has no arguments, the loader guard commented out at DetailFragment.java:153-160 is needed too, or it queries a null URI | medium; not executed | MainActivity.OnCreateAsWritten (counterexample: MainActivity.AsWrittenDetailPaneHoldsList) | MainActivity.OnCreate with DetailFragment.OnCreateLoaderGuarded (proved: MainActivity.DetailPaneAlwaysShowsDetail, Wiring.FreshDetailPaneLoadsNothing) |
| app/src/main/java/com/example/android/sunshine/app/ForecastFragment.java:141-147 | the map action ignores the result of `moveToPosition(0)` and reads the coordinates | a loaded cursor with no rows (for example before the first sync) and the map item chosen | open a map only when row 0 exists | medium; not executed | ForecastFragment.OpenPreferredLocationInMapAsWritten (counterexample: ForecastFragment.MapOnEmptyCursorFailsAsWritten) | ForecastFragment.OpenPreferredLocationInMap (proved: ForecastFragment.CheckedMapAgreesWhereWrittenSucceeds) |

## Left out

- Loader asynchrony, cancellation, delivery order and cursor closing. These belong to Android's
  `LoaderManager` and `CursorLoader`. The model takes each delivery as a callback argument.
- Resolving a clicked position to a cursor row (`getItemAtPosition`). This is list-view and
  cursor-adapter behaviour. The click takes its result (a row or none) as a parameter.
- Views, inflation, the `ViewHolder` and static view fields, menu inflation, and the action-bar
  elevation. These are UI wiring. Layouts, icons and bound texts appear only as values.
- Executing intents: the `resolveActivity` check and log in the map action, `startActivity`, and
  the share surface. Intents are modelled only as emitted effects.
- `MainActivity`'s settings menu and `onCreateOptionsMenu`, and `ForecastFragment`'s
  `onCreateOptionsMenu`. These are UI navigation.
- `Utility`, `WeatherContract` and `SunshineSyncAdapter` are not part of this model. Formatting
  is a `Formatter` parameter, locators are symbolic, and sync is an effect.
- Floating point. Temperatures and other measurements are `real` values that are only passed to
  formatter functions. The `getFloat` narrowing of humidity, wind and pressure is not modelled.
- `System.currentTimeMillis()` in the list query. It is the `nowMillis` parameter of
  `OnCreateLoader`.
- Java's 32-bit `int` for list positions. Positions are unbounded integers; the code does no
  arithmetic on them.
- `MainActivity.onCreate` looks up the list fragment declared in the layout. The model assumes it
  is present.
- ForecastAdapter.Render: renders every row of the cursor, whereas the list view binds only the
  visible rows. The per-row results are the same.
- ForecastFragment.OnOptionsItemSelected: takes the default handling of other items to return
  false, which is the base fragment's behaviour and is not visible in this code.
- MainActivity.DetailPaneAlwaysShowsDetail: on a restart it assumes that the restored detail
  pane is one this activity placed there.
- DetailFragment.OnCreateLoader: builds, as written, a query on no locator for a fragment without
  one. What the framework does with that null URI (it fails there) is not modelled; the corrected
  two-pane start is stated against `OnCreateLoaderGuarded` instead.
- SQL NULL cells. `Store.Value` has no null, so a null column (where `getString` returns null and
  `getLong`/`getDouble` return 0) is not modelled; every record has all its fields.
- Logging. The `Log` calls (DetailFragment.java:130, 151, 188, 193 and ForecastFragment.java:309)
  have no effect on state and are dropped.
