/** How the screens are wired together: the activity calls straight into the
    list fragment of its layout, the list's selection goes to the activity,
    and a detail fragment the activity creates reads its locator from the
    arguments it was given. */
module Wiring {
  import opened Common
  import opened Store
  import opened ForecastColumns
  import ForecastAdapter
  import ForecastFragment
  import DetailFragment
  import MainActivity

  /** The list fragment's side of an activity effect: the calls the activity
      makes on it, and nothing for every other effect. */
  function DeliverToList(f: ForecastFragment.State, e: MainActivity.Effect): (r: ForecastFragment.Step)
    ensures e.SetListUseTodayLayout? ==> r.state == ForecastFragment.SetUseTodayLayout(f, e.flag) && r.effects == []
    ensures e.NotifyLocationChanged? ==> r.state == f
    ensures e.NotifyLocationChanged? ==>
      r.effects == [ForecastFragment.SyncImmediately, ForecastFragment.RestartLoader(ForecastFragment.FORECAST_LOADER)]
    ensures !e.SetListUseTodayLayout? && !e.NotifyLocationChanged? ==> r == ForecastFragment.Step(f, [])
  {
    match e
    case SetListUseTodayLayout(flag) => ForecastFragment.Step(ForecastFragment.SetUseTodayLayout(f, flag), [])
    case NotifyLocationChanged => ForecastFragment.OnLocationChanged(f)
    case _ => ForecastFragment.Step(f, [])
  }

  /** The state of the detail fragment a two-pane selection creates, once
      its view exists. */
  function DetailOpenedBy(e: MainActivity.Effect): (d: Option<DetailFragment.State>)
    ensures d.Some? <==>
      (e.AddToDetailContainer? || e.ReplaceDetailContainer?) && e.fragment.DetailFragmentWith?
    ensures d.Some? ==> d.value.forecast.None? && !d.value.hasShareProvider
  {
    if (e.AddToDetailContainer? || e.ReplaceDetailContainer?) && e.fragment.DetailFragmentWith?
    then Some(DetailFragment.OnCreateView(DetailFragment.Initial(), e.fragment.arguments))
    else None
  }

  /** In two-pane mode, clicking the row of a record opens, in the detail
      pane, a detail fragment whose locator is that record's date at the
      preferred location; its loader then queries exactly that locator. */
  lemma TwoPaneClickOpensRecordDetail(a: MainActivity.State, f: ForecastFragment.State, position: int, rec: WeatherRecord, preferredLocation: string)
    requires a.twoPane
    ensures IsForecastRow(Project(rec, FORECAST_COLUMNS))
    ensures var click := ForecastFragment.OnItemClick(f, position, Some(Project(rec, FORECAST_COLUMNS)), preferredLocation);
      var selected := MainActivity.OnItemSelected(a, click.effects[0].locator);
      var detail := DetailOpenedBy(selected[0]);
      && click.state.position == position
      && detail.Some?
      && detail.value.uri == Some(WeatherLocationWithDate(preferredLocation, rec.date))
      && DetailFragment.OnCreateLoader(detail.value).uri == Some(WeatherLocationWithDate(preferredLocation, rec.date))
      && DetailFragment.OnCreateLoaderGuarded(detail.value) == Some(DetailFragment.OnCreateLoader(detail.value))
  {
    ForecastFragment.ClickSelectsRecordDate(f, position, rec, preferredLocation);
  }

  /** The detail fragment a fresh two-pane start places has no arguments, so
      it has no locator. Its loader, as the source builds it, queries no
      locator at all; the guarded loader issues no query until a selection
      replaces the fragment. */
  lemma FreshDetailPaneLoadsNothing(preferredLocation: Option<string>)
    ensures var created := MainActivity.OnCreate(preferredLocation, true, false);
      && MainActivity.DetailPane(None, created.effects) == Some(MainActivity.DetailFragmentWith(None))
      && (exists e :: e in created.effects && DetailOpenedBy(e).Some?)
      && forall e :: e in created.effects && DetailOpenedBy(e).Some? ==>
        && DetailOpenedBy(e).value.uri.None?
        && DetailFragment.OnCreateLoader(DetailOpenedBy(e).value).uri.None?
        && DetailFragment.OnCreateLoaderGuarded(DetailOpenedBy(e).value).None?
  {
    var created := MainActivity.OnCreate(preferredLocation, true, false);
    var added := MainActivity.AddToDetailContainer(MainActivity.DetailFragmentWith(None), MainActivity.DETAILFRAGMENT_TAG);
    assert added in created.effects;
    assert DetailOpenedBy(added).Some?;
    DetailFragment.ArgumentlessDetailQueriesNothing(None);
  }

  /** In one-pane mode the same click starts the detail screen with that
      locator instead. */
  lemma OnePaneClickNavigates(a: MainActivity.State, f: ForecastFragment.State, position: int, rec: WeatherRecord, preferredLocation: string)
    requires !a.twoPane
    ensures IsForecastRow(Project(rec, FORECAST_COLUMNS))
    ensures var click := ForecastFragment.OnItemClick(f, position, Some(Project(rec, FORECAST_COLUMNS)), preferredLocation);
      MainActivity.OnItemSelected(a, click.effects[0].locator) ==
        [MainActivity.StartDetailActivity(WeatherLocationWithDate(preferredLocation, rec.date))]
  {
    ForecastFragment.ClickSelectsRecordDate(f, position, rec, preferredLocation);
  }

  /** A resume that sees a new preferred location makes the list request a
      sync and restart its loader, exactly once. */
  lemma NewLocationResyncsList(a: MainActivity.State, f: ForecastFragment.State, location: string)
    requires a.location != Some(location)
    ensures var resumed := MainActivity.OnResume(a, Some(location), true);
      |resumed.effects| == 1 &&
      DeliverToList(f, resumed.effects[0]).effects ==
        [ForecastFragment.SyncImmediately, ForecastFragment.RestartLoader(ForecastFragment.FORECAST_LOADER)]
  {
  }

  /** The list's first row takes the today layout exactly in one-pane mode,
      whether the list's view existed before the activity set the flag or
      is created afterwards. */
  lemma TodayLayoutOnlyInOnePane(f: ForecastFragment.State, preferredLocation: Option<string>, hasDetailContainer: bool, restoring: bool, saved: Option<ForecastFragment.Bundle>)
    ensures var created := MainActivity.OnCreate(preferredLocation, hasDetailContainer, restoring);
      var listed := DeliverToList(f, MainActivity.SetListUseTodayLayout(!created.state.twoPane)).state;
      var adapter := if listed.adapter.Some? then listed.adapter.value else ForecastFragment.OnCreateView(listed, saved).adapter.value;
      && (ForecastAdapter.GetItemViewType(adapter, 0) == ForecastAdapter.VIEW_TYPE_TODAY <==> !hasDetailContainer)
      && forall p :: p != 0 ==> ForecastAdapter.GetItemViewType(adapter, p) == ForecastAdapter.VIEW_TYPE_FUTURE_DAY
  {
  }
}
