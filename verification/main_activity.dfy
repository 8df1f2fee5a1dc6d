/** The master/detail coordinator. Two-pane mode is decided once, at
    creation, by whether the layout has a detail container; the activity
    remembers the preferred location it last saw. A selection either
    replaces the detail pane or navigates to a detail screen, and a resume
    with a changed location notifies the list. */
module MainActivity {
  import opened Common
  import opened Store
  import DetailFragment

  const DETAILFRAGMENT_TAG: string := "DFTAG"

  /** A fragment the activity puts into the detail container. */
  datatype FragmentSpec =
    | ForecastListFragment
    | DetailFragmentWith(arguments: Option<DetailFragment.Arguments>)

  datatype Effect =
    | AddToDetailContainer(fragment: FragmentSpec, tag: string)
    | ReplaceDetailContainer(fragment: FragmentSpec, tag: string)
    | RemoveActionBarElevation
    | SetListUseTodayLayout(flag: bool)    // on the list fragment of the layout
    | InitializeSyncAdapter
    | NotifyLocationChanged                // the list fragment's onLocationChanged
    | StartDetailActivity(data: Locator)

  datatype State = State(location: Option<string>, twoPane: bool)

  datatype Step = Step(state: State, effects: seq<Effect>)

  /** `onCreate`, with the fragment placed into an empty detail container
      left open: two-pane exactly when the container exists; the fragment is
      added only on a fresh start (a restart gets its fragments back from
      the saved state); the list is told to use the today layout exactly in
      one-pane mode. */
  function CreateWith(paneFragment: FragmentSpec, preferredLocation: Option<string>, hasDetailContainer: bool, restoring: bool): (r: Step)
    ensures r.state.twoPane == hasDetailContainer
    ensures r.state.location == preferredLocation
    ensures SetListUseTodayLayout(!hasDetailContainer) in r.effects
    ensures forall e :: e in r.effects && e.SetListUseTodayLayout? ==> e.flag == !r.state.twoPane
    ensures (exists e :: e in r.effects && e.AddToDetailContainer?) <==> hasDetailContainer && !restoring
    ensures forall e :: e in r.effects && e.AddToDetailContainer? ==> e == AddToDetailContainer(paneFragment, DETAILFRAGMENT_TAG)
    ensures forall e :: e in r.effects ==> !e.ReplaceDetailContainer?
  {
    var pane :=
      if hasDetailContainer
      then (if restoring then [] else [AddToDetailContainer(paneFragment, DETAILFRAGMENT_TAG)])
      else [RemoveActionBarElevation];
    var effects := pane + [SetListUseTodayLayout(!hasDetailContainer), InitializeSyncAdapter];
    assert hasDetailContainer && !restoring ==> effects[0] == AddToDetailContainer(paneFragment, DETAILFRAGMENT_TAG);
    Step(State(preferredLocation, hasDetailContainer), effects)
  }

  /** `onCreate` as written: on a fresh two-pane start the detail container
      receives a forecast list. */
  function OnCreateAsWritten(preferredLocation: Option<string>, hasDetailContainer: bool, restoring: bool): (r: Step)
    ensures r.state == State(preferredLocation, hasDetailContainer)
    ensures forall e :: e in r.effects && e.AddToDetailContainer? ==> e.fragment == ForecastListFragment
    ensures hasDetailContainer && !restoring ==> DetailPane(None, r.effects) == Some(ForecastListFragment)
  {
    var r := CreateWith(ForecastListFragment, preferredLocation, hasDetailContainer, restoring);
    FreshTwoPaneStartShows(ForecastListFragment, preferredLocation, hasDetailContainer, restoring);
    r
  }

  /** `onCreate` with an empty detail fragment placed in the detail
      container, as the surrounding code intends: two-pane exactly when the
      container exists, and a fresh two-pane start shows a detail fragment
      without a locator. */
  function OnCreate(preferredLocation: Option<string>, hasDetailContainer: bool, restoring: bool): (r: Step)
    ensures r.state == State(preferredLocation, hasDetailContainer)
    ensures forall e :: e in r.effects && e.AddToDetailContainer? ==> e.fragment == DetailFragmentWith(None)
    ensures hasDetailContainer && !restoring ==> DetailPane(None, r.effects) == Some(DetailFragmentWith(None))
    ensures SetListUseTodayLayout(!hasDetailContainer) in r.effects
  {
    var r := CreateWith(DetailFragmentWith(None), preferredLocation, hasDetailContainer, restoring);
    FreshTwoPaneStartShows(DetailFragmentWith(None), preferredLocation, hasDetailContainer, restoring);
    r
  }

  /** On a fresh two-pane start the detail container shows the fragment
      creation placed there. */
  lemma FreshTwoPaneStartShows(paneFragment: FragmentSpec, preferredLocation: Option<string>, hasDetailContainer: bool, restoring: bool)
    ensures hasDetailContainer && !restoring ==>
      DetailPane(None, CreateWith(paneFragment, preferredLocation, hasDetailContainer, restoring).effects) == Some(paneFragment)
  {
    if hasDetailContainer && !restoring {
      var e := CreateWith(paneFragment, preferredLocation, hasDetailContainer, restoring).effects;
      assert e == [AddToDetailContainer(paneFragment, DETAILFRAGMENT_TAG),
                   SetListUseTodayLayout(false), InitializeSyncAdapter];
      DetailPaneIgnoresOtherEffects(Some(paneFragment), e[1..]);
    }
  }

  /** `onResume`: a non-null location that differs from the remembered one
      notifies the list fragment, if there is one, and becomes the
      remembered location even when there is not. The mode never changes. */
  function OnResume(s: State, location: Option<string>, listFragmentPresent: bool): (r: Step)
    ensures r.state.twoPane == s.twoPane
    ensures r.effects == [NotifyLocationChanged] <==>
      location.Some? && location != s.location && listFragmentPresent
    ensures r.effects != [NotifyLocationChanged] ==> r.effects == []
    ensures location.Some? ==> r.state.location == location
    ensures location.None? ==> r.state == s
  {
    if location.Some? && location != s.location then
      Step(s.(location := location), if listFragmentPresent then [NotifyLocationChanged] else [])
    else Step(s, [])
  }

  /** Resumes one after another, each seeing `location`; `present[i]` says
      whether the list fragment exists at the i-th. */
  function ResumeAll(s: State, location: Option<string>, present: seq<bool>): (r: Step)
    decreases |present|
  {
    if |present| == 0 then Step(s, [])
    else
      var first := OnResume(s, location, present[0]);
      var rest := ResumeAll(first.state, location, present[1..]);
      Step(rest.state, first.effects + rest.effects)
  }

  /** Resumes that see the location already remembered, or none, do nothing. */
  lemma {:induction false} SettledResumesDoNothing(s: State, location: Option<string>, present: seq<bool>)
    requires location.None? || location == s.location
    ensures ResumeAll(s, location, present) == Step(s, [])
    decreases |present|
  {
    if |present| > 0 {
      SettledResumesDoNothing(s, location, present[1..]);
    }
  }

  /** However many times the activity resumes with the same preferred
      location, the list is notified at most once: by the first resume, when
      the location is new and the list exists. A new location is remembered
      from the first resume on, with or without the list. */
  lemma {:induction false} RepeatedResumesNotifyAtMostOnce(s: State, location: Option<string>, present: seq<bool>)
    ensures var r := ResumeAll(s, location, present);
      && r.state.twoPane == s.twoPane
      && (r.effects == [NotifyLocationChanged] <==>
          location.Some? && location != s.location && |present| > 0 && present[0])
      && (r.effects != [NotifyLocationChanged] ==> r.effects == [])
      && (location.Some? && |present| > 0 ==> r.state.location == location)
  {
    if |present| > 0 {
      var first := OnResume(s, location, present[0]);
      SettledResumesDoNothing(first.state, location, present[1..]);
      assert first.effects + [] == first.effects;
    }
  }

  /** `onItemSelected`: in two-pane mode the detail container gets a new
      detail fragment whose arguments hold the locator; in one-pane mode the
      detail screen is started with the locator as its data. */
  function OnItemSelected(s: State, locator: Locator): (r: seq<Effect>)
    ensures |r| == 1
    ensures s.twoPane <==> r[0].ReplaceDetailContainer?
    ensures s.twoPane ==> r[0] == ReplaceDetailContainer(
      DetailFragmentWith(Some(map[DetailFragment.DETAIL_URI := locator])), DETAILFRAGMENT_TAG)
    ensures !s.twoPane ==> r[0] == StartDetailActivity(locator)
  {
    if s.twoPane then
      var args := map[DetailFragment.DETAIL_URI := locator];
      [ReplaceDetailContainer(DetailFragmentWith(Some(args)), DETAILFRAGMENT_TAG)]
    else [StartDetailActivity(locator)]
  }

  /** The effects of selecting each locator in turn. */
  function SelectAll(s: State, locators: seq<Locator>): (effects: seq<Effect>)
    decreases |locators|
  {
    if |locators| == 0 then [] else OnItemSelected(s, locators[0]) + SelectAll(s, locators[1..])
  }

  /** What the detail container shows after `effects`, starting from `pane`. */
  function DetailPane(pane: Option<FragmentSpec>, effects: seq<Effect>): (shown: Option<FragmentSpec>)
    decreases |effects|
  {
    if |effects| == 0 then pane
    else
      var next :=
        match effects[0]
        case AddToDetailContainer(f, _) => Some(f)
        case ReplaceDetailContainer(f, _) => Some(f)
        case _ => pane;
      DetailPane(next, effects[1..])
  }

  lemma {:induction false} DetailPaneAppend(pane: Option<FragmentSpec>, a: seq<Effect>, b: seq<Effect>)
    ensures DetailPane(pane, a + b) == DetailPane(DetailPane(pane, a), b)
    decreases |a|
  {
    if |a| == 0 {
      assert a + b == b;
    } else {
      assert (a + b)[0] == a[0];
      assert (a + b)[1..] == a[1..] + b;
      var next :=
        match a[0]
        case AddToDetailContainer(f, _) => Some(f)
        case ReplaceDetailContainer(f, _) => Some(f)
        case _ => pane;
      DetailPaneAppend(next, a[1..], b);
    }
  }

  /** Effects other than adding and replacing leave the container alone. */
  lemma {:induction false} DetailPaneIgnoresOtherEffects(pane: Option<FragmentSpec>, effects: seq<Effect>)
    requires forall i :: 0 <= i < |effects| ==>
      !effects[i].AddToDetailContainer? && !effects[i].ReplaceDetailContainer?
    ensures DetailPane(pane, effects) == pane
    decreases |effects|
  {
    if |effects| > 0 {
      DetailPaneIgnoresOtherEffects(pane, effects[1..]);
    }
  }

  /** The detail container is empty or holds a detail fragment. */
  predicate ShowsDetail(pane: Option<FragmentSpec>)
  {
    pane.None? || pane.value.DetailFragmentWith?
  }

  /** In two-pane mode, a pane showing a detail fragment keeps showing one
      across any selections, and after at least one it shows the detail of
      the last locator selected. */
  lemma {:induction false} SelectionsKeepDetailPane(s: State, pane: Option<FragmentSpec>, locators: seq<Locator>)
    requires s.twoPane
    requires ShowsDetail(pane)
    ensures ShowsDetail(DetailPane(pane, SelectAll(s, locators)))
    ensures |locators| > 0 ==> (DetailPane(pane, SelectAll(s, locators)) ==
      Some(DetailFragmentWith(Some(map[DetailFragment.DETAIL_URI := locators[|locators| - 1]]))))
    decreases |locators|
  {
    if |locators| > 0 {
      var first := OnItemSelected(s, locators[0]);
      DetailPaneAppend(pane, first, SelectAll(s, locators[1..]));
      assert first[1..] == [];
      var next := DetailPane(pane, first);
      assert next == Some(DetailFragmentWith(Some(map[DetailFragment.DETAIL_URI := locators[0]])));
      SelectionsKeepDetailPane(s, next, locators[1..]);
      if |locators| > 1 {
        assert locators[1..][|locators[1..]| - 1] == locators[|locators| - 1];
      }
    }
  }

  /** As written, a fresh two-pane start puts a forecast list, not a detail
      fragment, into the detail container. */
  lemma AsWrittenDetailPaneHoldsList(preferredLocation: Option<string>)
    ensures !ShowsDetail(DetailPane(None, OnCreateAsWritten(preferredLocation, true, false).effects))
  {
  }

  /** With a detail fragment placed at creation, the detail container of a
      two-pane activity shows a detail fragment from creation on, through
      any number of selections. On a restart the restored pane is assumed to
      be one this activity put there. */
  lemma {:induction false} DetailPaneAlwaysShowsDetail(preferredLocation: Option<string>, restoring: bool, restored: Option<FragmentSpec>, locators: seq<Locator>)
    requires restoring ==> ShowsDetail(restored)
    ensures var created := OnCreate(preferredLocation, true, restoring);
      var pane := DetailPane(if restoring then restored else None, created.effects);
      ShowsDetail(pane) && ShowsDetail(DetailPane(pane, SelectAll(created.state, locators)))
  {
    var created := OnCreate(preferredLocation, true, restoring);
    var start := if restoring then restored else None;
    var e := created.effects;
    if restoring {
      assert e == [SetListUseTodayLayout(false), InitializeSyncAdapter];
      DetailPaneIgnoresOtherEffects(start, e);
    }
    SelectionsKeepDetailPane(created.state, DetailPane(start, e), locators);
  }
}
