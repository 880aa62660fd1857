/// The dashboard controller: the state the terminal UI renders and the
/// operations the key router and the run loop invoke on it.
module Controller {
  import opened Base
  import opened Models
  import opened UiTypes
  import opened Actions
  import opened Sort
  import opened Filter
  import opened DetailsPopup
  import opened AppLogic
  import Stats

  /// What the background fetch delivers: the rate table and the cluster
  /// health, or the first error.
  type FetchResult = Result<(seq<IndexRate>, ClusterHealth), string>

  const FETCH_DISCONNECTED: string := "Fetch task disconnected"
  const SELECT_PAGE_SIZE: nat := 20
  const DETAILS_PAGE_SIZE: nat := 10

  /// The duration of the fetch that just completed, if its start was recorded.
  function FetchDuration(fetchStart: Option<nat>, previous: Option<nat>, now: nat): Option<nat> {
    match fetchStart
    case None => previous
    case Some(start) => Some(Stats.Elapsed(start, now))
  }

  /// Replacing element `i` extends the prefix before it by the new value and
  /// leaves the suffix after it alone.
  lemma UpdatePrefix(s: seq<IndexRate>, i: nat, v: IndexRate)
    requires i < |s|
    ensures s[i := v][..i + 1] == s[..i] + [v]
    ensures s[i := v][i + 1..] == s[i + 1..]
  {
  }

  /// Two tables with the same rows in any order name the same indices.
  lemma NamesOfPermutation(a: seq<IndexRate>, b: seq<IndexRate>)
    requires multiset(a) == multiset(b)
    ensures Stats.Names(a) == Stats.Names(b)
  {
    forall n | n in Stats.Names(a) ensures n in Stats.Names(b) {
      var k :| 0 <= k < |a| && a[k].name == n;
      assert a[k] in multiset(b);
      var j :| 0 <= j < |b| && b[j] == a[k];
    }
    forall n | n in Stats.Names(b) ensures n in Stats.Names(a) {
      var k :| 0 <= k < |b| && b[k].name == n;
      assert b[k] in multiset(a);
      var j :| 0 <= j < |a| && a[j] == b[k];
    }
  }

  class App {
    var indices: seq<IndexRate>
    var running: bool
    var error: Option<string>
    var loading: bool
    var spinnerFrame: nat
    /// The refresh interval in whole seconds.
    var refreshSecs: nat
    var lastRefresh: Option<nat>
    var rateHistory: seq<real>
    var fetchStart: Option<nat>
    var lastFetchDuration: Option<nat>
    var showGraph: bool
    var showHealth: bool
    var showIndices: bool
    var showSystemIndices: bool
    var paused: bool
    var selectedIndex: Option<nat>
    var excludedIndices: set<string>
    var showHelpPopup: bool
    var helpScroll: nat
    var colormap: Colormap
    const rateSamples: nat
    var clusterHealth: ClusterHealth
    const sort: SortState
    const filter: FilterState
    const details: DetailsState
    var indexRateHistory: map<string, seq<real>>

    /// At least one sample per window, every window and the cluster
    /// history within their bounds, the spinner on a frame, and the filter
    /// consistent.
    ghost predicate Valid()
      reads this, filter
    {
      && rateSamples >= 1
      && |rateHistory| <= MAX_HISTORY_POINTS
      && spinnerFrame < |SPINNER_FRAMES|
      && WindowsBounded(indexRateHistory, rateSamples)
      && filter.Valid()
    }

    /// None of the user-controlled fields changed.
    twostate predicate UserUnchanged()
      reads this
    {
      unchanged(this`running, this`refreshSecs, this`showGraph, this`showHealth, this`showIndices,
                this`showSystemIndices, this`paused, this`selectedIndex, this`excludedIndices,
                this`showHelpPopup, this`helpScroll, this`colormap)
    }

    /// None of the fields fed by the background fetch changed.
    twostate predicate FeedUnchanged()
      reads this
    {
      unchanged(this`indices, this`error, this`loading, this`spinnerFrame, this`lastRefresh, this`rateHistory, this`fetchStart, this`lastFetchDuration, this`clusterHealth, this`indexRateHistory)
    }

    /// `App::new` without the client and the channel. The interval is
    /// taken as given; the sample count is raised to at least one.
    constructor (refresh: nat, map_: Colormap, samples: nat)
      ensures Valid()
      ensures fresh(sort) && fresh(filter) && fresh(details)
      ensures rateSamples == if samples >= 1 then samples else 1
      ensures indices == [] && error == None && !loading && spinnerFrame == 0 && lastRefresh == None
      ensures rateHistory == [] && fetchStart == None && lastFetchDuration == None
      ensures clusterHealth == DEFAULT_CLUSTER_HEALTH && indexRateHistory == map[]
      ensures running && refreshSecs == refresh && showGraph && showHealth && showIndices
      ensures !showSystemIndices && !paused && selectedIndex == None && excludedIndices == {}
      ensures !showHelpPopup && helpScroll == 0 && colormap == map_
      ensures sort.column == DEFAULT_SORT_COLUMN && sort.order == DEFAULT_SORT_ORDER
      ensures !filter.active && filter.input == "" && filter.compiled == None && filter.error == None
      ensures !details.showPopup && details.data == None && !details.loading && details.error == None
      ensures details.scroll == 0
    {
      indices := [];
      running := true;
      error := None;
      loading := false;
      spinnerFrame := 0;
      refreshSecs := refresh;
      lastRefresh := None;
      rateHistory := [];
      fetchStart := None;
      lastFetchDuration := None;
      showGraph := true;
      showHealth := true;
      showIndices := true;
      showSystemIndices := false;
      paused := false;
      selectedIndex := None;
      excludedIndices := {};
      showHelpPopup := false;
      helpScroll := 0;
      colormap := map_;
      rateSamples := if samples >= 1 then samples else 1;
      clusterHealth := DEFAULT_CLUSTER_HEALTH;
      sort := new SortState();
      filter := new FilterState();
      details := new DetailsState();
      indexRateHistory := map[];
    }

    // -------------------------------------------------------------------
    // Derived view

    /// `filtered_indices`.
    function FilteredIndices(): seq<IndexRate>
      reads this, filter
    {
      View(indices, excludedIndices, showSystemIndices, filter.compiled)
    }

    /// `total_cluster_rate`.
    function TotalClusterRate(): real
      reads this, filter
    {
      TotalRate(indices, excludedIndices, showSystemIndices, filter.compiled)
    }

    // -------------------------------------------------------------------
    // Spinner and refresh timing

    method TickSpinner()
      requires spinnerFrame < |SPINNER_FRAMES|
      modifies this
      ensures spinnerFrame < |SPINNER_FRAMES|
      ensures spinnerFrame == if old(loading) then (old(spinnerFrame) + 1) % |SPINNER_FRAMES| else old(spinnerFrame)
      ensures unchanged(this`indices, this`error, this`loading, this`lastRefresh, this`rateHistory, this`fetchStart, this`lastFetchDuration, this`clusterHealth, this`indexRateHistory)
      ensures UserUnchanged()
    {
      if loading {
        spinnerFrame := (spinnerFrame + 1) % |SPINNER_FRAMES|;
      }
    }

    /// A spinner frame while loading, a check mark when idle.
    function SpinnerChar(): (c: char)
      requires spinnerFrame < |SPINNER_FRAMES|
      reads this
      ensures loading ==> c in SPINNER_FRAMES && c != IDLE_MARK
      ensures !loading ==> c == IDLE_MARK
    {
      if loading then SPINNER_FRAMES[spinnerFrame] else IDLE_MARK
    }

    function ShouldRefreshNow(now: nat): bool
      reads this
    {
      AppLogic.ShouldRefresh(paused, lastRefresh, refreshSecs, now)
    }

    method IncreaseRefreshRate()
      modifies this
      ensures refreshSecs == IncreaseRefresh(old(refreshSecs))
      ensures unchanged(this`running, this`showGraph, this`showHealth, this`showIndices, this`showSystemIndices, this`paused, this`selectedIndex, this`excludedIndices, this`showHelpPopup, this`helpScroll, this`colormap)
      ensures FeedUnchanged()
      ensures ActionEffect(Action.IncreaseRefreshRate, None)
    {
      refreshSecs := IncreaseRefresh(refreshSecs);
    }

    method DecreaseRefreshRate()
      modifies this
      ensures refreshSecs == DecreaseRefresh(old(refreshSecs))
      ensures unchanged(this`running, this`showGraph, this`showHealth, this`showIndices, this`showSystemIndices, this`paused, this`selectedIndex, this`excludedIndices, this`showHelpPopup, this`helpScroll, this`colormap)
      ensures FeedUnchanged()
      ensures ActionEffect(Action.DecreaseRefreshRate, None)
    {
      refreshSecs := DecreaseRefresh(refreshSecs);
    }

    // -------------------------------------------------------------------
    // The background fetch

    /// Admission of a fetch: nothing while one is in flight, otherwise the
    /// loading flag and the start time. The request itself runs elsewhere.
    method StartFetch(now: nat)
      modifies this
      ensures loading
      ensures fetchStart == if old(loading) then old(fetchStart) else Some(now)
      ensures unchanged(this`indices, this`error, this`spinnerFrame, this`lastRefresh, this`rateHistory, this`lastFetchDuration, this`clusterHealth, this`indexRateHistory)
      ensures UserUnchanged()
    {
      if loading {
        return;
      }
      loading := true;
      fetchStart := Some(now);
    }

    /// `update_indices_with_rates`: pushes each row's raw rate into its
    /// window and replaces the rate by the window mean, row by row.
    method UpdateIndicesWithRates(a: array<IndexRate>)
      requires rateSamples >= 1
      modifies this, a
      ensures (indexRateHistory, a[..]) == Smooth(old(indexRateHistory), rateSamples, old(a[..]))
      ensures unchanged(this`indices, this`error, this`loading, this`spinnerFrame, this`lastRefresh, this`rateHistory, this`fetchStart, this`lastFetchDuration, this`clusterHealth)
      ensures UserUnchanged()
    {
      ghost var s, h0 := a[..], indexRateHistory;
      var i := 0;
      while i < a.Length
        invariant i <= a.Length
        invariant SmoothedUpTo(a, s, h0, i)
        invariant unchanged(this`indices, this`error, this`loading, this`spinnerFrame, this`lastRefresh, this`rateHistory, this`fetchStart, this`lastFetchDuration, this`clusterHealth)
        invariant UserUnchanged()
      {
        SmoothNext(a, i, s, h0);
        i := i + 1;
      }
      assert s[..a.Length] == s && a[..a.Length] == a[..];
    }

    /// The first `i` rows of `a` and the windows are `s`'s first `i` rows
    /// smoothed from `h0`; the other rows are still `s`'s.
    ghost predicate SmoothedUpTo(a: array<IndexRate>, s: seq<IndexRate>, h0: map<string, seq<real>>, i: nat)
      reads this, a
    {
      && rateSamples >= 1
      && i <= a.Length == |s|
      && (indexRateHistory, a[..i]) == Smooth(h0, rateSamples, s[..i])
      && a[i..] == s[i..]
    }

    /// One iteration of the loop above.
    method SmoothNext(a: array<IndexRate>, i: nat, ghost s: seq<IndexRate>, ghost h0: map<string, seq<real>>)
      requires i < a.Length && SmoothedUpTo(a, s, h0, i)
      modifies this, a
      ensures SmoothedUpTo(a, s, h0, i + 1)
      ensures unchanged(this`indices, this`error, this`loading, this`spinnerFrame, this`lastRefresh, this`rateHistory, this`fetchStart, this`lastFetchDuration, this`clusterHealth)
      ensures UserUnchanged()
    {
      ghost var before := a[..];
      SmoothStep(h0, rateSamples, s, i, indexRateHistory, a[..i]);
      assert a[i] == s[i];
      SmoothAt(a, i);
      UpdatePrefix(before, i, a[i]);
    }

    /// Smooths row `i` of `a` against the windows.
    method SmoothAt(a: array<IndexRate>, i: nat)
      requires rateSamples >= 1 && i < a.Length
      modifies this, a
      ensures indexRateHistory == SmoothRow(old(indexRateHistory), rateSamples, old(a[i])).0
      ensures a[..] == old(a[..])[i := SmoothRow(old(indexRateHistory), rateSamples, old(a[i])).1]
      ensures unchanged(this`indices, this`error, this`loading, this`spinnerFrame, this`lastRefresh, this`rateHistory, this`fetchStart, this`lastFetchDuration, this`clusterHealth)
      ensures UserUnchanged()
    {
      var x := a[i];
      var w := PushWindow(WindowOf(indexRateHistory, x.name), x.ratePerSec, rateSamples);
      indexRateHistory := indexRateHistory[x.name := w];
      a[i] := x.(ratePerSec := Mean(w));
    }



    /// Moves the sort to the next column and re-sorts the table.
    method NextColumn()
      modifies this, sort
      ensures sort.column == UiTypes.NextColumn(old(sort.column)) && sort.order == old(sort.order)
      ensures indices == SortedBy(sort.column, sort.order, old(indices))
      ensures unchanged(this`error, this`loading, this`spinnerFrame, this`lastRefresh, this`rateHistory, this`fetchStart, this`lastFetchDuration, this`clusterHealth, this`indexRateHistory)
      ensures UserUnchanged()
      ensures ActionEffect(Action.NextColumn, None)
    {
      sort.NextColumn();
      Resort();
    }

    /// Moves the sort to the previous column and re-sorts the table.
    method PrevColumn()
      modifies this, sort
      ensures sort.column == UiTypes.PrevColumn(old(sort.column)) && sort.order == old(sort.order)
      ensures indices == SortedBy(sort.column, sort.order, old(indices))
      ensures unchanged(this`error, this`loading, this`spinnerFrame, this`lastRefresh, this`rateHistory, this`fetchStart, this`lastFetchDuration, this`clusterHealth, this`indexRateHistory)
      ensures UserUnchanged()
      ensures ActionEffect(Action.PrevColumn, None)
    {
      sort.PrevColumn();
      Resort();
    }

    /// Flips the sort direction and re-sorts the table.
    method ToggleSortOrder()
      modifies this, sort
      ensures sort.order == UiTypes.ToggleOrder(old(sort.order)) && sort.column == old(sort.column)
      ensures indices == SortedBy(sort.column, sort.order, old(indices))
      ensures unchanged(this`error, this`loading, this`spinnerFrame, this`lastRefresh, this`rateHistory, this`fetchStart, this`lastFetchDuration, this`clusterHealth, this`indexRateHistory)
      ensures UserUnchanged()
      ensures ActionEffect(Action.ToggleSortOrder, None)
    {
      sort.ToggleOrder();
      Resort();
    }

    /// Sorts the table under the current setting.
    method Resort()
      modifies this
      ensures indices == SortedBy(sort.column, sort.order, old(indices))
      ensures unchanged(this`error, this`loading, this`spinnerFrame, this`lastRefresh, this`rateHistory, this`fetchStart, this`lastFetchDuration, this`clusterHealth, this`indexRateHistory)
      ensures UserUnchanged()
    {
      var a := new IndexRate[|indices|](k requires 0 <= k < |indices| reads this => indices[k]);
      assert a[..] == indices;
      sort.Sort(a);
      indices := a[..];
    }

    /// `poll_fetch_result`: drains the one-slot mailbox once.
    method PollFetchResult(mailbox: Mailbox<FetchResult>, now: nat)
      requires Valid()
      modifies this
      ensures Valid()
      ensures UserUnchanged()
      ensures mailbox.Empty? ==> FeedUnchanged()
      ensures mailbox.Disconnected? ==>
        && !loading && error == Some(FETCH_DISCONNECTED)
        && unchanged(this`indices, this`spinnerFrame, this`lastRefresh, this`rateHistory, this`fetchStart, this`lastFetchDuration, this`clusterHealth, this`indexRateHistory)
      ensures mailbox.Delivered? ==>
        && !loading && lastRefresh == Some(now) && fetchStart == None
        && lastFetchDuration == FetchDuration(old(fetchStart), old(lastFetchDuration), now)
      ensures mailbox.Delivered? && mailbox.content.Err? ==>
        && error == Some(mailbox.content.error)
        && unchanged(this`indices, this`spinnerFrame, this`rateHistory, this`clusterHealth, this`indexRateHistory)
      ensures mailbox.Delivered? && mailbox.content.Ok? ==>
        var rows := mailbox.content.value.0;
        var smoothed := Smooth(old(indexRateHistory), rateSamples, rows);
        && indices == SortedBy(sort.column, sort.order, smoothed.1)
        && indexRateHistory == Prune(smoothed.0, Stats.Names(indices))
        && indexRateHistory.Keys == Stats.Names(rows)
        && rateHistory == PushHistory(old(rateHistory), TotalClusterRate())
        && clusterHealth == mailbox.content.value.1
        && error == None && spinnerFrame == old(spinnerFrame)
    {
      match mailbox {
        case Empty =>
        case Disconnected =>
          loading := false;
          error := Some(FETCH_DISCONNECTED);
        case Delivered(result) =>
          EndFetch(now);
          match result {
            case Err(e) =>
              error := Some(e);
            case Ok(payload) =>
              ApplyFetched(payload.0, payload.1);
          }
      }
    }

    /// The bookkeeping of a delivered fetch, whatever its outcome.
    method EndFetch(now: nat)
      modifies this
      ensures !loading && lastRefresh == Some(now) && fetchStart == None
      ensures lastFetchDuration == FetchDuration(old(fetchStart), old(lastFetchDuration), now)
      ensures unchanged(this`indices, this`error, this`spinnerFrame, this`rateHistory, this`clusterHealth, this`indexRateHistory)
      ensures UserUnchanged()
    {
      loading, lastRefresh, lastFetchDuration, fetchStart :=
        false, Some(now), FetchDuration(fetchStart, lastFetchDuration, now), None;
    }

    /// A successful fetch: smooth the rates, sort, keep only the windows of
    /// indices still present, and record the cluster total.
    method ApplyFetched(rows: seq<IndexRate>, health: ClusterHealth)
      requires Valid()
      modifies this
      ensures Valid()
      ensures var smoothed := Smooth(old(indexRateHistory), rateSamples, rows);
        && indices == SortedBy(sort.column, sort.order, smoothed.1)
        && indexRateHistory == Prune(smoothed.0, Stats.Names(indices))
        && indexRateHistory.Keys == Stats.Names(rows)
        && rateHistory == PushHistory(old(rateHistory), TotalClusterRate())
      ensures clusterHealth == health && error == None
      ensures unchanged(this`loading, this`spinnerFrame, this`lastRefresh, this`fetchStart, this`lastFetchDuration)
      ensures UserUnchanged()
    {
      var sorted := SmoothAndSort(rows);
      indices := sorted;
      clusterHealth := health;
      error := None;
      PruneAndRecord();
    }

    /// Drops the windows of indices no longer in the table and appends the
    /// visible total to the cluster history.
    method PruneAndRecord()
      requires Valid()
      modifies this
      ensures Valid()
      ensures indexRateHistory == Prune(old(indexRateHistory), Stats.Names(indices))
      ensures rateHistory == PushHistory(old(rateHistory), TotalClusterRate())
      ensures unchanged(this`indices, this`error, this`loading, this`spinnerFrame, this`lastRefresh, this`fetchStart, this`lastFetchDuration, this`clusterHealth)
      ensures UserUnchanged()
    {
      indexRateHistory := Prune(indexRateHistory, Stats.Names(indices));
      var total := TotalClusterRate();
      rateHistory := PushHistory(rateHistory, total);
    }

    /// The rows smoothed against the windows, then sorted under the current
    /// setting; the windows gain the rows' names and stay bounded.
    method SmoothAndSort(rows: seq<IndexRate>) returns (sorted: seq<IndexRate>)
      requires rateSamples >= 1 && WindowsBounded(indexRateHistory, rateSamples)
      modifies this
      ensures var smoothed := Smooth(old(indexRateHistory), rateSamples, rows);
        && sorted == SortedBy(sort.column, sort.order, smoothed.1)
        && indexRateHistory == smoothed.0
      ensures Stats.Names(sorted) == Stats.Names(rows)
      ensures indexRateHistory.Keys == old(indexRateHistory).Keys + Stats.Names(rows)
      ensures WindowsBounded(indexRateHistory, rateSamples)
      ensures unchanged(this`indices, this`error, this`loading, this`spinnerFrame, this`lastRefresh, this`rateHistory, this`fetchStart, this`lastFetchDuration, this`clusterHealth)
      ensures UserUnchanged()
    {
      ghost var h0 := indexRateHistory;
      var a := new IndexRate[|rows|](k requires 0 <= k < |rows| => rows[k]);
      assert a[..] == rows;
      UpdateIndicesWithRates(a);
      ghost var smoothed := a[..];
      SmoothShape(h0, rateSamples, rows);
      SmoothNames(h0, rateSamples, rows);
      sort.Sort(a);
      sorted := a[..];
      SortedByIsPermutation(sort.column, sort.order, smoothed);
      NamesOfPermutation(sorted, smoothed);
    }

    // -------------------------------------------------------------------
    // Selection

    method MoveSelection(delta: int)
      modifies this
      ensures selectedIndex == AppLogic.MoveSelection(old(selectedIndex), delta, |FilteredIndices()|)
      ensures unchanged(this`running, this`refreshSecs, this`showGraph, this`showHealth, this`showIndices, this`showSystemIndices, this`paused, this`excludedIndices, this`showHelpPopup, this`helpScroll, this`colormap)
      ensures FeedUnchanged()
    {
      var count := |FilteredIndices()|;
      if count == 0 {
        selectedIndex := None;
        return;
      }
      var next :=
        match selectedIndex
        case Some(current) => Clamp(current + delta, 0, count - 1)
        case None => if delta > 0 then 0 else count - 1;
      selectedIndex := Some(next);
    }

    method SelectFirst()
      modifies this
      ensures selectedIndex == JumpFirst(old(selectedIndex), |FilteredIndices()|)
      ensures unchanged(this`running, this`refreshSecs, this`showGraph, this`showHealth, this`showIndices, this`showSystemIndices, this`paused, this`excludedIndices, this`showHelpPopup, this`helpScroll, this`colormap)
      ensures FeedUnchanged()
      ensures ActionEffect(Action.SelectFirst, None)
    {
      if |FilteredIndices()| > 0 {
        selectedIndex := Some(0);
      }
    }

    method SelectLast()
      modifies this
      ensures selectedIndex == JumpLast(old(selectedIndex), |FilteredIndices()|)
      ensures unchanged(this`running, this`refreshSecs, this`showGraph, this`showHealth, this`showIndices, this`showSystemIndices, this`paused, this`excludedIndices, this`showHelpPopup, this`helpScroll, this`colormap)
      ensures FeedUnchanged()
      ensures ActionEffect(Action.SelectLast, None)
    {
      var count := |FilteredIndices()|;
      if count > 0 {
        selectedIndex := Some(SatSub(count, 1));
      }
    }

    /// Flips the visibility of system indices and forgets the selection.
    method ToggleSystemIndices()
      modifies this
      ensures showSystemIndices == !old(showSystemIndices)
      ensures selectedIndex == None
      ensures unchanged(this`running, this`refreshSecs, this`showGraph, this`showHealth, this`showIndices, this`paused, this`excludedIndices, this`showHelpPopup, this`helpScroll, this`colormap)
      ensures FeedUnchanged()
      ensures ActionEffect(Action.ToggleSystemIndices, None)
    {
      showSystemIndices := !showSystemIndices;
      selectedIndex := None;
    }

    /// The effect of excluding the selected row: nothing when the selection
    /// does not point into the view; otherwise the row's index, which is
    /// never already excluded, joins the exclusions and the selection is
    /// re-clamped to the smaller view.
    twostate predicate ExcludeEffect()
      reads this, filter
    {
      var selected := old(selectedIndex);
      var view := old(FilteredIndices());
      if selected.Some? && selected.value < |view| then
        && view[selected.value].name !in old(excludedIndices)
        && excludedIndices == old(excludedIndices) + {view[selected.value].name}
        && selectedIndex == ReclampAfterExclude(selected.value, |FilteredIndices()|)
      else
        excludedIndices == old(excludedIndices) && selectedIndex == old(selectedIndex)
    }

    /// Excludes the selected row's index and re-clamps the selection. The
    /// selected row comes from the view, which holds no excluded index, so
    /// the branch that would remove the name again cannot be taken.
    method ToggleExcludeSelected()
      modifies this
      ensures ExcludeEffect()
      ensures unchanged(this`running, this`refreshSecs, this`showGraph, this`showHealth, this`showIndices, this`showSystemIndices, this`paused, this`showHelpPopup, this`helpScroll, this`colormap)
      ensures FeedUnchanged()
    {
      match selectedIndex {
        case None =>
        case Some(selected) =>
          var filtered := FilteredIndices();
          if selected < |filtered| {
            var name := filtered[selected].name;
            ViewMembership(indices, excludedIndices, showSystemIndices, filter.compiled, filtered[selected]);
            if name in excludedIndices {
              assert false;
            } else {
              excludedIndices := excludedIndices + {name};
              selectedIndex := ReclampAfterExclude(selected, |FilteredIndices()|);
            }
          }
      }
    }

    method ClearExclusions()
      modifies this
      ensures excludedIndices == {}
      ensures unchanged(this`running, this`refreshSecs, this`showGraph, this`showHealth, this`showIndices, this`showSystemIndices, this`paused, this`selectedIndex, this`showHelpPopup, this`helpScroll, this`colormap)
      ensures FeedUnchanged()
      ensures ActionEffect(Action.ClearExclusions, None)
    {
      excludedIndices := {};
    }

    // -------------------------------------------------------------------
    // Layout toggles, help and colours

    method Quit()
      modifies this
      ensures running == false
      ensures unchanged(this`refreshSecs, this`showGraph, this`showHealth, this`showIndices, this`showSystemIndices, this`paused, this`selectedIndex, this`excludedIndices, this`showHelpPopup, this`helpScroll, this`colormap)
      ensures FeedUnchanged()
      ensures ActionEffect(Action.Quit, None)
    {
      running := false;
    }

    method ToggleGraph()
      modifies this
      ensures showGraph == !old(showGraph)
      ensures unchanged(this`running, this`refreshSecs, this`showHealth, this`showIndices, this`showSystemIndices, this`paused, this`selectedIndex, this`excludedIndices, this`showHelpPopup, this`helpScroll, this`colormap)
      ensures FeedUnchanged()
      ensures ActionEffect(Action.ToggleGraph, None)
    {
      showGraph := !showGraph;
    }

    method ToggleHealth()
      modifies this
      ensures showHealth == !old(showHealth)
      ensures unchanged(this`running, this`refreshSecs, this`showGraph, this`showIndices, this`showSystemIndices, this`paused, this`selectedIndex, this`excludedIndices, this`showHelpPopup, this`helpScroll, this`colormap)
      ensures FeedUnchanged()
      ensures ActionEffect(Action.ToggleHealth, None)
    {
      showHealth := !showHealth;
    }

    method ToggleIndices()
      modifies this
      ensures showIndices == !old(showIndices)
      ensures unchanged(this`running, this`refreshSecs, this`showGraph, this`showHealth, this`showSystemIndices, this`paused, this`selectedIndex, this`excludedIndices, this`showHelpPopup, this`helpScroll, this`colormap)
      ensures FeedUnchanged()
      ensures ActionEffect(Action.ToggleIndices, None)
    {
      showIndices := !showIndices;
    }

    method TogglePause()
      modifies this
      ensures paused == !old(paused)
      ensures unchanged(this`running, this`refreshSecs, this`showGraph, this`showHealth, this`showIndices, this`showSystemIndices, this`selectedIndex, this`excludedIndices, this`showHelpPopup, this`helpScroll, this`colormap)
      ensures FeedUnchanged()
      ensures ActionEffect(Action.TogglePause, None)
    {
      paused := !paused;
    }

    /// Opening the help popup starts it at the top; closing keeps the offset.
    method ToggleHelpPopup()
      modifies this
      ensures showHelpPopup == !old(showHelpPopup)
      ensures helpScroll == if showHelpPopup then 0 else old(helpScroll)
      ensures unchanged(this`running, this`refreshSecs, this`showGraph, this`showHealth, this`showIndices, this`showSystemIndices, this`paused, this`selectedIndex, this`excludedIndices, this`colormap)
      ensures FeedUnchanged()
      ensures ActionEffect(Action.ToggleHelp, None)
    {
      showHelpPopup := !showHelpPopup;
      helpScroll := if showHelpPopup then 0 else helpScroll;
    }

    method HelpScrollUp()
      modifies this
      ensures helpScroll == SatSub(old(helpScroll), 1)
      ensures unchanged(this`running, this`refreshSecs, this`showGraph, this`showHealth, this`showIndices, this`showSystemIndices, this`paused, this`selectedIndex, this`excludedIndices, this`showHelpPopup, this`colormap)
      ensures FeedUnchanged()
      ensures ActionEffect(Action.HelpScrollUp, None)
    {
      helpScroll := SatSub(helpScroll, 1);
    }

    method HelpScrollDown()
      modifies this
      ensures helpScroll == SatAdd(old(helpScroll), 1)
      ensures unchanged(this`running, this`refreshSecs, this`showGraph, this`showHealth, this`showIndices, this`showSystemIndices, this`paused, this`selectedIndex, this`excludedIndices, this`showHelpPopup, this`colormap)
      ensures FeedUnchanged()
      ensures ActionEffect(Action.HelpScrollDown, None)
    {
      helpScroll := SatAdd(helpScroll, 1);
    }

    method NextColormap()
      modifies this
      ensures colormap == UiTypes.NextColormap(old(colormap))
      ensures unchanged(this`running, this`refreshSecs, this`showGraph, this`showHealth, this`showIndices, this`showSystemIndices, this`paused, this`selectedIndex, this`excludedIndices, this`showHelpPopup, this`helpScroll)
      ensures FeedUnchanged()
      ensures ActionEffect(Action.NextColormap, None)
    {
      colormap := UiTypes.NextColormap(colormap);
    }

    method PrevColormap()
      modifies this
      ensures colormap == UiTypes.PrevColormap(old(colormap))
      ensures unchanged(this`running, this`refreshSecs, this`showGraph, this`showHealth, this`showIndices, this`showSystemIndices, this`paused, this`selectedIndex, this`excludedIndices, this`showHelpPopup, this`helpScroll)
      ensures FeedUnchanged()
      ensures ActionEffect(Action.PrevColormap, None)
    {
      colormap := UiTypes.PrevColormap(colormap);
    }

    // -------------------------------------------------------------------
    // Filter delegation

    method EnterFilterMode()
      modifies filter
      ensures filter.active
      ensures unchanged(filter`input, filter`error, filter`compiled)
      ensures ActionEffect(Action.EnterFilterMode, None)
    {
      filter.Enter();
    }

    method ExitFilterMode()
      modifies filter
      ensures !filter.active
      ensures unchanged(filter`input, filter`error, filter`compiled)
      ensures ActionEffect(Action.ExitFilterMode, None)
    {
      filter.Exit();
    }

    method ClearFilter()
      modifies filter
      ensures filter.Valid()
      ensures !filter.active && filter.input == "" && filter.error == None && filter.compiled == None
      ensures ActionEffect(Action.ClearFilter, None)
    {
      filter.Clear();
    }

    // -------------------------------------------------------------------
    // Details

    /// Opens the details popup for the selected row of the view, if the
    /// selection points into the view; returns that row, which names the
    /// index whose details the background request fetches.
    method ShowIndexDetails() returns (request: Option<IndexRate>)
      modifies details
      ensures request.Some? <==> selectedIndex.Some? && selectedIndex.value < |FilteredIndices()|
      ensures request.Some? ==>
        && request.value == FilteredIndices()[selectedIndex.value]
        && details.showPopup && details.loading && details.data == None && details.error == None
        && details.scroll == 0
      ensures request.None? ==> unchanged(details)
      ensures ActionEffect(Action.ShowDetails, request)
    {
      request := None;
      match selectedIndex {
        case None =>
        case Some(selected) =>
          var filtered := FilteredIndices();
          if selected < |filtered| {
            request := Some(filtered[selected]);
            details.Fetch();
          }
      }
    }

    method CloseDetailsPopup()
      modifies details
      ensures !details.showPopup && !details.loading && details.scroll == 0
      ensures details.data == None && details.error == None
      ensures ActionEffect(Action.CloseDetails, None)
    {
      details.Close();
    }

    /// Drains the details mailbox; the popup flag and the offset stay.
    method PollDetailsResult(mailbox: Mailbox<DetailsResult>)
      modifies details
      ensures unchanged(details`showPopup, details`scroll)
      ensures mailbox.Empty? ==> unchanged(details`data, details`loading, details`error)
      ensures mailbox.Delivered? && mailbox.content.Ok? ==>
        !details.loading && details.data == Some(mailbox.content.value) && details.error == None
      ensures mailbox.Delivered? && mailbox.content.Err? ==>
        !details.loading && details.data == old(details.data) && details.error == Some(mailbox.content.error)
      ensures mailbox.Disconnected? ==>
        !details.loading && details.data == old(details.data) && details.error == Some(DETAILS_DISCONNECTED)
    {
      details.Poll(mailbox);
    }

    method DetailsScrollUp()
      modifies details
      ensures details.scroll == SatSub(old(details.scroll), 1)
      ensures unchanged(details`showPopup, details`data, details`loading, details`error)
      ensures ActionEffect(Action.DetailsScrollUp, None)
    {
      details.ScrollUp();
    }

    method DetailsScrollDown()
      modifies details
      ensures details.scroll == SatAdd(old(details.scroll), 1)
      ensures unchanged(details`showPopup, details`data, details`loading, details`error)
      ensures ActionEffect(Action.DetailsScrollDown, None)
    {
      details.ScrollDown();
    }

    method DetailsScrollPageUp(pageSize: nat)
      modifies details
      ensures details.scroll == SatSub(old(details.scroll), pageSize)
      ensures unchanged(details`showPopup, details`data, details`loading, details`error)
    {
      details.ScrollPageUp(pageSize);
    }

    method DetailsScrollPageDown(pageSize: nat)
      modifies details
      ensures details.scroll == SatAdd(old(details.scroll), pageSize)
      ensures unchanged(details`showPopup, details`data, details`loading, details`error)
    {
      details.ScrollPageDown(pageSize);
    }

    // -------------------------------------------------------------------
    // Dispatch

    /// The selection an action other than an exclusion leaves, given the
    /// selection and the number of rows in the view before it.
    static function SelectionAfter(action: Action, selected: Option<nat>, count: nat): Option<nat>
    {
      match action
      case SelectUp => AppLogic.MoveSelection(selected, -1, count)
      case SelectDown => AppLogic.MoveSelection(selected, 1, count)
      case SelectPageUp => AppLogic.MoveSelection(selected, -(SELECT_PAGE_SIZE as int), count)
      case SelectPageDown => AppLogic.MoveSelection(selected, SELECT_PAGE_SIZE as int, count)
      case SelectFirst => JumpFirst(selected, count)
      case SelectLast => JumpLast(selected, count)
      case ToggleSystemIndices => None
      case _ => selected
    }

    /// The effect of `handle_action` on the display settings, the help
    /// popup and the loop flag: each changes only under its own actions.
    twostate predicate SettingsEffect(action: Action)
      reads this
    {
      && running == (old(running) && !action.Quit?)
      && refreshSecs == (
           if action.IncreaseRefreshRate? then IncreaseRefresh(old(refreshSecs))
           else if action.DecreaseRefreshRate? then DecreaseRefresh(old(refreshSecs))
           else old(refreshSecs))
      && showGraph == (if action.ToggleGraph? then !old(showGraph) else old(showGraph))
      && showHealth == (if action.ToggleHealth? then !old(showHealth) else old(showHealth))
      && showIndices == (if action.ToggleIndices? then !old(showIndices) else old(showIndices))
      && paused == (if action.TogglePause? then !old(paused) else old(paused))
      && colormap == (
           if action.NextColormap? then UiTypes.NextColormap(old(colormap))
           else if action.PrevColormap? then UiTypes.PrevColormap(old(colormap))
           else old(colormap))
      && showHelpPopup == (if action.ToggleHelp? then !old(showHelpPopup) else old(showHelpPopup))
      && helpScroll == (
           if action.ToggleHelp? then (if showHelpPopup then 0 else old(helpScroll))
           else if action.HelpScrollUp? then SatSub(old(helpScroll), 1)
           else if action.HelpScrollDown? then SatAdd(old(helpScroll), 1)
           else old(helpScroll))
    }

    /// The effect on the selection, the exclusions and the system-index
    /// flag. Moves are one row or a page of 20, over the view before the
    /// action.
    twostate predicate SelectionEffect(action: Action)
      reads this, filter
    {
      var count := |old(FilteredIndices())|;
      && showSystemIndices == (if action.ToggleSystemIndices? then !old(showSystemIndices) else old(showSystemIndices))
      && if action.ToggleExclude? then ExcludeEffect()
         else
           && excludedIndices == (if action.ClearExclusions? then {} else old(excludedIndices))
           && selectedIndex == SelectionAfter(action, old(selectedIndex), count)
    }

    /// The effect on the table and the sort setting: the three sort actions
    /// change the setting and re-sort the rows under it; no action touches
    /// what the background fetch delivers.
    twostate predicate TableEffect(action: Action)
      reads this, sort
    {
      && sort.column == (
           if action.NextColumn? then UiTypes.NextColumn(old(sort.column))
           else if action.PrevColumn? then UiTypes.PrevColumn(old(sort.column))
           else old(sort.column))
      && sort.order == (if action.ToggleSortOrder? then UiTypes.ToggleOrder(old(sort.order)) else old(sort.order))
      && indices == (
           if action.NextColumn? || action.PrevColumn? || action.ToggleSortOrder? then SortedBy(sort.column, sort.order, old(indices))
           else old(indices))
      && unchanged(this`error, this`loading, this`spinnerFrame, this`lastRefresh, this`rateHistory, this`fetchStart, this`lastFetchDuration, this`clusterHealth, this`indexRateHistory)
    }

    /// The effect on the filter editor: entering and leaving only move the
    /// active flag, and clearing empties the text and the cached filter.
    twostate predicate FilterEffect(action: Action)
      reads filter
    {
      && filter.active == (
           if action.EnterFilterMode? then true
           else if action.ExitFilterMode? || action.ClearFilter? then false
           else old(filter.active))
      && (if action.ClearFilter? then filter.input == "" && filter.error == None && filter.compiled == None
          else unchanged(filter`input, filter`error, filter`compiled))
    }

    /// The effect on the details popup and the details request: a request
    /// exactly for `ShowDetails` with the selection inside the view, the
    /// popup opened for it, closed and reset by `CloseDetails`, scrolled by
    /// one line or a page of 10, and otherwise untouched.
    twostate predicate DetailsEffect(action: Action, new request: Option<IndexRate>)
      reads this, filter, details
    {
      var selected := old(selectedIndex);
      var view := old(FilteredIndices());
      && request == (if action.ShowDetails? && selected.Some? && selected.value < |view| then Some(view[selected.value]) else None)
      && match action
         case ShowDetails =>
           if request.Some? then
             details.showPopup && details.loading && details.data == None && details.error == None && details.scroll == 0
           else unchanged(details)
         case CloseDetails =>
           !details.showPopup && !details.loading && details.data == None && details.error == None && details.scroll == 0
         case DetailsScrollUp =>
           details.scroll == SatSub(old(details.scroll), 1) && unchanged(details`showPopup, details`data, details`loading, details`error)
         case DetailsScrollDown =>
           details.scroll == SatAdd(old(details.scroll), 1) && unchanged(details`showPopup, details`data, details`loading, details`error)
         case DetailsScrollPageUp =>
           details.scroll == SatSub(old(details.scroll), DETAILS_PAGE_SIZE) && unchanged(details`showPopup, details`data, details`loading, details`error)
         case DetailsScrollPageDown =>
           details.scroll == SatAdd(old(details.scroll), DETAILS_PAGE_SIZE) && unchanged(details`showPopup, details`data, details`loading, details`error)
         case _ => unchanged(details)
    }

    /// The whole effect of one action on the app.
    twostate predicate ActionEffect(action: Action, new request: Option<IndexRate>)
      reads this, sort, filter, details
    {
      && SettingsEffect(action)
      && SelectionEffect(action)
      && TableEffect(action)
      && FilterEffect(action)
      && DetailsEffect(action, request)
    }

    /// `handle_action`: every action has exactly the effect of the method
    /// it calls, with pages of 20 rows and 10 lines, and changes nothing
    /// else.
    method HandleAction(action: Action) returns (request: Option<IndexRate>)
      requires Valid()
      modifies this, sort, filter, details
      ensures Valid()
      ensures ActionEffect(action, request)
    {
      request := None;
      if IsSelectionAction(action) {
        HandleSelectionAction(action);
      } else if action.ToggleExclude? || action.ClearExclusions? {
        HandleExclusionAction(action);
      } else if IsDetailsAction(action) {
        request := HandleDetailsAction(action);
      } else if IsTableAction(action) {
        HandleTableAction(action);
      } else {
        HandleSettingsAction(action);
      }
    }

    /// The actions that move the selection.
    static predicate IsSelectionAction(action: Action)
    {
      || action.SelectUp? || action.SelectDown? || action.SelectPageUp? || action.SelectPageDown?
      || action.SelectFirst? || action.SelectLast? || action.ToggleSystemIndices?
    }

    /// The actions on the details popup.
    static predicate IsDetailsAction(action: Action)
    {
      || action.ShowDetails? || action.CloseDetails? || action.DetailsScrollUp?
      || action.DetailsScrollDown? || action.DetailsScrollPageUp? || action.DetailsScrollPageDown?
    }

    /// The actions on the sort order and the filter editor.
    static predicate IsTableAction(action: Action)
    {
      || action.NextColumn? || action.PrevColumn? || action.ToggleSortOrder?
      || action.EnterFilterMode? || action.ExitFilterMode? || action.ClearFilter?
    }

    method HandleSelectionAction(action: Action)
      requires Valid() && IsSelectionAction(action)
      modifies this
      ensures Valid()
      ensures ActionEffect(action, None)
    {
      match action {
        case SelectUp | SelectDown | SelectPageUp | SelectPageDown => MoveSelectionBy(action);
        case SelectFirst => SelectFirst();
        case SelectLast => SelectLast();
        case ToggleSystemIndices => ToggleSystemIndices();
      }
    }

    method HandleExclusionAction(action: Action)
      requires Valid() && (action.ToggleExclude? || action.ClearExclusions?)
      modifies this
      ensures Valid()
      ensures ActionEffect(action, None)
    {
      if action.ToggleExclude? {
        ToggleExcludeSelected();
      } else {
        ClearExclusions();
      }
    }

    method HandleDetailsAction(action: Action) returns (request: Option<IndexRate>)
      requires Valid() && IsDetailsAction(action)
      modifies details
      ensures Valid()
      ensures ActionEffect(action, request)
    {
      request := None;
      match action {
        case ShowDetails => request := ShowIndexDetails();
        case CloseDetails => CloseDetailsPopup();
        case DetailsScrollUp => DetailsScrollUp();
        case DetailsScrollDown => DetailsScrollDown();
        case DetailsScrollPageUp | DetailsScrollPageDown => ScrollDetailsPage(action);
      }
    }

    method HandleTableAction(action: Action)
      requires Valid() && IsTableAction(action)
      modifies this, sort, filter
      ensures Valid()
      ensures ActionEffect(action, None)
    {
      match action {
        case NextColumn => NextColumn();
        case PrevColumn => PrevColumn();
        case ToggleSortOrder => ToggleSortOrder();
        case EnterFilterMode => EnterFilterMode();
        case ExitFilterMode => ExitFilterMode();
        case ClearFilter => ClearFilter();
      }
    }

    /// The layout, help, pause, refresh and colour actions, and quitting.
    method HandleSettingsAction(action: Action)
      requires Valid()
      requires !IsSelectionAction(action) && !IsDetailsAction(action) && !IsTableAction(action)
      requires !action.ToggleExclude? && !action.ClearExclusions?
      modifies this
      ensures Valid()
      ensures ActionEffect(action, None)
    {
      match action {
        case Quit => Quit();
        case ToggleHelp => ToggleHelpPopup();
        case HelpScrollUp => HelpScrollUp();
        case HelpScrollDown => HelpScrollDown();
        case TogglePause => TogglePause();
        case ToggleGraph => ToggleGraph();
        case ToggleHealth => ToggleHealth();
        case ToggleIndices => ToggleIndices();
        case IncreaseRefreshRate => IncreaseRefreshRate();
        case DecreaseRefreshRate => DecreaseRefreshRate();
        case NextColormap => NextColormap();
        case PrevColormap => PrevColormap();
      }
    }

    /// The four selection moves: one row or a page of 20, up or down.
    method MoveSelectionBy(action: Action)
      requires action.SelectUp? || action.SelectDown? || action.SelectPageUp? || action.SelectPageDown?
      modifies this
      ensures ActionEffect(action, None)
    {
      var delta :=
        match action
        case SelectUp => -1
        case SelectDown => 1
        case SelectPageUp => -(SELECT_PAGE_SIZE as int)
        case _ => SELECT_PAGE_SIZE as int;
      MoveSelection(delta);
    }

    /// The two page scrolls of the details popup, 10 lines each.
    method ScrollDetailsPage(action: Action)
      requires action.DetailsScrollPageUp? || action.DetailsScrollPageDown?
      modifies details
      ensures ActionEffect(action, None)
    {
      if action.DetailsScrollPageUp? {
        DetailsScrollPageUp(DETAILS_PAGE_SIZE);
      } else {
        DetailsScrollPageDown(DETAILS_PAGE_SIZE);
      }
    }
  }
}
