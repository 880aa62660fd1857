/// The calculations behind the dashboard controller: the derived view of
/// the index table, the cluster total, selection movement, per-index rate
/// smoothing and the bounded cluster-rate history.
module AppLogic {
  import opened Base
  import opened Models
  import opened Filter
  import Stats

  const MAX_HISTORY_POINTS: nat := 60
  const MIN_REFRESH_SECS: nat := 1
  const MAX_REFRESH_SECS: nat := 60

  /// The braille spinner shown while a fetch is in flight.
  const SPINNER_FRAMES: seq<char> :=
    ['\U{280B}', '\U{2819}', '\U{2839}', '\U{2838}', '\U{283C}', '\U{2834}', '\U{2826}', '\U{2827}', '\U{2807}', '\U{280F}']
  const IDLE_MARK: char := '\U{2713}'

  // ---------------------------------------------------------------------
  // The derived view

  /// Whether a row is shown: not excluded, not a hidden system index (name
  /// starting with a dot), and accepted by the filter.
  predicate Visible(i: IndexRate, excluded: set<string>, showSystem: bool, compiled: Option<CompiledFilter>) {
    && i.name !in excluded
    && (showSystem || !StartsWith(i.name, "."))
    && Matches(compiled, Serialize(i))
  }

  /// `filtered_indices`: the visible rows, in table order.
  function View(indices: seq<IndexRate>, excluded: set<string>, showSystem: bool, compiled: Option<CompiledFilter>)
    : (r: seq<IndexRate>)
    ensures |r| <= |indices|
    decreases |indices|
  {
    if |indices| == 0 then []
    else
      (if Visible(indices[0], excluded, showSystem, compiled) then [indices[0]] else [])
      + View(indices[1..], excluded, showSystem, compiled)
  }

  /// The view distributes over concatenation: together with `ViewSingle`
  /// this says the view keeps exactly the visible rows in their order.
  lemma {:induction false} ViewAppend(
    xs: seq<IndexRate>, ys: seq<IndexRate>, excluded: set<string>, showSystem: bool, compiled: Option<CompiledFilter>)
    ensures View(xs + ys, excluded, showSystem, compiled)
         == View(xs, excluded, showSystem, compiled) + View(ys, excluded, showSystem, compiled)
    decreases |xs|
  {
    if |xs| > 0 {
      assert (xs + ys)[0] == xs[0];
      assert (xs + ys)[1..] == xs[1..] + ys;
      ViewAppend(xs[1..], ys, excluded, showSystem, compiled);
    } else {
      assert xs + ys == ys;
    }
  }

  lemma ViewSingle(x: IndexRate, excluded: set<string>, showSystem: bool, compiled: Option<CompiledFilter>)
    ensures View([x], excluded, showSystem, compiled) == (if Visible(x, excluded, showSystem, compiled) then [x] else [])
  {
    assert [x][1..] == [];
  }

  /// A row is in the view exactly when it is in the table and visible.
  lemma {:induction false} ViewMembership(
    indices: seq<IndexRate>, excluded: set<string>, showSystem: bool, compiled: Option<CompiledFilter>, x: IndexRate)
    ensures x in View(indices, excluded, showSystem, compiled) <==> x in indices && Visible(x, excluded, showSystem, compiled)
    decreases |indices|
  {
    if |indices| > 0 {
      ViewMembership(indices[1..], excluded, showSystem, compiled, x);
      assert indices == [indices[0]] + indices[1..];
    }
  }

  function Rates(xs: seq<IndexRate>): (r: seq<real>)
    ensures |r| == |xs| && forall k :: 0 <= k < |xs| ==> r[k] == xs[k].ratePerSec
  {
    seq(|xs|, k requires 0 <= k < |xs| => xs[k].ratePerSec)
  }

  /// `total_cluster_rate`: the sum of the rates of the visible rows.
  function TotalRate(indices: seq<IndexRate>, excluded: set<string>, showSystem: bool, compiled: Option<CompiledFilter>): real {
    Sum(Rates(View(indices, excluded, showSystem, compiled)))
  }

  /// The total is additive over the table, and a hidden row adds nothing.
  lemma TotalRateAppend(
    xs: seq<IndexRate>, ys: seq<IndexRate>, excluded: set<string>, showSystem: bool, compiled: Option<CompiledFilter>)
    ensures TotalRate(xs + ys, excluded, showSystem, compiled)
         == TotalRate(xs, excluded, showSystem, compiled) + TotalRate(ys, excluded, showSystem, compiled)
  {
    ViewAppend(xs, ys, excluded, showSystem, compiled);
    var vx, vy := View(xs, excluded, showSystem, compiled), View(ys, excluded, showSystem, compiled);
    RatesAppend(vx, vy);
    SumAppend(Rates(vx), Rates(vy));
  }

  lemma RatesAppend(xs: seq<IndexRate>, ys: seq<IndexRate>)
    ensures Rates(xs + ys) == Rates(xs) + Rates(ys)
  {
  }

  lemma TotalRateSingle(x: IndexRate, excluded: set<string>, showSystem: bool, compiled: Option<CompiledFilter>)
    ensures TotalRate([x], excluded, showSystem, compiled)
         == (if Visible(x, excluded, showSystem, compiled) then x.ratePerSec else 0.0)
  {
    ViewSingle(x, excluded, showSystem, compiled);
    if Visible(x, excluded, showSystem, compiled) {
      assert Rates([x]) == [x.ratePerSec];
      assert Sum([x.ratePerSec]) == Sum([]) + x.ratePerSec;
    } else {
      assert Rates([]) == [];
    }
  }

  /// Three user indices at 1, 2 and 3 documents per second and a system
  /// index at 10: the total is 6 with system indices hidden, 16 with them
  /// shown, and 5 with them hidden and the first index excluded.
  lemma ClusterTotalExample(a: IndexRate, b: IndexRate, c: IndexRate, d: IndexRate)
    requires !StartsWith(a.name, ".") && !StartsWith(b.name, ".") && !StartsWith(c.name, ".")
    requires StartsWith(d.name, ".")
    requires a.name != b.name && a.name != c.name
    requires a.ratePerSec == 1.0 && b.ratePerSec == 2.0 && c.ratePerSec == 3.0 && d.ratePerSec == 10.0
    ensures TotalRate([a, b, c, d], {}, false, None) == 6.0
    ensures TotalRate([a, b, c, d], {}, true, None) == 16.0
    ensures TotalRate([a, b, c, d], {a.name}, false, None) == 5.0
  {
    FourRowTotal(a, b, c, d, {}, false);
    FourRowTotal(a, b, c, d, {}, true);
    FourRowTotal(a, b, c, d, {a.name}, false);
  }

  lemma FourRowTotal(a: IndexRate, b: IndexRate, c: IndexRate, d: IndexRate, excluded: set<string>, showSystem: bool)
    ensures TotalRate([a, b, c, d], excluded, showSystem, None)
         == (if Visible(a, excluded, showSystem, None) then a.ratePerSec else 0.0)
          + (if Visible(b, excluded, showSystem, None) then b.ratePerSec else 0.0)
          + (if Visible(c, excluded, showSystem, None) then c.ratePerSec else 0.0)
          + (if Visible(d, excluded, showSystem, None) then d.ratePerSec else 0.0)
  {
    assert [a, b, c, d] == [a] + [b] + [c] + [d];
    TotalRateAppend([a] + [b] + [c], [d], excluded, showSystem, None);
    TotalRateAppend([a] + [b], [c], excluded, showSystem, None);
    TotalRateAppend([a], [b], excluded, showSystem, None);
    TotalRateSingle(a, excluded, showSystem, None);
    TotalRateSingle(b, excluded, showSystem, None);
    TotalRateSingle(c, excluded, showSystem, None);
    TotalRateSingle(d, excluded, showSystem, None);
  }

  // ---------------------------------------------------------------------
  // Selection

  function Clamp(x: int, lo: int, hi: int): (r: int)
    requires lo <= hi
    ensures lo <= r <= hi
    ensures lo <= x <= hi ==> r == x
  {
    if x < lo then lo else if x > hi then hi else x
  }

  /// `move_selection`: on an empty view nothing is selected; otherwise the
  /// selection moves by `delta` and is clamped into the view, and a first
  /// move selects the top row going down and the bottom row going up.
  function MoveSelection(selected: Option<nat>, delta: int, count: nat): (r: Option<nat>)
    ensures r.None? <==> count == 0
    ensures r.Some? ==> r.value < count
  {
    if count == 0 then None
    else match selected
      case Some(c) => Some(Clamp(c + delta, 0, count - 1))
      case None => if delta > 0 then Some(0) else Some(count - 1)
  }

  /// The clamping cases spelled out, and a move that stays inside the view
  /// can be undone by the opposite move.
  lemma MoveSelectionCases(c: nat, delta: int, count: nat)
    requires count > 0
    ensures c + delta < 0 ==> MoveSelection(Some(c), delta, count) == Some(0)
    ensures 0 <= c + delta < count ==> MoveSelection(Some(c), delta, count) == Some(c + delta)
    ensures c + delta >= count ==> MoveSelection(Some(c), delta, count) == Some(count - 1)
    ensures MoveSelection(None, delta, count) == (if delta > 0 then Some(0) else Some(count - 1))
    ensures c < count && 0 <= c + delta < count ==>
      MoveSelection(MoveSelection(Some(c), delta, count), -delta, count) == Some(c)
  {
  }

  /// `select_first`: the top row of a non-empty view; no change on an
  /// empty one.
  function JumpFirst(selected: Option<nat>, count: nat): (r: Option<nat>)
    ensures count > 0 ==> r == Some(0)
    ensures count == 0 ==> r == selected
  {
    if count > 0 then Some(0) else selected
  }

  /// `select_last`: the bottom row of a non-empty view; no change on an
  /// empty one.
  function JumpLast(selected: Option<nat>, count: nat): (r: Option<nat>)
    ensures count > 0 ==> r == Some(count - 1)
    ensures count == 0 ==> r == selected
  {
    if count > 0 then Some(SatSub(count, 1)) else selected
  }

  /// The selection walk over a three-row view: down, down, up, up, last,
  /// down, first.
  lemma SelectionWalkExample()
    ensures MoveSelection(None, 1, 3) == Some(0)
    ensures MoveSelection(Some(0), 1, 3) == Some(1)
    ensures MoveSelection(Some(1), -1, 3) == Some(0)
    ensures MoveSelection(Some(0), -1, 3) == Some(0)
    ensures JumpLast(Some(0), 3) == Some(2)
    ensures MoveSelection(Some(2), 1, 3) == Some(2)
    ensures JumpFirst(Some(2), 3) == Some(0)
  {
    MoveSelectionCases(0, 1, 3);
    MoveSelectionCases(1, -1, 3);
    MoveSelectionCases(0, -1, 3);
    MoveSelectionCases(2, 1, 3);
  }

  /// A page of two down from the top row, then back up.
  lemma PaginationExample()
    ensures MoveSelection(Some(0), 2, 3) == Some(2)
    ensures MoveSelection(Some(2), -2, 3) == Some(0)
  {
    MoveSelectionCases(0, 2, 3);
  }

  /// The re-clamp after excluding the selected row: nothing when the view
  /// became empty, the last row when the old position fell off the end.
  function ReclampAfterExclude(selected: nat, newCount: nat): (r: Option<nat>)
    ensures r.None? <==> newCount == 0
    ensures r.Some? ==> r.value < newCount
    ensures selected < newCount ==> r == Some(selected)
    ensures newCount > 0 && selected >= newCount ==> r == Some(newCount - 1)
  {
    if newCount == 0 then None
    else if selected >= newCount then Some(newCount - 1)
    else Some(selected)
  }

  // ---------------------------------------------------------------------
  // Rate smoothing

  /// One sample pushed into a window of at most `cap` samples: the oldest
  /// sample is dropped first when the window is full.
  function PushWindow(w: seq<real>, x: real, cap: nat): (r: seq<real>)
    requires cap >= 1
    ensures |w| <= cap ==> 1 <= |r| <= cap
    ensures |r| > 0 && r[|r| - 1] == x
  {
    (if |w| >= cap then w[1..] else w) + [x]
  }

  /// Pushing samples one after the other.
  function Feed(w: seq<real>, xs: seq<real>, cap: nat): seq<real>
    requires cap >= 1
    decreases |xs|
  {
    if |xs| == 0 then w else PushWindow(Feed(w, xs[..|xs| - 1], cap), xs[|xs| - 1], cap)
  }

  function Min(a: nat, b: nat): nat {
    if a <= b then a else b
  }

  /// A window started empty holds exactly the latest `cap` samples, oldest first.
  lemma {:induction false} FeedKeepsLatest(xs: seq<real>, cap: nat)
    requires cap >= 1
    ensures Feed([], xs, cap) == xs[|xs| - Min(cap, |xs|)..]
    decreases |xs|
  {
    if |xs| > 0 {
      var init, last := xs[..|xs| - 1], xs[|xs| - 1];
      FeedKeepsLatest(init, cap);
      var w := init[|init| - Min(cap, |init|)..];
      var r := PushWindow(w, last, cap);
      assert Feed([], xs, cap) == r;
      var goal := xs[|xs| - Min(cap, |xs|)..];
      if |init| >= cap {
        FullWindowSlide(xs, cap);
      } else {
        assert w == init && r == init + [last];
        assert goal == xs;
      }
    }
  }

  /// Sliding a full window of the latest `cap` samples by one more sample.
  lemma FullWindowSlide(xs: seq<real>, cap: nat)
    requires 1 <= cap < |xs|
    ensures PushWindow(xs[..|xs| - 1][|xs| - 1 - cap..], xs[|xs| - 1], cap) == xs[|xs| - cap..]
  {
    var w := xs[..|xs| - 1][|xs| - 1 - cap..];
    assert w == xs[|xs| - 1 - cap..|xs| - 1];
    assert w[1..] == xs[|xs| - cap..|xs| - 1];
    assert xs[|xs| - cap..] == xs[|xs| - cap..|xs| - 1] + [xs[|xs| - 1]];
  }

  function Mean(w: seq<real>): real
    requires |w| > 0
  {
    Sum(w) / (|w| as real)
  }

  /// The mean of non-negative samples is non-negative, and a window of equal
  /// samples has that sample as its mean.
  lemma MeanProperties(w: seq<real>, x: real)
    requires |w| > 0
    ensures (forall k :: 0 <= k < |w| ==> w[k] >= 0.0) ==> Mean(w) >= 0.0
    ensures (forall k :: 0 <= k < |w| ==> w[k] == x) ==> Mean(w) == x
  {
    if forall k :: 0 <= k < |w| ==> w[k] >= 0.0 {
      SumNonNegative(w);
    }
    if forall k :: 0 <= k < |w| ==> w[k] == x {
      SumConstant(w, x);
    }
  }

  lemma {:induction false} SumConstant(w: seq<real>, x: real)
    requires forall k :: 0 <= k < |w| ==> w[k] == x
    ensures Sum(w) == (|w| as real) * x
    decreases |w|
  {
    if |w| > 0 {
      SumConstant(w[..|w| - 1], x);
    }
  }

  /// Every window has between one and `cap` samples.
  ghost predicate WindowsBounded(hist: map<string, seq<real>>, cap: nat) {
    forall name :: name in hist ==> 1 <= |hist[name]| <= cap
  }

  function WindowOf(hist: map<string, seq<real>>, name: string): seq<real> {
    if name in hist then hist[name] else []
  }

  /// One row of `update_indices_with_rates`: the raw rate joins the row's
  /// window and the row shows the window mean.
  function SmoothRow(hist: map<string, seq<real>>, cap: nat, x: IndexRate): (map<string, seq<real>>, IndexRate)
    requires cap >= 1
  {
    var w := PushWindow(WindowOf(hist, x.name), x.ratePerSec, cap);
    (hist[x.name := w], x.(ratePerSec := Mean(w)))
  }

  /// `update_indices_with_rates` over a whole table, row by row in order.
  function Smooth(hist: map<string, seq<real>>, cap: nat, xs: seq<IndexRate>): (map<string, seq<real>>, seq<IndexRate>)
    requires cap >= 1
    decreases |xs|
  {
    if |xs| == 0 then (hist, [])
    else
      var (h, ys) := Smooth(hist, cap, xs[..|xs| - 1]);
      var (h', y) := SmoothRow(h, cap, xs[|xs| - 1]);
      (h', ys + [y])
  }

  /// The loop step of `update_indices_with_rates`: smoothing the next row
  /// of a prefix already smoothed to `(h, done)`.
  lemma SmoothStep(hist: map<string, seq<real>>, cap: nat, xs: seq<IndexRate>, i: nat,
                   h: map<string, seq<real>>, done: seq<IndexRate>)
    requires cap >= 1 && i < |xs|
    requires (h, done) == Smooth(hist, cap, xs[..i])
    ensures Smooth(hist, cap, xs[..i + 1]) == (SmoothRow(h, cap, xs[i]).0, done + [SmoothRow(h, cap, xs[i]).1])
  {
    assert xs[..i + 1][..i] == xs[..i];
  }

  /// Smoothing keeps every window within bounds and adds a window for every
  /// row.
  lemma {:induction false} SmoothShape(hist: map<string, seq<real>>, cap: nat, xs: seq<IndexRate>)
    requires cap >= 1
    requires WindowsBounded(hist, cap)
    ensures WindowsBounded(Smooth(hist, cap, xs).0, cap)
    ensures Smooth(hist, cap, xs).0.Keys == hist.Keys + Stats.Names(xs)
    decreases |xs|
  {
    if |xs| > 0 {
      var init, last := xs[..|xs| - 1], xs[|xs| - 1];
      var prev := Smooth(hist, cap, init);
      SmoothShape(hist, cap, init);
      SmoothRowShape(prev.0, cap, last);
      NamesSnoc(xs);
      assert Smooth(hist, cap, xs).0 == SmoothRow(prev.0, cap, last).0;
    }
  }

  /// Smoothing changes only the rates of the rows.
  lemma {:induction false} SmoothRowsShape(hist: map<string, seq<real>>, cap: nat, xs: seq<IndexRate>)
    requires cap >= 1
    ensures |Smooth(hist, cap, xs).1| == |xs|
    ensures forall k :: 0 <= k < |xs| ==>
      Smooth(hist, cap, xs).1[k] == xs[k].(ratePerSec := Smooth(hist, cap, xs).1[k].ratePerSec)
    decreases |xs|
  {
    if |xs| > 0 {
      var init, last := xs[..|xs| - 1], xs[|xs| - 1];
      var prev := Smooth(hist, cap, init);
      var row := SmoothRow(prev.0, cap, last).1;
      SmoothRowsShape(hist, cap, init);
      assert Smooth(hist, cap, xs).1 == prev.1 + [row];
      forall k | 0 <= k < |xs|
        ensures (prev.1 + [row])[k] == xs[k].(ratePerSec := (prev.1 + [row])[k].ratePerSec)
      {
        if k < |init| {
          assert (prev.1 + [row])[k] == prev.1[k] && xs[k] == init[k];
        }
      }
    }
  }

  /// One smoothed row keeps the windows bounded, adds the row's window and
  /// changes only the row's rate.
  lemma SmoothRowShape(hist: map<string, seq<real>>, cap: nat, x: IndexRate)
    requires cap >= 1
    requires WindowsBounded(hist, cap)
    ensures WindowsBounded(SmoothRow(hist, cap, x).0, cap)
    ensures SmoothRow(hist, cap, x).0.Keys == hist.Keys + {x.name}
    ensures SmoothRow(hist, cap, x).1 == x.(ratePerSec := SmoothRow(hist, cap, x).1.ratePerSec)
  {
  }

  /// The smoothed table names the same indices as the raw one.
  lemma SmoothNames(hist: map<string, seq<real>>, cap: nat, xs: seq<IndexRate>)
    requires cap >= 1
    ensures Stats.Names(Smooth(hist, cap, xs).1) == Stats.Names(xs)
  {
    SmoothRowsShape(hist, cap, xs);
    NamesPointwise(Smooth(hist, cap, xs).1, xs);
  }

  lemma NamesPointwise(a: seq<IndexRate>, b: seq<IndexRate>)
    requires |a| == |b| && forall k :: 0 <= k < |a| ==> a[k].name == b[k].name
    ensures Stats.Names(a) == Stats.Names(b)
  {
    forall n | n in Stats.Names(a) ensures n in Stats.Names(b) {
      var k :| 0 <= k < |a| && a[k].name == n;
    }
    forall n | n in Stats.Names(b) ensures n in Stats.Names(a) {
      var k :| 0 <= k < |b| && b[k].name == n;
    }
  }

  lemma NamesSnoc(xs: seq<IndexRate>)
    requires |xs| > 0
    ensures Stats.Names(xs) == Stats.Names(xs[..|xs| - 1]) + {xs[|xs| - 1].name}
  {
    var init := xs[..|xs| - 1];
    forall n | n in Stats.Names(xs) ensures n in Stats.Names(init) + {xs[|xs| - 1].name} {
      var k :| 0 <= k < |xs| && xs[k].name == n;
      if k < |xs| - 1 { assert init[k] == xs[k]; }
    }
    forall n | n in Stats.Names(init) ensures n in Stats.Names(xs) {
      var k :| 0 <= k < |init| && init[k].name == n;
      assert xs[k] == init[k];
    }
  }

  /// With distinct names, each row's newest sample is its raw rate and the
  /// rate it shows is the mean of its window.
  lemma {:induction false} SmoothRowsShowMeans(hist: map<string, seq<real>>, cap: nat, xs: seq<IndexRate>)
    requires cap >= 1
    requires forall i, j :: 0 <= i < j < |xs| ==> xs[i].name != xs[j].name
    ensures var (h, ys) := Smooth(hist, cap, xs);
      && |ys| == |xs|
      && forall k :: 0 <= k < |xs| ==>
           && xs[k].name in h && |h[xs[k].name]| > 0
           && h[xs[k].name][|h[xs[k].name]| - 1] == xs[k].ratePerSec
           && ys[k].ratePerSec == Mean(h[xs[k].name])
    decreases |xs|
  {
    if |xs| > 0 {
      var init := xs[..|xs| - 1];
      SmoothRowsShowMeans(hist, cap, init);
      var (h, ys) := Smooth(hist, cap, init);
      var x := xs[|xs| - 1];
      var (h', y) := SmoothRow(h, cap, x);
      assert Smooth(hist, cap, xs) == (h', ys + [y]);
      forall k | 0 <= k < |xs|
        ensures xs[k].name in h' && |h'[xs[k].name]| > 0
        ensures h'[xs[k].name][|h'[xs[k].name]| - 1] == xs[k].ratePerSec
        ensures (ys + [y])[k].ratePerSec == Mean(h'[xs[k].name])
      {
        if k < |xs| - 1 {
          assert init[k] == xs[k];
          assert xs[k].name != x.name;
        }
      }
    }
  }

  /// The windows of indices still present.
  function Prune(hist: map<string, seq<real>>, names: set<string>): (r: map<string, seq<real>>)
    ensures r.Keys == hist.Keys * names
    ensures forall n :: n in r ==> r[n] == hist[n]
  {
    map n | n in hist.Keys && n in names :: hist[n]
  }

  /// After smoothing and pruning to the table's names, the windows are
  /// exactly those of the current indices.
  lemma SmoothThenPruneKeys(hist: map<string, seq<real>>, cap: nat, xs: seq<IndexRate>)
    requires cap >= 1
    requires WindowsBounded(hist, cap)
    ensures Prune(Smooth(hist, cap, xs).0, Stats.Names(xs)).Keys == Stats.Names(xs)
    ensures WindowsBounded(Prune(Smooth(hist, cap, xs).0, Stats.Names(xs)), cap)
  {
    SmoothShape(hist, cap, xs);
  }

  // ---------------------------------------------------------------------
  // Cluster-rate history

  /// One total appended to the history, dropping the oldest at 60 points.
  function PushHistory(h: seq<real>, x: real): (r: seq<real>)
    ensures |h| <= MAX_HISTORY_POINTS ==> |r| <= MAX_HISTORY_POINTS
    ensures |r| > 0 && r[|r| - 1] == x
    ensures r[..|r| - 1] == (if |h| >= MAX_HISTORY_POINTS then h[1..] else h)
  {
    (if |h| >= MAX_HISTORY_POINTS then h[1..] else h) + [x]
  }

  /// The history is the smoothing window with a capacity of 60.
  lemma PushHistoryIsWindow(h: seq<real>, x: real)
    ensures PushHistory(h, x) == PushWindow(h, x, MAX_HISTORY_POINTS)
  {
  }

  // ---------------------------------------------------------------------
  // Refresh interval

  function IncreaseRefresh(secs: nat): (r: nat)
    ensures secs > MIN_REFRESH_SECS ==> r == secs - 1
    ensures secs <= MIN_REFRESH_SECS ==> r == secs
  {
    if secs > MIN_REFRESH_SECS then secs - 1 else secs
  }

  function DecreaseRefresh(secs: nat): (r: nat)
    ensures secs < MAX_REFRESH_SECS ==> r == secs + 1
    ensures secs >= MAX_REFRESH_SECS ==> r == secs
  {
    if secs < MAX_REFRESH_SECS then secs + 1 else secs
  }

  /// Stepping keeps an interval inside 1..60 and never crosses a bound, and
  /// the two steps undo each other away from the bounds.
  lemma RefreshStepBounds(secs: nat)
    ensures MIN_REFRESH_SECS <= secs <= MAX_REFRESH_SECS ==>
      MIN_REFRESH_SECS <= IncreaseRefresh(secs) <= MAX_REFRESH_SECS &&
      MIN_REFRESH_SECS <= DecreaseRefresh(secs) <= MAX_REFRESH_SECS
    ensures MIN_REFRESH_SECS < secs <= MAX_REFRESH_SECS ==> DecreaseRefresh(IncreaseRefresh(secs)) == secs
    ensures MIN_REFRESH_SECS <= secs < MAX_REFRESH_SECS ==> IncreaseRefresh(DecreaseRefresh(secs)) == secs
  {
  }

  /// `should_refresh`: never while paused, at once before the first
  /// refresh, and otherwise when the interval has elapsed.
  function ShouldRefresh(paused: bool, lastRefresh: Option<nat>, refreshSecs: nat, now: nat): (r: bool)
    ensures paused ==> !r
    ensures !paused && lastRefresh.None? ==> r
    ensures !paused && lastRefresh.Some? ==> (r <==> Stats.Elapsed(lastRefresh.value, now) >= refreshSecs * 1000)
  {
    if paused then false
    else match lastRefresh
      case None => true
      case Some(last) => Stats.Elapsed(last, now) >= refreshSecs * 1000
  }
}
