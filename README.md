# esticli dashboard core, modelled in Dafny

esticli is a terminal dashboard for an Elasticsearch cluster. Every few seconds it
polls the indexing counters of every index and the cluster health. It turns the
counters into per-index indexing rates, smooths each rate over a window of recent
samples, and keeps a 60-point history of the cluster-wide total. It shows the
indices as a sortable, filterable table with a selection, and it can open a
details popup for one index.

This project models the core of that program and proves properties of the model:

- **Controller** (`App`, src/app/mod.rs) is a class whose methods update its fields
  as the Rust methods do. This covers fetch admission and polling, the spinner,
  the refresh interval, selection, exclusions, toggles, the help popup, colormaps
  and `handle_action`.
- **AppLogic** holds the calculations `App` relies on: the visible view of the
  table, the cluster total, selection clamping, the per-index smoothing windows,
  window pruning, the bounded history and the refresh schedule.
- **Sort** (src/app/sort.rs) models `SortState` and an in-place stable insertion
  sort on an array. The sort is proved equal to a stable-sort specification,
  which is proved sorted, a permutation and stable.
- **Filter** (src/app/filter.rs) models `FilterState` with its cached compile
  result and the matching rule of `is_match`.
- **DetailsPopup** (src/app/details.rs) models `DetailsState` and its
  one-slot mailbox.
- **Stats** (src/elasticsearch/stats.rs) models the rate computation against the
  previous snapshot and the copying of the cluster health response.
- **IndexDetailsFetch** (src/elasticsearch/details.rs) models how the details of
  one index are assembled from seven sub-responses, each of which may fail on
  its own.
- **UiTypes** (src/ui/types.rs) models the colormap, sort column and sort order
  cycles, and colormap parsing.
- **EventLoop** (src/main.rs) models the key router `map_key_to_action` and the
  turns of `run`.

Modelling conventions:

- Time is a natural number of milliseconds. `Instant::duration_since` saturates
  at zero.
- Floating-point rates are reals.
- `usize` saturating arithmetic is explicit (`SatAdd`, `SatSub`, with `usize::MAX`
  on a 64-bit target).
- The background tasks deliver into a `Mailbox`: empty, disconnected, or holding
  one value. This is what one non-blocking `try_recv` observes.
- The jq compiler and the text-input widget are function parameters
  (`Compiler`, `InputEditor`).

Behaviour worth noting (the model follows the code):

- The refresh interval is taken as given by `App::new` (src/app/mod.rs:75-121).
  It is not clamped to 1..60 at construction. Only the step operations keep it
  inside those bounds.
- The selection is re-clamped only after an exclusion
  (src/app/mod.rs:484-490). It is reset only when system indices are toggled
  (src/app/mod.rs:341). Editing the filter and receiving new data leave it
  untouched, so it may point past the end of the view. No "selection inside the
  view" invariant is stated.
- A delivered fetch error sets the error and keeps the table, the health and
  the history. Like every delivered result, it still ends the fetch: the loading
  flag is cleared, the refresh time is set and the duration is recorded
  (src/app/mod.rs:195-201).
- A details result that arrives after the popup was closed is still stored by
  `poll` (src/app/details.rs:70-92). It is not dropped; the popup simply stays
  hidden.

## Model

| member | source | states |
|---|---|---|
| Base.SatAdd | src/app/details.rs:98-100 | `usize::saturating_add`: the exact sum when it fits in a `usize`, `usize::MAX` otherwise |
| Base.SatSub | src/app/details.rs:94-96 | `usize::saturating_sub`: the exact difference when it does not go below zero, zero otherwise |
| Base.SumNonNegative | src/app/mod.rs:249-250 | a sum of non-negative rates is non-negative |
| UiTypes.ColormapNextPrevInverse | src/ui/types.rs:36-64 | `next` and `prev` on colormaps undo each other in both orders |
| UiTypes.AllIsEnumeration | src/ui/types.rs:22-34 | `Colormap::ALL` has ten entries, contains every colormap, and lists none twice |
| UiTypes.NextFollowsAll | src/ui/types.rs:36-49 | `next` moves to the following entry of `ALL` and wraps from the last entry to the first |
| UiTypes.IterateNextFollowsAll | src/ui/types.rs:36-49 | `k` presses of `next` from `ALL[i]` land on `ALL[(i + k) % 10]` |
| UiTypes.NextTenTimesIsIdentity | src/ui/types.rs:36-49 | ten presses of `next` return to the starting colormap |
| UiTypes.ToLower | src/ui/types.rs:106-128 | lower-casing keeps the length and lower-cases each ASCII letter in place |
| UiTypes.ParseColormap | src/ui/types.rs:106-128 | an accepted name lower-cases to the display name of the colormap it gives |
| UiTypes.ParseDisplayRoundTrip | src/ui/types.rs:87-128 | parsing the display name of a colormap gives that colormap back |
| UiTypes.LowerIsFixed | src/ui/types.rs:106-128 | lower-casing leaves a string without upper-case ASCII letters unchanged |
| UiTypes.ParseIgnoresCase | src/ui/types.rs:106-128 | two names equal up to ASCII case parse to the same outcome |
| UiTypes.ParseUnknownIsErr | src/ui/types.rs:118-126 | a name matching no colormap is rejected with the message listing the ten valid names |
| UiTypes.ColumnNextPrevInverse | src/ui/types.rs:142-160 | `next` and `prev` on sort columns undo each other, five `next` steps are the identity, and `next` always changes the column |
| UiTypes.ToggleOrderInvolution | src/ui/types.rs:171-176 | toggling the order twice is the identity, and once always changes it |
| Sort.StrCmpAntisymmetric | src/app/sort.rs:23-41 | swapping the two names reverses the string comparison |
| Sort.StrCmpEqualIff | src/app/sort.rs:23-41 | the string comparison reports `Equal` exactly for equal strings |
| Sort.CompareProperties | src/app/sort.rs:23-41 | the `sort_by` comparator is antisymmetric for every column and order, and reports equality exactly when the rows agree on the active column |
| Sort.InsertShape | src/app/sort.rs:23-41 | one insertion step adds exactly the inserted row to the multiset and places it after every row that does not compare greater |
| Sort.InsertSorted | src/app/sort.rs:23-41 | inserting into a sorted sequence keeps it sorted |
| Sort.InsertStable | src/app/sort.rs:23-41 | an insertion puts the new row after every earlier row with an equal key |
| Sort.SortedByIsSorted | src/app/sort.rs:23-41 | the result of the sort has no adjacent pair comparing `Greater` under the active column and order |
| Sort.SortedByIsPermutation | src/app/sort.rs:23-41 | the sort keeps the length and the multiset of rows |
| Sort.SortedByIsStable | src/app/sort.rs:23-41 | rows that agree on the active column keep their input order, as `slice::sort_by` promises |
| Sort.SortByNameExample | src/app/sort.rs:59-68 | ascending by name puts "a" before "z" |
| Sort.SortByRateDescendingExample | src/app/sort.rs:71-80 | descending by rate puts the 5.0 row before the 1.0 row |
| Sort.SortState.constructor | src/app/sort.rs:4-8 | the default setting is by rate, descending |
| Sort.SortState.NextColumn | src/app/sort.rs:11-13 | the column advances one step of the cycle; the order is kept |
| Sort.SortState.PrevColumn | src/app/sort.rs:15-17 | the column goes back one step of the cycle; the order is kept |
| Sort.SortState.ToggleOrder | src/app/sort.rs:19-21 | the order flips; the column is kept |
| Sort.SortState.Sort | src/app/sort.rs:23-41 | the array ends up holding the stable sort of its old contents under the current setting, and so is sorted, a permutation and stable |
| Sort.SortState.InsertAt | src/app/sort.rs:23-41 | one insertion-sort pass moves row `i` into place in the sorted prefix and leaves the rest of the array alone |
| Filter.NoFilterMatchesAll | src/app/filter.rs:54-58 | without a compiled filter every item matches |
| Filter.UnserialisableMatches | src/app/filter.rs:60-71 | an item that cannot be serialised matches whatever the filter |
| Filter.FilterState.constructor | src/app/filter.rs:10-17 | the default editor is inactive, with empty text, no compiled filter and no error |
| Filter.FilterState.Enter | src/app/filter.rs:20-22 | entering activates the editor and keeps the text, the compiled filter and the error |
| Filter.FilterState.Exit | src/app/filter.rs:24-26 | leaving deactivates the editor and keeps the text and the compiled filter, so the filter stays applied |
| Filter.FilterState.Clear | src/app/filter.rs:28-33 | clearing empties the text, drops the compiled filter and the error, and deactivates the editor |
| Filter.FilterState.SetInput | src/app/filter.rs:35-52 | the new text replaces the old; the flags and the cached compile result are kept until the next compile |
| Filter.FilterState.Recompile | src/app/filter.rs:35-52 | empty text clears both the filter and the error; otherwise a compile success caches the filter with no error and a failure caches the error with no filter, so both are never held together |
| Filter.FilterState.IsMatch | src/app/filter.rs:54-71 | without a compiled filter, or for an item that cannot be serialised, every item matches |
| DetailsPopup.DetailsState.constructor | src/app/details.rs:20-31 | the popup starts hidden, with no data, not loading, no error and offset 0 |
| DetailsPopup.DetailsState.Fetch | src/app/details.rs:33-45 | opening shows the popup in its loading state with no data, no error and offset 0, with no in-flight guard |
| DetailsPopup.DetailsState.Close | src/app/details.rs:62-68 | closing resets every field from any state |
| DetailsPopup.DetailsState.Poll | src/app/details.rs:70-92 | an empty mailbox changes nothing; a success stores the data and clears the error; a failure stores the error and keeps the data; a disconnection stores the fixed message; the popup flag and the offset never change |
| DetailsPopup.DetailsState.ScrollUp | src/app/details.rs:94-96 | the offset goes down by one, stopping at zero; nothing else changes |
| DetailsPopup.DetailsState.ScrollDown | src/app/details.rs:98-100 | the offset goes up by one, saturating; nothing else changes |
| DetailsPopup.DetailsState.ScrollPageUp | src/app/details.rs:102-104 | the offset goes down by a page, stopping at zero; nothing else changes |
| DetailsPopup.DetailsState.ScrollPageDown | src/app/details.rs:106-108 | the offset goes up by a page, saturating; nothing else changes |
| DetailsPopup.ScrollDownUpRestores | src/app/details.rs:94-100 | scrolling down then up returns to the same offset below the maximum, and scrolling up from zero stays at zero |
| Stats.CurrentSnapshot | src/elasticsearch/stats.rs:17-31 | the snapshot has one entry per index of the response |
| Stats.ComputeRates | src/elasticsearch/stats.rs:34-68 | the rate table has exactly one row per index of the current snapshot, each with its counters copied and its rate computed against the previous snapshot, in any order |
| Stats.FirstPollRatesAreZero | src/elasticsearch/stats.rs:56-67 | on the first poll every row of the rate table shows rate zero, with document count, size and health copied from the response |
| Stats.InstantRate | src/elasticsearch/stats.rs:36-45 | a rate is never negative, and every rate is zero on the first poll |
| Stats.InstantRateCases | src/elasticsearch/stats.rs:36-45 | a rate is never negative; it is the counter increase per elapsed second when the index was known, time passed and the counter did not go backwards, and zero otherwise |
| Stats.RateExamples | src/elasticsearch/stats.rs:36-45 | 100 then 150 operations five seconds apart is 10 per second; a counter that drops gives 0 |
| Stats.FetchClusterHealth | src/elasticsearch/stats.rs:76-95 | the summary fails exactly when the request failed, and then with the request's error |
| Stats.ClusterHealthCopied | src/elasticsearch/stats.rs:76-95 | a health response is copied field by field into the summary |
| Stats.EsClient.constructor | src/elasticsearch/client.rs:47-52 | a new client has no previous snapshot |
| Stats.EsClient.FetchIndexRates | src/elasticsearch/stats.rs:8-74 | a failed request is passed on and keeps the old snapshot; a response yields the rate table against the old snapshot and becomes the new snapshot |
| IndexDetailsFetch.ParseUnsigned | src/elasticsearch/details.rs:84-95 | a successful unsigned parse is within the integer type's bounds |
| IndexDetailsFetch.ParseI64 | src/elasticsearch/details.rs:150-156 | a successful `i64` parse is within the `i64` bounds |
| IndexDetailsFetch.ParseDecimalRoundTrip | src/elasticsearch/details.rs:158-166 | parsing the decimal rendering of any in-range number gives that number back |
| IndexDetailsFetch.ParseI64RoundTrip | src/elasticsearch/details.rs:150-156 | parsing a decimal rendering gives the number back, and with a leading minus its negation, for every magnitude within the `i64` bounds for that sign |
| IndexDetailsFetch.PatternMatchesCases | src/elasticsearch/details.rs:206-220 | `*` matches everything, `p*` matches exactly the names starting with `p`, `*p` exactly those ending with `p`, and a pattern without stars only itself |
| IndexDetailsFetch.InfixPatternIsLiteralPrefix | src/elasticsearch/details.rs:206-220 | an infix pattern `*x*` is taken as a literal prefix `*x`, not as "contains x" |
| IndexDetailsFetch.MatchingTemplateNames | src/elasticsearch/details.rs:98-112 | at most one name per template is listed |
| IndexDetailsFetch.MatchingTemplateNamesIff | src/elasticsearch/details.rs:98-112 | a name is listed exactly when some template of that name has a pattern matching the index |
| IndexDetailsFetch.MatchingTemplateNamesAppend | src/elasticsearch/details.rs:98-112 | the names are collected template by template in response order: one template contributes its name exactly when one of its patterns matches, and the list for a concatenation of responses is the concatenation of the lists |
| IndexDetailsFetch.IndexOf | src/elasticsearch/details.rs:125-147 | the position found is the first occurrence of the index, and there is none exactly when the index is absent |
| IndexDetailsFetch.FindDataStream | src/elasticsearch/details.rs:125-147 | there is no data stream exactly when no stream's backing indices contain the index; otherwise it is the first such stream, with the index's generation position |
| IndexDetailsFetch.ShardAllocation | src/elasticsearch/details.rs:84-95 | a failed request gives no shards; otherwise there is one row per entry, in order |
| IndexDetailsFetch.ShardEntryMapping | src/elasticsearch/details.rs:84-95 | a shard is primary exactly for `p`, a missing node reads "unassigned", an unreadable shard number reads 0, and state and size are copied |
| IndexDetailsFetch.IlmFallback | src/elasticsearch/details.rs:57-71 | the policy comes from the lifecycle response when it explains the index and otherwise from the settings; the phase comes only from the lifecycle response |
| IndexDetailsFetch.FetchIndexDetails | src/elasticsearch/details.rs:52-202 | the fetch fails exactly on a URL error, with that error; a success echoes the name, document count, rate and size it was given |
| IndexDetailsFetch.AllFailedGivesDefaults | src/elasticsearch/details.rs:57-202 | with every sub-request failed, every derived field takes its default |
| IndexDetailsFetch.FailureDegradesOnlyItsFields | src/elasticsearch/details.rs:57-202 | a failed sub-request resets only the fields it feeds and leaves every other field as with all requests answered: segments, shards, templates, health and status, and the data stream each reset alone; a failed lifecycle response leaves the policy to the settings and clears the phase; failed settings reset the provided name, creation date, shard counts, frozen and partial flags and uuid, and leave the policy to the lifecycle response alone |
| IndexDetailsFetch.SettingsFlags | src/elasticsearch/details.rs:168-177 | frozen holds exactly for the setting "true", and partial exactly when the store type names a snapshot or searchable store |
| AppLogic.View | src/app/mod.rs:412-428 | the view is never longer than the table |
| AppLogic.ViewAppend | src/app/mod.rs:412-428 | the view of a concatenation is the concatenation of the views, so the order of the table is kept |
| AppLogic.ViewSingle | src/app/mod.rs:412-428 | a single row is kept exactly when it is visible |
| AppLogic.ViewMembership | src/app/mod.rs:412-428 | a row is in the view exactly when it is in the table, not excluded, not a hidden system index and accepted by the filter |
| AppLogic.Rates | src/app/mod.rs:155 | the rates are the rows' rates, position by position |
| AppLogic.TotalRateAppend | src/app/mod.rs:140-157 | the cluster total is additive over the table |
| AppLogic.TotalRateSingle | src/app/mod.rs:140-157 | one row adds its rate when visible and nothing when hidden |
| AppLogic.ClusterTotalExample | src/app/mod.rs:677-700 | rates 1, 2, 3 and a system index at 10 total 6 with system indices hidden, 16 shown, and 5 with the first index excluded |
| AppLogic.FourRowTotal | src/app/mod.rs:140-157 | the total of four rows is the sum of the rates of the visible ones |
| AppLogic.Clamp | src/app/mod.rs:386-388 | the result lies in the bounds and equals the input when the input already does |
| AppLogic.MoveSelection | src/app/mod.rs:377-397 | nothing is selected exactly when the view is empty; otherwise the selection lies inside the view |
| AppLogic.MoveSelectionCases | src/app/mod.rs:377-397 | a move is clamped to the first or last row when it overshoots and exact otherwise; a first move selects the top going down and the bottom going up; a move inside the view is undone by the opposite move |
| AppLogic.JumpFirst | src/app/mod.rs:364-368 | the top row of a non-empty view is selected; an empty view keeps the selection |
| AppLogic.JumpLast | src/app/mod.rs:370-375 | the bottom row of a non-empty view is selected; an empty view keeps the selection |
| AppLogic.SelectionWalkExample | src/app/mod.rs:609-642 | the walk over three rows: down, down, up, up, last, down and first select 0, 1, 0, 0, 2, 2 and 0 |
| AppLogic.PaginationExample | src/app/mod.rs:645-656 | paging down by two from the top reaches row 2, and paging up returns to row 0 |
| AppLogic.ReclampAfterExclude | src/app/mod.rs:484-490 | nothing is selected exactly when the view became empty; otherwise the selection is inside the view, unchanged when still in range, and the last row when it fell off the end |
| AppLogic.PushWindow | src/app/mod.rs:243-246 | a window within its capacity stays within it and non-empty, and its newest sample is the pushed one |
| AppLogic.FeedKeepsLatest | src/app/mod.rs:236-253 | a window started empty holds exactly the latest `cap` samples, oldest first |
| AppLogic.MeanProperties | src/app/mod.rs:248-251 | the mean of non-negative samples is non-negative, and the mean of equal samples is that sample |
| AppLogic.SmoothShape | src/app/mod.rs:236-253 | smoothing keeps every window between 1 and `cap` samples and adds a window for every row |
| AppLogic.SmoothRowsShape | src/app/mod.rs:236-253 | smoothing keeps the number and order of the rows and changes only their rates |
| AppLogic.SmoothRowShape | src/app/mod.rs:237-251 | smoothing one row keeps the windows bounded, adds the row's window and changes only the row's rate |
| AppLogic.SmoothNames | src/app/mod.rs:236-253 | the smoothed table names the same indices as the raw one |
| AppLogic.SmoothRowsShowMeans | src/app/mod.rs:236-253 | with distinct names, each row's newest sample is its raw rate and the rate shown is the mean of its window |
| AppLogic.Prune | src/app/mod.rs:211-215 | exactly the windows of the present indices remain, unchanged |
| AppLogic.SmoothThenPruneKeys | src/app/mod.rs:204-215 | after smoothing and pruning, the windows are exactly those of the current indices, and all stay bounded |
| AppLogic.PushHistory | src/app/mod.rs:217-221 | the history never exceeds 60 points, ends with the new total, and drops the oldest point exactly when already full |
| AppLogic.PushHistoryIsWindow | src/app/mod.rs:217-221 | the cluster history is a smoothing window with a capacity of 60 |
| AppLogic.IncreaseRefresh | src/app/mod.rs:271-276 | the interval shrinks by one second above the minimum and is kept otherwise |
| AppLogic.DecreaseRefresh | src/app/mod.rs:278-283 | the interval grows by one second below the maximum and is kept otherwise |
| AppLogic.RefreshStepBounds | src/app/mod.rs:271-283 | the steps keep an interval inside 1..60 and undo each other away from the bounds |
| AppLogic.ShouldRefresh | src/app/mod.rs:290-298 | never while paused, at once before the first refresh, and otherwise exactly when the interval has elapsed |
| Controller.NamesOfPermutation | src/app/mod.rs:206-215 | sorting the table does not change the set of index names it holds |
| Controller.App.constructor | src/app/mod.rs:75-121 | every field starts as `App::new` sets it, with the sample count raised to at least one, the interval taken as given, and the details popup hidden, empty and at offset 0 |
| Controller.App.TickSpinner | src/app/mod.rs:124-128 | the frame advances cyclically while loading and stays put when idle; nothing else changes |
| Controller.App.SpinnerChar | src/app/mod.rs:131-137 | a spinner frame while loading, the check mark when idle |
| Controller.App.IncreaseRefreshRate | src/app/mod.rs:271-276 | the interval takes one step down; no other field changes |
| Controller.App.DecreaseRefreshRate | src/app/mod.rs:278-283 | the interval takes one step up; no other field changes |
| Controller.App.StartFetch | src/app/mod.rs:165-171 | nothing changes while a fetch is in flight; otherwise the app is loading from `now`; the user's settings are untouched |
| Controller.App.UpdateIndicesWithRates | src/app/mod.rs:236-253 | the windows and the rows become the smoothing of the old windows and rows |
| Controller.App.SmoothNext | src/app/mod.rs:237-251 | one more row of the array is smoothed against the windows |
| Controller.App.SmoothAt | src/app/mod.rs:237-251 | row `i` and its window are replaced by their one-row smoothing; other rows are kept |
| Controller.App.NextColumn | src/app/mod.rs:301-304 | the column advances and the table is stably re-sorted under the new setting |
| Controller.App.PrevColumn | src/app/mod.rs:306-309 | the column goes back and the table is stably re-sorted under the new setting |
| Controller.App.ToggleSortOrder | src/app/mod.rs:311-314 | the order flips and the table is stably re-sorted under the new setting |
| Controller.App.Resort | src/app/mod.rs:316-320 | the table becomes its stable sort under the current setting |
| Controller.App.PollFetchResult | src/app/mod.rs:193-234 | empty: no change; disconnected: not loading, with the fixed error; delivered: not loading, refreshed now, duration recorded; error: table, health and history kept; success: rows smoothed and sorted, health stored, error cleared, windows pruned to the current indices and the visible total appended to the history; the invariant holds throughout |
| Controller.App.EndFetch | src/app/mod.rs:196-201 | a delivered result ends the fetch: not loading, refreshed now, start cleared and duration recorded when a start was known |
| Controller.App.ApplyFetched | src/app/mod.rs:204-221 | the table is the sorted smoothing of the rows, the health is stored, the error is cleared, the windows are pruned and the history gains the new total |
| Controller.App.PruneAndRecord | src/app/mod.rs:211-221 | the windows are pruned to the table's names and the visible total is pushed into the history |
| Controller.App.SmoothAndSort | src/app/mod.rs:205-206 | the result is the stable sort of the smoothed rows; it names the same indices, and the windows gain those names and stay bounded |
| Controller.App.MoveSelection | src/app/mod.rs:377-397 | the selection becomes the clamped move over the current view; nothing else changes |
| Controller.App.SelectFirst | src/app/mod.rs:364-368 | the selection jumps to the top row of the current view, or stays when the view is empty; nothing else changes |
| Controller.App.SelectLast | src/app/mod.rs:370-375 | the selection jumps to the bottom row of the current view, or stays when the view is empty; nothing else changes |
| Controller.App.ToggleSystemIndices | src/app/mod.rs:338-342 | system indices flip visibility and the selection is forgotten |
| Controller.App.ToggleExcludeSelected | src/app/mod.rs:475-494 | out of range nothing changes; otherwise the selected row's index, never already excluded, is added and the selection is re-clamped to the smaller view |
| Controller.App.ClearExclusions | src/app/mod.rs:496-498 | no index is excluded any more; nothing else changes |
| Controller.App.Quit | src/app/mod.rs:322-324 | the app stops running; nothing else changes |
| Controller.App.ToggleGraph | src/app/mod.rs:326-328 | the graph panel flips; nothing else changes |
| Controller.App.ToggleHealth | src/app/mod.rs:330-332 | the health panel flips; nothing else changes |
| Controller.App.ToggleIndices | src/app/mod.rs:334-336 | the index table flips; nothing else changes |
| Controller.App.TogglePause | src/app/mod.rs:344-346 | pausing flips; nothing else changes |
| Controller.App.ToggleHelpPopup | src/app/mod.rs:504-509 | the help popup flips; opening starts it at the top, closing keeps the offset |
| Controller.App.HelpScrollUp | src/app/mod.rs:511-513 | the help offset goes down by one, stopping at zero |
| Controller.App.HelpScrollDown | src/app/mod.rs:515-517 | the help offset goes up by one, saturating |
| Controller.App.NextColormap | src/app/mod.rs:519-521 | the colormap advances one step of its cycle |
| Controller.App.PrevColormap | src/app/mod.rs:523-525 | the colormap goes back one step of its cycle |
| Controller.App.EnterFilterMode | src/app/mod.rs:400-402 | the filter editor opens with its text and compiled filter kept |
| Controller.App.ExitFilterMode | src/app/mod.rs:404-406 | the filter editor closes with its text and compiled filter kept |
| Controller.App.ClearFilter | src/app/mod.rs:408-410 | the filter is emptied and its editor closed |
| Controller.App.ShowIndexDetails | src/app/mod.rs:431-449 | a request is made exactly when the selection points into the view; it is for the selected row and opens the popup in its loading state; otherwise the popup is untouched |
| Controller.App.CloseDetailsPopup | src/app/mod.rs:451-453 | the details popup is closed and reset |
| Controller.App.PollDetailsResult | src/app/mod.rs:455-457 | the details mailbox is drained as `DetailsState::poll` does |
| Controller.App.DetailsScrollUp | src/app/mod.rs:459-461 | the details offset goes down by one, stopping at zero |
| Controller.App.DetailsScrollDown | src/app/mod.rs:463-465 | the details offset goes up by one, saturating |
| Controller.App.DetailsScrollPageUp | src/app/mod.rs:467-469 | the details offset goes down by a page, stopping at zero |
| Controller.App.DetailsScrollPageDown | src/app/mod.rs:471-473 | the details offset goes up by a page, saturating |
| Controller.App.HandleAction | src/app/mod.rs:527-563 | the invariant is kept, and every action has exactly the effect of the method it calls and changes nothing else: the settings, help and quit flags per action, selection moves of one row or a page of 20 over the view before the action, jumps, exclusions, re-sorting under the new sort setting, the filter editor's flag and clearing, the details request exactly for `ShowDetails` on a selected row, and details scrolls of one line or a page of 10 |
| Controller.App.HandleSelectionAction | src/app/mod.rs:530-543 | the selection moves, jumps and the system-index toggle have their `handle_action` effect |
| Controller.App.MoveSelectionBy | src/app/mod.rs:530-533 | up and down move by one row and the page keys by 20, with their `handle_action` effect |
| Controller.App.HandleExclusionAction | src/app/mod.rs:545-546 | excluding the selected row and clearing the exclusions have their `handle_action` effect |
| Controller.App.HandleDetailsAction | src/app/mod.rs:544-561 | opening, closing and scrolling the details popup have their `handle_action` effect, and only opening requests details |
| Controller.App.ScrollDetailsPage | src/app/mod.rs:560-561 | the details page scrolls move by 10 lines, with their `handle_action` effect |
| Controller.App.HandleTableAction | src/app/mod.rs:551-556 | the sort and filter-editor actions have their `handle_action` effect |
| Controller.App.HandleSettingsAction | src/app/mod.rs:529-550 | quitting, the help popup, the layout toggles, pausing, the refresh steps and the colormap steps have their `handle_action` effect |
| EventLoop.MapKeyToAction | src/main.rs:140-206 | the help popup takes keys first, then the details popup, then the filter editor (which only knows Ctrl-U); each mode yields only its own actions, and normal mode never yields a popup or editor action |
| EventLoop.NormalKey | src/main.rs:173-205 | the normal-mode table never yields a popup or editor action |
| EventLoop.NormalChar | src/main.rs:173-205 | the character keys of normal mode never yield a popup or editor action |
| EventLoop.ControlMattersOnlyForPagingAndClear | src/main.rs:140-206 | Control changes the outcome only for `b`, `f` and `u` |
| EventLoop.NormalModeRefreshKeys | src/main.rs:184-185 | `+` and `=` shorten the interval, `-` and `_` lengthen it, with or without Control |
| EventLoop.NormalModePagingKeys | src/main.rs:194-201 | the page keys always page, while `b` and `f` page only with Control |
| EventLoop.HandleKey | src/main.rs:112-127 | only presses count; a routed key has exactly the effect of its action; with the filter editor open, Esc and Enter leave it with the text and compiled filter kept, and any other key makes the text what the input widget gives and recompiles it, changing nothing else; any other key changes nothing; at most one mode stays open |
| EventLoop.DispatchRouted | src/main.rs:113-114 | a routed action has its `handle_action` effect, and since the router opens a popup or the editor only when none is open, at most one stays open |
| EventLoop.EditFilter | src/main.rs:121-124 | the text becomes what the input widget made of the key, the editor stays open, and the cached filter is what compiling the new text gives: nothing for an empty text, else the filter or the compiler's message |
| EventLoop.PollTurn | src/main.rs:98-105 | the fetch mailbox is drained: a delivered result ends the fetch at `now` with its error, or with its health and the error cleared, and an empty one keeps table, error and loading flag; the details mailbox is drained through its four cases; the spinner advances exactly when no result arrived and a fetch was in flight; no setting, mode flag, sort or filter changes |
| EventLoop.KeyTurn | src/main.rs:110-129 | no key changes nothing; a routed press has its action's effect on the settings and the filter editor, and only `ShowDetails` requests details; an unrouted key with the editor closed changes nothing; in the editor Esc and Enter close it with the filter kept and any other press edits and recompiles the text; only opening and closing the popup touch the details content; nothing the fetch feeds changes |
| EventLoop.StartIfDue | src/main.rs:132-134 | a fetch starts exactly when one is due and none is in flight, changing only the loading flag and the fetch start |
| EventLoop.Step | src/main.rs:95-134 | one turn keeps the invariant and at most one open mode; a delivered fetch result ends the fetch at `now` and stores its error, or its health with the error cleared; the spinner advances exactly when no result arrived and a fetch was in flight; a routed key press has its action's effect on the settings (so `Quit` stops the loop) and on the filter editor, and only `ShowDetails` requests details; in the editor Esc and Enter close it with the filter kept and any other press makes the text what the input widget gives and recompiles it; without a key, or with an unrouted key and the editor closed, no request is made and settings, sort and filter are untouched; with neither a result nor a key the table and error are kept; unless the key opens or closes the popup, the details mailbox is drained through its four cases; a fetch starts exactly when one is due and none is in flight |
| EventLoop.Run | src/main.rs:93-138 | the loop keeps the invariant and at most one open mode, and stops early only when the app stops running |

## Left out

- Terminal rendering (the ratatui widgets, layout, theme, `Colormap::color_at`, the render-time scroll clamps) is UI and not part of this model. The drawing call inside `run` is omitted.
- HTTP, authentication, TLS, JSON decoding and URL building are left out. The sub-responses are inputs, and a URL-join failure is the `joinError` input.
- The tokio tasks, the `Mutex` around the client and the channels are left out. Each background result is a `Mailbox` value supplied per turn; `join!` of the details requests is the tuple of sub-responses.
- The jq compiler is the `Compiler` parameter, and running a compiled filter is observed only as "yields output or not". The text-input widget is the `InputEditor` parameter.
- The display formatting functions are left out: the human-readable sizes and rates, `fetch_duration_display`, `total_cluster_rate_human`, `rate_history_vec` and `excluded_count`. They only format or count state that is modelled.
- AppLogic.PushHistory: the history stores the total as a real. The source truncates it with `as u64`, and that truncation only affects display.
- Floating point is modelled by reals: there is no rounding, NaN or infinity, and `partial_cmp` never fails.
- IndexDetailsFetch.FetchIndexDetails: the creation date is kept as the parsed millisecond value. The chrono calendar rendering is not modelled, and neither is its range check: `DateTime::from_timestamp_millis` gives no date for a millisecond value outside chrono's supported years, where the model still gives `Some(ms)`.
- UiTypes.ToLower: lower-casing is ASCII only; Unicode case mapping is not modelled.
- Stats.ComputeRates: the order of the rows is any order, as `HashMap` iteration order is unspecified. Which order a given run produces is not modelled.
- Controller.App.MoveSelection: the selection and delta are unbounded integers. The source's `as i32` conversions would wrap only for views over two billion rows.
- EventLoop.Step: each turn reads one clock value `now` for the whole turn. The source reads the clock separately in each call.
- EventLoop.Step: a routed key's effect on the selection, the table order and the details scroll is not restated over the whole turn. It is stated by HandleKey against the state after both mailboxes are drained, because the poll may replace the table the selection refers to.
- EventLoop.MapKeyToAction: of the key modifiers only Control is modelled. Key codes other than the ones the router names are `Other`.
- EventLoop.Run: the endless loop is driven by a finite script of turns. The 50 ms input timeout is not modelled; a turn without a key is `key == None`.
- AppLogic.View: its own contract states only the length bound. Order and membership are stated by ViewAppend, ViewSingle and ViewMembership.
- Command-line parsing, process setup and the error enum's display text (src/main.rs:22-91, src/error.rs) are not part of this model. Errors are carried as strings.
