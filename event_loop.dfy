/// The terminal front end: the key router and one turn of the run loop,
/// which polls both mailboxes, advances the spinner, dispatches at most one
/// key press and starts a fetch when one is due.
module EventLoop {
  import opened Base
  import opened Models
  import opened Actions
  import opened Filter
  import opened DetailsPopup
  import opened Controller
  import AppLogic

  /// The keys the router distinguishes; every other key is `Other`.
  datatype KeyCode =
    | Char(c: char)
    | Esc | Enter | Up | Down | Left | Right | PageUp | PageDown | Home | End
    | Other(code: nat)

  datatype KeyEventKind = Press | Repeat | Release

  /// A key event; of the modifiers only Control matters to the router.
  datatype KeyEvent = KeyEvent(code: KeyCode, ctrl: bool, kind: KeyEventKind)

  /// The input widget's handling of a key: the new filter text.
  type InputEditor = (string, KeyEvent) -> string

  /// What the environment supplies to one turn of the loop: the clock, the
  /// two mailboxes and the key event read, if any.
  datatype Tick = Tick(
    now: nat,
    fetch: Mailbox<FetchResult>,
    detailsMail: Mailbox<DetailsResult>,
    key: Option<KeyEvent>)

  predicate IsHelpAction(a: Action) {
    a.ToggleHelp? || a.HelpScrollUp? || a.HelpScrollDown?
  }

  predicate IsDetailsPopupAction(a: Action) {
    a.CloseDetails? || a.DetailsScrollUp? || a.DetailsScrollDown?
    || a.DetailsScrollPageUp? || a.DetailsScrollPageDown?
  }

  /// The actions that only make sense inside a popup or the filter editor.
  predicate IsModalAction(a: Action) {
    IsDetailsPopupAction(a) || a.HelpScrollUp? || a.HelpScrollDown? || a.ClearFilter? || a.ExitFilterMode?
  }

  /// `map_key_to_action`: the help popup takes every key first, then the
  /// details popup, then the filter editor, and only then the normal keys.
  function MapKeyToAction(showHelp: bool, showDetails: bool, filterActive: bool, key: KeyEvent): (r: Option<Action>)
    ensures showHelp ==> r.None? || IsHelpAction(r.value)
    ensures !showHelp && showDetails ==> r.None? || IsDetailsPopupAction(r.value)
    ensures !showHelp && !showDetails && filterActive ==>
      r == if key.ctrl && key.code == Char('u') then Some(ClearFilter) else None
    ensures !showHelp && !showDetails && !filterActive ==> r.None? || !IsModalAction(r.value)
    ensures r == Some(ToggleHelp) ==> showHelp || (!showDetails && !filterActive)
    ensures r == Some(ShowDetails) || r == Some(EnterFilterMode) ==> !showHelp && !showDetails && !filterActive
  {
    if showHelp then
      match key.code
      case Esc | Char('q') | Char('?') | Enter => Some(ToggleHelp)
      case Up | Char('k') => Some(HelpScrollUp)
      case Down | Char('j') => Some(HelpScrollDown)
      case _ => None
    else if showDetails then
      match key.code
      case Esc | Enter | Char('q') => Some(CloseDetails)
      case Up | Char('k') => Some(DetailsScrollUp)
      case Down | Char('j') => Some(DetailsScrollDown)
      case PageUp => Some(DetailsScrollPageUp)
      case PageDown => Some(DetailsScrollPageDown)
      case _ => None
    else if filterActive then
      if key.code == Char('u') && key.ctrl then Some(ClearFilter) else None
    else
      NormalKey(key)
  }

  /// The normal-mode table. Control is ignored except on `b` and `f`,
  /// which page only with Control held.
  function NormalKey(key: KeyEvent): (r: Option<Action>)
    ensures r.None? || !IsModalAction(r.value)
  {
    match key.code
    case Char(c) => NormalChar(c, key.ctrl)
    case Esc => Some(Quit)
    case Enter => Some(ShowDetails)
    case Right => Some(NextColumn)
    case Left => Some(PrevColumn)
    case Up => Some(SelectUp)
    case Down => Some(SelectDown)
    case PageUp => Some(SelectPageUp)
    case PageDown => Some(SelectPageDown)
    case Home => Some(SelectFirst)
    case End => Some(SelectLast)
    case Other(_) => None
  }

  /// The character keys of the normal-mode table.
  function NormalChar(c: char, ctrl: bool): (r: Option<Action>)
    ensures r.None? || !IsModalAction(r.value)
  {
    match c
    case 'q' => Some(Quit)
    case '?' => Some(ToggleHelp)
    case ' ' => Some(TogglePause)
    case '/' => Some(EnterFilterMode)
    case 'x' => Some(ToggleExclude)
    case 'X' => Some(ClearExclusions)
    case 'l' => Some(NextColumn)
    case 'h' => Some(PrevColumn)
    case 'r' => Some(ToggleSortOrder)
    case '+' | '=' => Some(DecreaseRefreshRate)
    case '-' | '_' => Some(IncreaseRefreshRate)
    case '1' => Some(ToggleGraph)
    case '2' => Some(ToggleHealth)
    case '3' => Some(ToggleIndices)
    case '.' => Some(ToggleSystemIndices)
    case 'c' => Some(NextColormap)
    case 'C' => Some(PrevColormap)
    case 'k' => Some(SelectUp)
    case 'j' => Some(SelectDown)
    case 'b' => if ctrl then Some(SelectPageUp) else None
    case 'f' => if ctrl then Some(SelectPageDown) else None
    case 'g' => Some(SelectFirst)
    case 'G' => Some(SelectLast)
    case _ => None
  }

  /// Control changes the outcome only for `b` and `f` in normal mode and
  /// `u` in the filter editor.
  lemma ControlMattersOnlyForPagingAndClear(showHelp: bool, showDetails: bool, filterActive: bool, key: KeyEvent)
    requires key.code != Char('b') && key.code != Char('f') && key.code != Char('u')
    ensures MapKeyToAction(showHelp, showDetails, filterActive, key)
         == MapKeyToAction(showHelp, showDetails, filterActive, key.(ctrl := !key.ctrl))
  {
  }

  /// In normal mode `+` and `=` shorten the interval and `-` and `_`
  /// lengthen it, with or without Control.
  lemma NormalModeRefreshKeys(ctrl: bool, kind: KeyEventKind)
    ensures MapKeyToAction(false, false, false, KeyEvent(Char('+'), ctrl, kind)) == Some(DecreaseRefreshRate)
    ensures MapKeyToAction(false, false, false, KeyEvent(Char('='), ctrl, kind)) == Some(DecreaseRefreshRate)
    ensures MapKeyToAction(false, false, false, KeyEvent(Char('-'), ctrl, kind)) == Some(IncreaseRefreshRate)
    ensures MapKeyToAction(false, false, false, KeyEvent(Char('_'), ctrl, kind)) == Some(IncreaseRefreshRate)
  {
  }

  /// In normal mode the page keys always page, while `b` and `f` page only
  /// with Control held.
  lemma NormalModePagingKeys(ctrl: bool, kind: KeyEventKind)
    ensures MapKeyToAction(false, false, false, KeyEvent(PageUp, ctrl, kind)) == Some(SelectPageUp)
    ensures MapKeyToAction(false, false, false, KeyEvent(PageDown, ctrl, kind)) == Some(SelectPageDown)
    ensures MapKeyToAction(false, false, false, KeyEvent(Char('b'), ctrl, kind)) == if ctrl then Some(SelectPageUp) else None
    ensures MapKeyToAction(false, false, false, KeyEvent(Char('f'), ctrl, kind)) == if ctrl then Some(SelectPageDown) else None
  {
  }

  /// At most one of the help popup, the details popup and the filter
  /// editor is open.
  predicate AtMostOneMode(app: App)
    reads app, app.details, app.filter
  {
    && !(app.showHelpPopup && app.details.showPopup)
    && !(app.showHelpPopup && app.filter.active)
    && !(app.details.showPopup && app.filter.active)
  }

  /// The key handling of `run`: only presses count; a routed key has the
  /// effect of its action; with the filter editor open, Esc and Enter leave
  /// it and any other key edits the text, which is then recompiled; any
  /// other key changes nothing.
  method HandleKey(app: App, key: KeyEvent, edit: InputEditor, compile: Compiler) returns (request: Option<IndexRate>)
    requires app.Valid()
    modifies app, app.sort, app.filter, app.details
    ensures app.Valid()
    ensures old(AtMostOneMode(app)) ==> AtMostOneMode(app)
    ensures request.Some? ==>
      MapKeyToAction(old(app.showHelpPopup), old(app.details.showPopup), old(app.filter.active), key) == Some(ShowDetails)
    ensures key.kind != Press ==>
      && request.None?
      && unchanged(app) && unchanged(app.sort) && unchanged(app.filter) && unchanged(app.details)
    ensures
      var routed := MapKeyToAction(old(app.showHelpPopup), old(app.details.showPopup), old(app.filter.active), key);
      key.kind == Press && routed.Some? ==> app.ActionEffect(routed.value, request)
    ensures
      var routed := MapKeyToAction(old(app.showHelpPopup), old(app.details.showPopup), old(app.filter.active), key);
      key.kind == Press && routed.None? && !old(app.filter.active) ==>
        && request.None?
        && unchanged(app) && unchanged(app.sort) && unchanged(app.filter) && unchanged(app.details)
    ensures
      var routed := MapKeyToAction(old(app.showHelpPopup), old(app.details.showPopup), old(app.filter.active), key);
      key.kind == Press && routed.None? && old(app.filter.active) && (key.code == Esc || key.code == Enter) ==>
        && !app.filter.active
        && app.ActionEffect(ExitFilterMode, request)
    ensures
      var routed := MapKeyToAction(old(app.showHelpPopup), old(app.details.showPopup), old(app.filter.active), key);
      key.kind == Press && routed.None? && old(app.filter.active) && key.code != Esc && key.code != Enter ==>
        && request.None?
        && app.filter.active
        && app.filter.input == edit(old(app.filter.input), key)
        && app.filter.CompiledFrom(compile)
        && unchanged(app) && unchanged(app.sort) && unchanged(app.details)
  {
    request := None;
    if key.kind != Press {
      return;
    }
    var routed := MapKeyToAction(app.showHelpPopup, app.details.showPopup, app.filter.active, key);
    match routed {
      case Some(action) =>
        request := DispatchRouted(app, key, action);
      case None =>
        if app.filter.active {
          match key.code {
            case Esc | Enter =>
              request := app.HandleAction(ExitFilterMode);
            case _ =>
              EditFilter(app, key, edit, compile);
          }
        }
    }
  }

  /// A routed key: its action runs, and as the router only opens a popup
  /// or the editor when no other one is open, at most one stays open.
  method DispatchRouted(app: App, key: KeyEvent, action: Action) returns (request: Option<IndexRate>)
    requires app.Valid()
    requires MapKeyToAction(app.showHelpPopup, app.details.showPopup, app.filter.active, key) == Some(action)
    modifies app, app.sort, app.filter, app.details
    ensures app.Valid()
    ensures app.ActionEffect(action, request)
    ensures old(AtMostOneMode(app)) ==> AtMostOneMode(app)
  {
    request := app.HandleAction(action);
  }

  /// The input widget edits the text and the filter is recompiled from it.
  method EditFilter(app: App, key: KeyEvent, edit: InputEditor, compile: Compiler)
    requires app.Valid()
    modifies app.filter
    ensures app.Valid()
    ensures app.filter.input == edit(old(app.filter.input), key)
    ensures app.filter.active == old(app.filter.active)
    ensures app.filter.CompiledFrom(compile)
  {
    app.filter.SetInput(edit(app.filter.input, key));
    app.filter.Recompile(compile);
  }

  /// The action a turn's key event is routed to: only a key press is
  /// routed, under the mode flags it finds.
  function TurnAction(showHelp: bool, showDetails: bool, filterActive: bool, key: Option<KeyEvent>): Option<Action> {
    if key.Some? && key.value.kind == Press then MapKeyToAction(showHelp, showDetails, filterActive, key.value) else None
  }

  /// The start of a turn: the fetch mailbox, then the details mailbox, are
  /// drained, and the spinner advances while a fetch is still in flight.
  /// No user setting, mode flag, sort setting or filter changes.
  method PollTurn(app: App, tick: Tick)
    requires app.Valid()
    modifies app, app.details
    ensures app.Valid()
    ensures app.UserUnchanged() && unchanged(app.sort) && unchanged(app.filter)
    ensures unchanged(app.details`showPopup, app.details`scroll)
    ensures tick.fetch.Empty? ==> app.indices == old(app.indices) && app.error == old(app.error) && app.loading == old(app.loading)
    ensures tick.fetch.Delivered? ==> !app.loading && app.lastRefresh == Some(tick.now)
    ensures tick.fetch.Delivered? && tick.fetch.content.Err? ==> app.error == Some(tick.fetch.content.error)
    ensures tick.fetch.Delivered? && tick.fetch.content.Ok? ==>
              app.clusterHealth == tick.fetch.content.value.1 && app.error == None
    ensures app.spinnerFrame ==
              if tick.fetch.Empty? && old(app.loading) then (old(app.spinnerFrame) + 1) % |AppLogic.SPINNER_FRAMES| else old(app.spinnerFrame)
    ensures DetailsPolled(app.details, tick.detailsMail)
  {
    app.PollFetchResult(tick.fetch, tick.now);
    app.PollDetailsResult(tick.detailsMail);
    app.TickSpinner();
  }

  /// What polling the details mailbox leaves in the popup: a delivered
  /// result ends the load with its data or its error, a closed channel ends
  /// it with the disconnect message, and an empty mailbox changes nothing.
  twostate predicate DetailsPolled(details: DetailsState, mailbox: Mailbox<DetailsResult>)
    reads details
  {
    match mailbox
    case Empty => unchanged(details`data, details`loading, details`error)
    case Delivered(result) =>
      && !details.loading
      && (if result.Ok? then details.data == Some(result.value) && details.error == None
          else details.data == old(details.data) && details.error == Some(result.error))
    case Disconnected =>
      !details.loading && details.data == old(details.data) && details.error == Some(DETAILS_DISCONNECTED)
  }

  /// The key half of a turn: the key read, if any, is handled. Nothing
  /// the background fetch feeds changes, except that a sort action
  /// re-sorts the table.
  method KeyTurn(app: App, key: Option<KeyEvent>, edit: InputEditor, compile: Compiler) returns (request: Option<IndexRate>)
    requires app.Valid()
    modifies app, app.sort, app.filter, app.details
    ensures app.Valid()
    ensures old(AtMostOneMode(app)) ==> AtMostOneMode(app)
    ensures unchanged(app`error, app`loading, app`spinnerFrame, app`lastRefresh, app`fetchStart, app`clusterHealth)
    ensures key.None? ==> request.None? && unchanged(app) && unchanged(app.sort) && unchanged(app.filter) && unchanged(app.details)
    ensures
      var routed := TurnAction(old(app.showHelpPopup), old(app.details.showPopup), old(app.filter.active), key);
      routed.Some? ==> app.SettingsEffect(routed.value) && app.FilterEffect(routed.value)
    ensures
      var routed := TurnAction(old(app.showHelpPopup), old(app.details.showPopup), old(app.filter.active), key);
      request.Some? ==> routed == Some(ShowDetails)
    ensures
      var routed := TurnAction(old(app.showHelpPopup), old(app.details.showPopup), old(app.filter.active), key);
      routed.None? && !old(app.filter.active) ==>
        request.None? && app.UserUnchanged() && unchanged(app.sort) && unchanged(app.filter)
    ensures
      var routed := TurnAction(old(app.showHelpPopup), old(app.details.showPopup), old(app.filter.active), key);
      key.Some? && key.value.kind == Press && routed.None? && old(app.filter.active) ==>
        if key.value.code == Esc || key.value.code == Enter then
          !app.filter.active && unchanged(app.filter`input, app.filter`compiled, app.filter`error)
        else
          && app.filter.active
          && app.filter.input == edit(old(app.filter.input), key.value)
          && app.filter.CompiledFrom(compile)
    ensures
      var routed := TurnAction(old(app.showHelpPopup), old(app.details.showPopup), old(app.filter.active), key);
      routed != Some(ShowDetails) && routed != Some(CloseDetails) ==>
        unchanged(app.details`data, app.details`loading, app.details`error)
  {
    request := None;
    if key.Some? {
      var routed := TurnAction(app.showHelpPopup, app.details.showPopup, app.filter.active, key);
      request := HandleKey(app, key.value, edit, compile);
      if routed.Some? {
        assert app.DetailsEffect(routed.value, request);
      }
    }
  }

  /// The end of a turn: a fetch starts when one is due and none is in
  /// flight; only the loading flag and the fetch start change.
  method StartIfDue(app: App, now: nat) returns (started: bool)
    modifies app
    ensures started ==> app.ShouldRefreshNow(now) && app.loading && app.fetchStart == Some(now)
    ensures !started ==> (!app.ShouldRefreshNow(now) || app.loading) && unchanged(app)
    ensures unchanged(app`indices, app`error, app`spinnerFrame, app`lastRefresh, app`rateHistory, app`lastFetchDuration, app`clusterHealth, app`indexRateHistory)
    ensures app.UserUnchanged()
  {
    started := false;
    if app.ShouldRefreshNow(now) && !app.loading {
      app.StartFetch(now);
      started := true;
    }
  }

  /// One turn of `run`: poll the fetch, poll the details, tick the
  /// spinner, handle the key read (if any), and start a fetch when one is
  /// due and none is in flight. Drawing is not modelled.
  method Step(app: App, tick: Tick, edit: InputEditor, compile: Compiler)
    returns (request: Option<IndexRate>, started: bool)
    requires app.Valid()
    modifies app, app.sort, app.filter, app.details
    ensures app.Valid()
    ensures old(AtMostOneMode(app)) ==> AtMostOneMode(app)
    ensures started ==> app.ShouldRefreshNow(tick.now) && app.loading && app.fetchStart == Some(tick.now)
    ensures !started ==> !app.ShouldRefreshNow(tick.now) || app.loading
    // A delivered fetch result ends that fetch and is applied.
    ensures tick.fetch.Delivered? ==> app.lastRefresh == Some(tick.now)
    ensures tick.fetch.Delivered? && tick.fetch.content.Err? ==> app.error == Some(tick.fetch.content.error)
    ensures tick.fetch.Delivered? && tick.fetch.content.Ok? ==>
              app.clusterHealth == tick.fetch.content.value.1 && app.error == None
    // The spinner advances exactly when no result arrived and a fetch was in flight.
    ensures app.spinnerFrame ==
              if tick.fetch.Empty? && old(app.loading) then (old(app.spinnerFrame) + 1) % |AppLogic.SPINNER_FRAMES| else old(app.spinnerFrame)
    // Without a key, the user's settings, sort and filter are untouched.
    ensures tick.key.None? ==> request.None? && app.UserUnchanged() && unchanged(app.sort) && unchanged(app.filter)
    // With no fetch result and no key, the table and the error are kept.
    ensures tick.fetch.Empty? && tick.key.None? ==> app.indices == old(app.indices) && app.error == old(app.error)
    // A routed key press has its action's effect on the settings and the filter editor.
    ensures
      var routed := TurnAction(old(app.showHelpPopup), old(app.details.showPopup), old(app.filter.active), tick.key);
      routed.Some? ==> app.SettingsEffect(routed.value) && app.FilterEffect(routed.value)
    ensures
      var routed := TurnAction(old(app.showHelpPopup), old(app.details.showPopup), old(app.filter.active), tick.key);
      request.Some? ==> routed == Some(ShowDetails)
    // An unrouted key with the editor closed changes no setting, sort or filter.
    ensures
      var routed := TurnAction(old(app.showHelpPopup), old(app.details.showPopup), old(app.filter.active), tick.key);
      routed.None? && !old(app.filter.active) ==>
        request.None? && app.UserUnchanged() && unchanged(app.sort) && unchanged(app.filter)
    // In the editor, Esc and Enter leave it with the filter kept; any other
    // key press edits the text and recompiles it.
    ensures
      var routed := TurnAction(old(app.showHelpPopup), old(app.details.showPopup), old(app.filter.active), tick.key);
      tick.key.Some? && tick.key.value.kind == Press && routed.None? && old(app.filter.active) ==>
        if tick.key.value.code == Esc || tick.key.value.code == Enter then
          !app.filter.active && unchanged(app.filter`input, app.filter`compiled, app.filter`error)
        else
          && app.filter.active
          && app.filter.input == edit(old(app.filter.input), tick.key.value)
          && app.filter.CompiledFrom(compile)
    // The details mailbox is drained, unless the key opens or closes the popup.
    ensures
      var routed := TurnAction(old(app.showHelpPopup), old(app.details.showPopup), old(app.filter.active), tick.key);
      routed != Some(ShowDetails) && routed != Some(CloseDetails) ==> DetailsPolled(app.details, tick.detailsMail)
  {
    PollTurn(app, tick);
    request := KeyTurn(app, tick.key, edit, compile);
    started := StartIfDue(app, tick.now);
  }

  /// `run`: one fetch up front at time `start`, then turns while the app
  /// is running. The
  /// endless loop is driven by a finite script of turns; it stops early
  /// exactly when the app stops running.
  method Run(app: App, start: nat, script: seq<Tick>, edit: InputEditor, compile: Compiler) returns (turns: nat)
    requires app.Valid() && AtMostOneMode(app)
    modifies app, app.sort, app.filter, app.details
    ensures app.Valid() && AtMostOneMode(app)
    ensures turns <= |script|
    ensures turns < |script| ==> !app.running
  {
    app.StartFetch(start);
    turns := 0;
    while turns < |script| && app.running
      invariant turns <= |script|
      invariant app.Valid() && AtMostOneMode(app)
    {
      var _, _ := Step(app, script[turns], edit, compile);
      turns := turns + 1;
    }
  }
}
