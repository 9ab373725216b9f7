/**
 * The popup registry of background.js as values: the two tracked ID sets and the change
 * each host event or host reply makes to them. The Coordinator class in background.dfy
 * carries the same sets as fields and is specified by these functions.
 */
module Registry {
  import opened Wrappers

  /** `browser.windows.WINDOW_ID_NONE`: the focus-changed value meaning "no window has focus". */
  const WINDOW_ID_NONE: int := -1

  /** `trackedPopupWindows` and `trackedPopupTabs`. */
  datatype Tracked = Tracked(windows: set<int>, tabs: set<int>)

  /**
   * The host's reply to `windows.create`: either the new window, whose `id` may be missing
   * (not a number) and whose `tabs` list may be missing or empty, or a failure.
   */
  datatype CreateOutcome =
    | Created(windowId: Option<int>, tabIds: Option<seq<int>>)
    | CreateFailed

  /** The window ID a reply registers, if any. */
  function RegisteredWindows(outcome: CreateOutcome): set<int>
  {
    if outcome.Created? && outcome.windowId.Some? then {outcome.windowId.value} else {}
  }

  /** The tab ID a reply registers, if any: the first tab of the new window. */
  function RegisteredTabs(outcome: CreateOutcome): set<int>
  {
    if outcome.Created? && outcome.tabIds.Some? && |outcome.tabIds.value| > 0
    then {outcome.tabIds.value[0]} else {}
  }

  /**
   * Registration after `windows.create` replies: a numeric window ID joins the window set,
   * the first tab (if the reply lists one) joins the tab set, nothing else changes, and a
   * failed creation changes nothing.
   */
  function AfterCreate(s: Tracked, outcome: CreateOutcome): (r: Tracked)
    ensures outcome.CreateFailed? ==> r == s
    ensures forall w :: w in r.windows <==> w in s.windows || (outcome.Created? && outcome.windowId == Some(w))
    ensures forall t :: t in r.tabs <==>
              t in s.tabs || (outcome.Created? && outcome.tabIds.Some? && outcome.tabIds.value != [] && outcome.tabIds.value[0] == t)
  {
    Tracked(s.windows + RegisteredWindows(outcome), s.tabs + RegisteredTabs(outcome))
  }

  /** `tabs.onRemoved`: the tab is no longer tracked; every other ID is kept as it was. */
  function AfterTabRemoved(s: Tracked, tabId: int): (r: Tracked)
    ensures tabId !in r.tabs
    ensures r.windows == s.windows
    ensures forall t :: t != tabId ==> (t in r.tabs <==> t in s.tabs)
  {
    if tabId in s.tabs then Tracked(s.windows, s.tabs - {tabId}) else s
  }

  /**
   * `windows.onRemoved`, with the reconciliation sweep done as one step: `alive` holds the
   * tab IDs for which `tabs.get` succeeds. A tracked window leaves the window set and
   * exactly the tracked tabs that no longer exist leave the tab set; an untracked window
   * changes nothing.
   */
  function AfterWindowRemoved(s: Tracked, windowId: int, alive: set<int>): (r: Tracked)
    ensures windowId !in s.windows ==> r == s
    ensures windowId in s.windows ==>
              (forall w :: w in r.windows <==> w in s.windows && w != windowId) &&
              (forall t :: t in r.tabs <==> t in s.tabs && t in alive)
  {
    if windowId in s.windows then Tracked(s.windows - {windowId}, s.tabs * alive) else s
  }

  /** The focus went to no window, or to a window that is not a tracked popup. */
  predicate FocusLeftPopups(s: Tracked, focused: int)
  {
    focused == WINDOW_ID_NONE || focused !in s.windows
  }

  /**
   * `windows.onFocusChanged`: when the focus leaves the popups every tracked window is
   * closed and both sets end empty; focus on a tracked popup changes nothing.
   */
  function AfterFocusChanged(s: Tracked, focused: int): (r: Tracked)
    ensures FocusLeftPopups(s, focused) ==> r.windows == {} && r.tabs == {}
    ensures !FocusLeftPopups(s, focused) ==> r == s
  {
    if FocusLeftPopups(s, focused) then Tracked({}, {}) else s
  }

  /** Removing the same tab twice is the same as removing it once. */
  lemma TabRemovedIdempotent(s: Tracked, tabId: int)
    ensures AfterTabRemoved(AfterTabRemoved(s, tabId), tabId) == AfterTabRemoved(s, tabId)
  {
  }

  /** The sweep is idempotent: the same window-removed event, delivered again, changes nothing more. */
  lemma WindowRemovedIdempotent(s: Tracked, windowId: int, alive: set<int>)
    ensures AfterWindowRemoved(AfterWindowRemoved(s, windowId, alive), windowId, alive)
         == AfterWindowRemoved(s, windowId, alive)
  {
  }

  /** A host event or host reply, with the host's answers that the handler consumes. */
  datatype Event =
    | PopupCreated(outcome: CreateOutcome)
    | TabUpdated(tabId: int, status: Option<string>)
    | TabRemoved(tabId: int)
    | WindowRemoved(windowId: int, alive: set<int>)
    | FocusChanged(focused: int)

  /** The registry after one event; a tab update never changes it. */
  function Step(s: Tracked, e: Event): (r: Tracked)
    ensures e.TabUpdated? ==> r == s
    ensures r.windows <= s.windows + EventWindows(e)
    ensures r.tabs <= s.tabs + EventTabs(e)
  {
    match e
    case PopupCreated(outcome) => AfterCreate(s, outcome)
    case TabUpdated(_, _) => s
    case TabRemoved(tabId) => AfterTabRemoved(s, tabId)
    case WindowRemoved(windowId, alive) => AfterWindowRemoved(s, windowId, alive)
    case FocusChanged(focused) => AfterFocusChanged(s, focused)
  }

  function EventWindows(e: Event): set<int>
  {
    if e.PopupCreated? then RegisteredWindows(e.outcome) else {}
  }

  function EventTabs(e: Event): set<int>
  {
    if e.PopupCreated? then RegisteredTabs(e.outcome) else {}
  }

  /** The registry after a sequence of events, in delivery order. */
  function Run(s: Tracked, events: seq<Event>): Tracked
    decreases |events|
  {
    if events == [] then s else Run(Step(s, events[0]), events[1..])
  }

  /** Every window ID registered by a successful creation among `events`. */
  function CreatedWindows(events: seq<Event>): set<int>
    decreases |events|
  {
    if events == [] then {} else EventWindows(events[0]) + CreatedWindows(events[1..])
  }

  /** Every tab ID registered by a successful creation among `events`. */
  function CreatedTabs(events: seq<Event>): set<int>
    decreases |events|
  {
    if events == [] then {} else EventTabs(events[0]) + CreatedTabs(events[1..])
  }

  /**
   * Registration is the only way into the tracked sets: after any sequence of events,
   * every tracked ID was tracked before or was registered by one of the creations.
   */
  lemma {:induction false} OnlyRegistrationAdds(s: Tracked, events: seq<Event>)
    ensures Run(s, events).windows <= s.windows + CreatedWindows(events)
    ensures Run(s, events).tabs <= s.tabs + CreatedTabs(events)
    decreases |events|
  {
    if events != [] {
      OnlyRegistrationAdds(Step(s, events[0]), events[1..]);
    }
  }

  /** In particular, starting from nothing, only windows this system created are ever tracked. */
  lemma OnlyCreatedWindowsTracked(events: seq<Event>)
    ensures Run(Tracked({}, {}), events).windows <= CreatedWindows(events)
    ensures Run(Tracked({}, {}), events).tabs <= CreatedTabs(events)
  {
    OnlyRegistrationAdds(Tracked({}, {}), events);
  }

  /**
   * A tab that a closed popup window leaves behind and that the existence check reports as
   * gone is no longer tracked once the sweep completes.
   */
  lemma StaleTabSwept(w: int, t: int, alive: set<int>)
    requires t !in alive
    ensures t !in AfterWindowRemoved(Tracked({w}, {t}), w, alive).tabs
    ensures AfterWindowRemoved(Tracked({w}, {t}), w, alive) == Tracked({}, {})
  {
  }
}
