/**
 * The popup lifecycle coordinator of background.js: the tracked window and tab sets as
 * fields of one object, one method per host event, and the routing of inbound messages.
 * Host calls are not made here: their answers come in as parameters (the anchor window,
 * the stored preferences, the reply to `windows.create`, the tabs that still exist) and
 * the requests the handlers issue (create, update, remove, inject) are returned.
 */
module Background {
  import opened Wrappers
  import opened Geometry
  import opened PopupUrl
  import opened Preferences
  import opened Registry
  import opened OrderedSet

  /** The `windows.create` request of `openCenteredPopupWithFlag`; its type is always `popup`. */
  datatype CreateRequest = CreateRequest(url: string, rect: Rect)

  /** A `windows.update` request that moves and resizes a window. */
  datatype WindowUpdate = WindowUpdate(windowId: int, rect: Rect)

  const TOOLBAR_SCRIPT: string := "toolbar_inject.js"

  /** The two best-effort requests that put the toolbar into a loaded popup tab. */
  datatype InjectRequest =
    | ExecuteScript(tabId: int, file: string)
    | InsertToolbarCss(tabId: int)

  /** A runtime message from a content script or from the toolbar; `""` stands for a missing or empty `url`. */
  datatype Message = Message(action: string, url: string, isCurrentlyMaximized: Option<bool>)

  /** Which branch of the message listener a message takes. */
  datatype Route =
    | OpenPopupRoute(url: string)
    | MaximizeRoute(windowId: int, wasMaximized: bool)
    | OpenInNewTabRoute(url: string)
    | OpenOptionsRoute
    | Ignored

  /**
   * The message listener's dispatch. `senderWindow` is the sender tab's window, missing when
   * the sender is not a tab. A maximize request is honoured only with a sender window, and
   * it counts as "currently maximised" only when the flag is the boolean `true`.
   */
  function RouteMessage(msg: Message, senderWindow: Option<int>): (r: Route)
    ensures r.OpenPopupRoute? <==> msg.action == "open-popup" && msg.url != ""
    ensures r.OpenPopupRoute? ==> r.url == msg.url
    ensures r.MaximizeRoute? <==> msg.action == "maximize-window" && senderWindow.Some?
    ensures r.MaximizeRoute? ==>
              r.windowId == senderWindow.value && (r.wasMaximized <==> msg.isCurrentlyMaximized == Some(true))
    ensures r.OpenInNewTabRoute? <==> msg.action == "open-in-new-tab" && msg.url != ""
    ensures r.OpenInNewTabRoute? ==> r.url == msg.url
    ensures r.OpenOptionsRoute? <==> msg.action == "open-options"
  {
    if msg.action == "open-popup" && msg.url != "" then OpenPopupRoute(msg.url)
    else if msg.action == "maximize-window" && senderWindow.Some? then
      MaximizeRoute(senderWindow.value, msg.isCurrentlyMaximized == Some(true))
    else if msg.action == "open-in-new-tab" && msg.url != "" then OpenInNewTabRoute(msg.url)
    else if msg.action == "open-options" then OpenOptionsRoute
    else Ignored
  }

  /**
   * The maximize branch: a window that is not maximised is stretched over the available
   * screen; a maximised one is given the stored size again, centred on the screen. The
   * coordinator keeps no maximize state of its own: the caller's flag decides.
   */
  function MaximizeUpdate(windowId: int, wasMaximized: bool, screen: Screen, store: Store): (r: WindowUpdate)
    ensures r.windowId == windowId
    ensures !wasMaximized ==> r.rect == Rect(0, 0, screen.availWidth, screen.availHeight)
    ensures wasMaximized ==> r.rect.width == PopupSize(store).width && r.rect.height == PopupSize(store).height
    ensures wasMaximized ==>
              2 * r.rect.left <= screen.availWidth - r.rect.width < 2 * r.rect.left + 2 &&
              2 * r.rect.top <= screen.availHeight - r.rect.height < 2 * r.rect.top + 2
  {
    if wasMaximized then WindowUpdate(windowId, RestoredRect(screen, PopupSize(store)))
    else WindowUpdate(windowId, MaximizedRect(screen))
  }

  /** What handling one message asks of the host. */
  datatype MessageEffect =
    | CreatePopup(request: CreateRequest)
    | UpdateWindow(update: WindowUpdate)
    | PassThrough(route: Route)

  /** The window sequence after the host's reply to `windows.create` is registered. */
  function WindowsAfterCreate(windows: seq<int>, outcome: CreateOutcome): seq<int>
  {
    if outcome.Created? && outcome.windowId.Some? then Add(windows, outcome.windowId.value) else windows
  }

  /** The tab sequence after the host's reply to `windows.create` is registered. */
  function TabsAfterCreate(tabs: seq<int>, outcome: CreateOutcome): seq<int>
  {
    if outcome.Created? && outcome.tabIds.Some? && |outcome.tabIds.value| > 0
    then Add(tabs, outcome.tabIds.value[0]) else tabs
  }

  /**
   * The coordinator's state: `trackedPopupWindows` and `trackedPopupTabs`, each a JavaScript
   * `Set` kept as a duplicate-free sequence in insertion order.
   */
  class Coordinator {
    var trackedWindows: seq<int>
    var trackedTabs: seq<int>

    ghost predicate Valid()
      reads this
    {
      NoDuplicates(trackedWindows) && NoDuplicates(trackedTabs)
    }

    /** The registry as a value. */
    function State(): Tracked
      reads this
    {
      Tracked(Elements(trackedWindows), Elements(trackedTabs))
    }

    /** Both sets start empty when the background script loads. */
    constructor ()
      ensures Valid() && State() == Tracked({}, {})
    {
      trackedWindows := [];
      trackedTabs := [];
    }

    /**
     * `openCenteredPopupWithFlag`: requests a popup with the marked URL and the stored size
     * centred on the anchor window, then registers what the host's reply reports.
     */
    method OpenPopup(targetUrl: string, anchor: Rect, store: Store, outcome: CreateOutcome)
      returns (request: CreateRequest)
      requires Valid()
      modifies this
      ensures Valid()
      ensures request.url == WithMarker(targetUrl)
      ensures request.rect == CenteredRect(anchor, PopupSize(store))
      ensures State() == AfterCreate(old(State()), outcome)
      ensures trackedWindows == WindowsAfterCreate(old(trackedWindows), outcome)
      ensures trackedTabs == TabsAfterCreate(old(trackedTabs), outcome)
    {
      var size := PopupSize(store);
      var left := anchor.left + HalfFloor(anchor.width - size.width);
      var top := anchor.top + HalfFloor(anchor.height - size.height);
      var sep := if '?' in targetUrl then "&" else "?";
      request := CreateRequest(targetUrl + sep + MARKER_KEY + "=" + MARKER_VALUE,
                               Rect(left, top, size.width, size.height));
      match outcome
      case CreateFailed =>
      case Created(windowId, tabIds) =>
        if windowId.Some? {
          trackedWindows := Add(trackedWindows, windowId.value);
        }
        if tabIds.Some? && |tabIds.value| > 0 {
          trackedTabs := Add(trackedTabs, tabIds.value[0]);
        }
    }

    /**
     * The runtime message listener. `anchor`, `screen`, `store` and `outcome` are the host's
     * answers the chosen branch consumes; branches that do not need them ignore them.
     */
    method OnMessage(msg: Message, senderWindow: Option<int>, anchor: Rect, screen: Screen,
                     store: Store, outcome: CreateOutcome)
      returns (effect: MessageEffect)
      requires Valid()
      modifies this
      ensures Valid()
      ensures RouteMessage(msg, senderWindow).OpenPopupRoute? ==>
                effect == CreatePopup(CreateRequest(WithMarker(msg.url), CenteredRect(anchor, PopupSize(store)))) &&
                State() == AfterCreate(old(State()), outcome) &&
                trackedWindows == WindowsAfterCreate(old(trackedWindows), outcome) &&
                trackedTabs == TabsAfterCreate(old(trackedTabs), outcome)
      ensures RouteMessage(msg, senderWindow).MaximizeRoute? ==>
                effect == UpdateWindow(MaximizeUpdate(senderWindow.value, msg.isCurrentlyMaximized == Some(true), screen, store))
      ensures !RouteMessage(msg, senderWindow).OpenPopupRoute? && !RouteMessage(msg, senderWindow).MaximizeRoute? ==>
                effect == PassThrough(RouteMessage(msg, senderWindow))
      ensures !RouteMessage(msg, senderWindow).OpenPopupRoute? ==>
                trackedWindows == old(trackedWindows) && trackedTabs == old(trackedTabs)
    {
      var route := RouteMessage(msg, senderWindow);
      match route
      case OpenPopupRoute(url) =>
        var request := OpenPopup(url, anchor, store, outcome);
        effect := CreatePopup(request);
      case MaximizeRoute(windowId, wasMaximized) =>
        effect := UpdateWindow(MaximizeUpdate(windowId, wasMaximized, screen, store));
      case _ =>
        effect := PassThrough(route);
    }

    /** `tabs.onUpdated`: only a tracked tab that has finished loading gets the toolbar. */
    method OnTabUpdated(tabId: int, status: Option<string>) returns (requests: seq<InjectRequest>)
      ensures requests != [] <==> tabId in State().tabs && status == Some("complete")
      ensures requests != [] ==> requests == [ExecuteScript(tabId, TOOLBAR_SCRIPT), InsertToolbarCss(tabId)]
    {
      requests := [];
      if tabId !in trackedTabs {
        return;
      }
      if status == Some("complete") {
        requests := [ExecuteScript(tabId, TOOLBAR_SCRIPT), InsertToolbarCss(tabId)];
      }
    }

    /** `tabs.onRemoved`. */
    method OnTabRemoved(tabId: int)
      requires Valid()
      modifies this
      ensures Valid()
      ensures State() == AfterTabRemoved(old(State()), tabId)
      ensures trackedTabs == Delete(old(trackedTabs), tabId) && trackedWindows == old(trackedWindows)
    {
      if tabId in trackedTabs {
        trackedTabs := Delete(trackedTabs, tabId);
      }
    }

    /**
     * `windows.onRemoved`: discards a tracked window and then checks every tab tracked at that
     * moment, in insertion order, discarding those not in `alive`. Returns the tab IDs whose
     * existence is checked.
     */
    method OnWindowRemoved(windowId: int, alive: set<int>) returns (checked: seq<int>)
      requires Valid()
      modifies this
      ensures Valid()
      ensures State() == AfterWindowRemoved(old(State()), windowId, alive)
      ensures checked == if windowId in old(State()).windows then old(trackedTabs) else []
      ensures windowId in old(State()).windows ==>
                trackedWindows == Delete(old(trackedWindows), windowId) &&
                trackedTabs == Retain(old(trackedTabs), alive)
      ensures windowId !in old(State()).windows ==>
                trackedWindows == old(trackedWindows) && trackedTabs == old(trackedTabs)
    {
      checked := [];
      if windowId in trackedWindows {
        trackedWindows := Delete(trackedWindows, windowId);
        checked := SweepTabs(alive);
        RetainElements(checked, alive);
      }
    }

    /**
     * The reconciliation sweep: checks every tracked tab in insertion order and discards
     * those that are not in `alive`. Returns the tabs checked.
     */
    method SweepTabs(alive: set<int>) returns (checked: seq<int>)
      requires NoDuplicates(trackedTabs)
      modifies this
      ensures NoDuplicates(trackedTabs)
      ensures checked == old(trackedTabs)
      ensures trackedTabs == Retain(old(trackedTabs), alive)
      ensures trackedWindows == old(trackedWindows)
    {
      checked := [];
      var snapshot, tabs := trackedTabs, trackedTabs;
      var i := 0;
      while i < |snapshot|
        invariant 0 <= i <= |snapshot|
        invariant tabs == Retain(snapshot[..i], alive) + snapshot[i..]
        invariant NoDuplicates(tabs)
        invariant checked == snapshot[..i]
        modifies {}
      {
        var tabId := snapshot[i];
        ghost var done, todo := snapshot[..i], snapshot[i..];
        assert done + [tabId] == snapshot[..i + 1];
        assert todo[1..] == snapshot[i + 1..];
        RetainStep(done, todo, alive);
        checked := checked + [tabId];
        if tabId !in alive {
          tabs := Delete(tabs, tabId);
        }
        i := i + 1;
      }
      assert snapshot[..i] == snapshot;
      assert snapshot[i..] == [];
      trackedTabs := tabs;
    }

    /** Closes and forgets every tracked window in insertion order, then forgets every tracked tab. */
    method CloseAllPopups() returns (removed: seq<int>)
      requires Valid()
      modifies this
      ensures Valid()
      ensures trackedWindows == [] && trackedTabs == []
      ensures removed == old(trackedWindows)
    {
      removed := [];
      var snapshot := trackedWindows;
      var i := 0;
      while i < |snapshot|
        invariant 0 <= i <= |snapshot|
        invariant trackedWindows == snapshot[i..]
        invariant NoDuplicates(trackedWindows)
        invariant removed == snapshot[..i]
      {
        var windowId := snapshot[i];
        removed := removed + [windowId];
        DeleteFirst(trackedWindows);
        trackedWindows := Delete(trackedWindows, windowId);
        i := i + 1;
      }
      trackedTabs := [];
    }

    /**
     * `windows.onFocusChanged`: when the focus goes to no window or to a window that is not a
     * tracked popup, one remove request is issued per tracked window and both sets are
     * cleared; focus on a tracked popup does nothing. Returns the windows to remove.
     */
    method OnFocusChanged(focused: int) returns (removed: seq<int>)
      requires Valid()
      modifies this
      ensures Valid()
      ensures State() == AfterFocusChanged(old(State()), focused)
      ensures FocusLeftPopups(old(State()), focused) ==>
                removed == old(trackedWindows) && |removed| == |old(State()).windows|
      ensures !FocusLeftPopups(old(State()), focused) ==> removed == []
      ensures FocusLeftPopups(old(State()), focused) ==> trackedWindows == [] && trackedTabs == []
      ensures !FocusLeftPopups(old(State()), focused) ==>
                trackedWindows == old(trackedWindows) && trackedTabs == old(trackedTabs)
    {
      DistinctLength(trackedWindows);
      if focused == WINDOW_ID_NONE {
        removed := CloseAllPopups();
        return;
      }
      if focused !in trackedWindows {
        removed := CloseAllPopups();
      } else {
        removed := [];
      }
    }
  }

  /** Opening a link: the stored 600 by 800 size centred on a 1200 by 900 window at (100, 50). */
  method OpenPopupScenario()
  {
    var c := new Coordinator();
    var request := c.OpenPopup("https://x/y", Rect(100, 50, 1200, 900), map[], Created(Some(7), Some([70])));
    EmptyStoreDefaults();
    PlainUrlGetsQuery();
    assert request == CreateRequest("https://x/y?littlefox=1", Rect(400, 100, 600, 800));
    assert c.State() == Tracked({7}, {70});
  }

  /** Focusing another window closes the single popup exactly once and clears both sets. */
  method FocusLossScenario()
  {
    var c := new Coordinator();
    var _ := c.OpenPopup("https://x/y", Rect(0, 0, 1000, 1000), map[], Created(Some(1), Some([10])));
    var removed := c.OnFocusChanged(2);
    assert removed == [1];
    assert c.State() == Tracked({}, {});
  }

  /** Closing a popup whose tab is already gone leaves nothing tracked. */
  method ManualCloseScenario()
  {
    var c := new Coordinator();
    var _ := c.OpenPopup("https://x/y", Rect(0, 0, 1000, 1000), map[], Created(Some(1), Some([10])));
    var _ := c.OnWindowRemoved(1, {});
    assert 10 !in c.State().tabs;
    assert c.State() == Tracked({}, {});
  }
}
