# Little Fox popup coordinator — a Dafny model

Little Fox is a Firefox extension that opens a link in a small, centred popup window. It
keeps track of the popups it created and closes them all when the focus moves elsewhere.
Its background script, `background.js`, is the coordinator. It holds two sets of IDs
(`trackedPopupWindows`, `trackedPopupTabs`) and reacts to inbound messages and to the
browser's tab and window events. `toolbar_inject.js` adds a toolbar to each loaded popup.
One toolbar button reopens the page in a normal tab without the popup marker; another
toggles maximise. `options.js` is the settings page, which stores the preferred popup size.

This project models those three files:

- `geometry.dfy` (`Geometry`): the centred, maximised and restored rectangles, using floor division.
- `popup_url.dfy` (`PopupUrl`): the `littlefox=1` marker appended to every popup URL.
- `preferences.dfy` (`Preferences`): `browser.storage.local` as a map of integers, read with the 600/800 defaults.
- `ordered_set.dfy` (`OrderedSet`): a JavaScript `Set` as a duplicate-free sequence in insertion order. This is also the order that `Array.from` visits.
- `registry.dfy` (`Registry`): the two tracked sets as a value.
  - one function per handler, giving the new sets;
  - a trace semantics over event sequences, with the invariant that only popup creation adds IDs.
- `background.dfy` (`Background`): the coordinator as a class.
  - **State:** the two sets are fields.
  - **Handlers:** one method per host event, each specified by the `Registry` functions.
  - **Messages:** the message listener's routing, and the maximise/restore branch.
- `toolbar.dfy` (`Toolbar`):
  - the reopen-in-tab URL, with its round trip against the marker;
  - the maximise button's toggle flag;
  - the guard against injecting the toolbar twice.
- `options.dfy` (`Options`): the settings page as a class. It covers load, save (the 200 floor) and reset.

Each handler runs as one atomic step. The browser's answers come in as parameters:
- the anchor window's rectangle;
- the stored preferences;
- the reply to `windows.create`, modelled as `CreateOutcome`: a window whose `id` may be missing, whose `tabs` may be missing or empty, or a failure;
- the set of tabs for which `tabs.get` succeeds;
- the screen's available size.

The requests a handler makes are returned as values: the `windows.create` request, a
`windows.update` rectangle, the windows to remove, the tabs to check, and the script and
CSS injections.

Points where the model follows the code's exact behaviour:
- The separator test looks for a `?` anywhere in the link, fragment included. For a link with a fragment and no `littlefox` entry, the separator and marker therefore end up at the end of the fragment, and the reopened URL keeps them (`Toolbar.MarkerInsideFragment`).
- The focus handler deletes each window from the set as it issues that window's remove request, then clears the tab set.
- `WINDOW_ID_NONE` is Firefox's value, -1.
- The maximize flag counts as "currently maximised" only when it is the boolean `true`.

## Model

| member | source | states |
|---|---|---|
| `Geometry.HalfFloor` | background.js:26-27 | `Math.floor(d / 2)` is the unique q with 2q ≤ d < 2q + 2, for negative d too |
| `Geometry.CenteredRect` | background.js:26-27 | the popup has exactly the stored size; each offset from the anchor is the floor of half the leftover space, with no clamping |
| `Geometry.CenteredFitsInside` | background.js:26-27 | a popup no larger than its anchor lies inside it; the right/bottom margin equals the left/top margin or exceeds it by one pixel |
| `Geometry.WiderThanAnchorOverhangs` | background.js:26-39 | there is no clamping: a popup wider than its anchor starts left of it |
| `Geometry.MaximizedRect` | background.js:91-96 | maximising gives left 0, top 0 and the screen's available width and height |
| `Geometry.RestoredRect` | background.js:99-107 | restoring centres the stored size on the available screen; this is the same as centring it on the maximised rectangle |
| `PopupUrl.Separator` | background.js:29 | the separator is `&` exactly when the URL already contains `?`, and `?` otherwise |
| `PopupUrl.WithMarker` | background.js:29-30 | the popup URL is the target URL unchanged, then the separator, then `littlefox=1`, so it always contains `?` |
| `PopupUrl.PlainUrlGetsQuery` | background.js:29-30 | `https://x/y` becomes `https://x/y?littlefox=1` |
| `PopupUrl.QueryUrlKeepsQuery` | background.js:29-30 | `https://x/y?a=1` becomes `https://x/y?a=1&littlefox=1` |
| `Preferences.PopupSize` | background.js:9-19 | each stored entry is read as is, or is 600 / 800 when absent; stored values are not validated |
| `Preferences.Put` | options.js:32-36 | writing sets exactly the two size entries and keeps every other key |
| `Preferences.PutThenGet` | options.js:32-36 | the size written is the size read back |
| `Preferences.EmptyStoreDefaults` | background.js:1-2 | an empty store reads as 600 by 800 |
| `Preferences.FloorBoundsPopupSize` | options.js:27 | if every stored entry respects the 200 floor, the size read is at least 200 by 200, defaults included |
| `OrderedSet.Add` | background.js:46 | `Set.add`: the member set gains x; an existing member keeps its place; a new one goes last; no duplicates appear |
| `OrderedSet.Delete` | background.js:147 | `Set.delete`: exactly x is gone, every other member stays, and the sequence stays duplicate-free; deleting an absent member changes nothing |
| `OrderedSet.DeleteConcat` | background.js:147 | deleting distributes over concatenation, so the members that remain keep their relative order |
| `OrderedSet.DeleteSplit` | background.js:147 | deleting a member that sits between `a` and `b` leaves exactly `a + b`: nothing else moves |
| `OrderedSet.RetainMembers` | background.js:157-161 | the sweep's result holds exactly the old members that are in the kept set, in their old order, with no duplicates |
| `OrderedSet.RetainElements` | background.js:157-161 | as sets, the sweep's result is the old members intersected with the kept set |
| `OrderedSet.RetainStep` | background.js:157-161 | one step of the sweep: keeping or deleting the next member moves it from the unvisited members to the visited ones and introduces no duplicate |
| `OrderedSet.DistinctLength` | background.js:170-174 | a duplicate-free sequence has one entry per member, so there is one request per tracked ID |
| `Registry.AfterCreate` | background.js:41-57 | a numeric window id joins the window set; the first tab, if the reply lists one, joins the tab set; nothing else changes; a failed create changes nothing |
| `Registry.AfterTabRemoved` | background.js:145-149 | the tab is no longer tracked; the window set and every other tab are unchanged |
| `Registry.TabRemovedIdempotent` | background.js:145-149 | removing the same tab twice gives the same state as removing it once |
| `Registry.AfterWindowRemoved` | background.js:152-164 | for a tracked window, exactly that window leaves the window set, and exactly the tracked tabs that no longer exist leave the tab set; for an untracked window, both sets are unchanged |
| `Registry.WindowRemovedIdempotent` | background.js:152-164 | delivering the same window-removed event again changes nothing |
| `Registry.StaleTabSwept` | background.js:152-164 | closing a popup whose tab is reported gone leaves nothing tracked |
| `Registry.AfterFocusChanged` | background.js:167-189 | focus on no window, or on an untracked window, empties both sets; focus on a tracked popup changes nothing |
| `Registry.Step` | background.js:127-189 | a tab update never changes the sets; no event other than a creation adds an ID |
| `Registry.OnlyRegistrationAdds` | background.js:41-57 | after any sequence of events, every tracked ID was tracked before or was registered by one of the creations |
| `Registry.OnlyCreatedWindowsTracked` | background.js:5-6 | starting from empty sets, only windows and tabs this extension created are ever tracked |
| `Background.RouteMessage` | background.js:79-124 | the listener's branches, in order: open-popup needs a non-empty url; maximize needs a sender window and reads "maximised" only from a strict `true`; then open-in-new-tab, which forwards the message's url unchanged, then open-options |
| `Background.MaximizeUpdate` | background.js:88-109 | the sender's window gets the full available screen when not maximised; otherwise it gets the stored size, centred on the screen with floor division |
| `Background.Coordinator.constructor` | background.js:5-6 | both tracked sets start empty |
| `Background.Coordinator.OpenPopup` | background.js:22-60 | the create request carries the marked URL and the stored size centred on the anchor window; the registry becomes `AfterCreate` of the host's reply; each sequence gets the new ID through `Add` (at the end, unless it is already there) or stays as it was |
| `Background.Coordinator.OnMessage` | background.js:79-124 | open-popup creates and registers, as `OpenPopup` does; maximize issues `MaximizeUpdate`; every other message passes through; outside open-popup both sequences are unchanged, order included |
| `Background.Coordinator.OnTabUpdated` | background.js:127-142 | script and CSS injection are requested, in that order, exactly when the tab is tracked and its status is `complete`; the sets are not touched |
| `Background.Coordinator.OnTabRemoved` | background.js:145-149 | the new registry is `AfterTabRemoved` of the old one; the tab sequence is the old one with that tab deleted, so the others keep their order; the window sequence is unchanged |
| `Background.Coordinator.OnWindowRemoved` | background.js:152-164 | the new registry is `AfterWindowRemoved` of the old one; for a tracked window, that window is deleted from its sequence, each tab tracked at that moment is checked once, in insertion order, and the tab sequence keeps the live tabs in their old order; for an untracked window nothing changes |
| `Background.Coordinator.SweepTabs` | background.js:157-161 | the loop over `Array.from(trackedPopupTabs)` checks the tracked tabs of the moment in order and deletes the ones that are gone, leaving `Retain` of the old sequence; the window sequence is untouched |
| `Background.Coordinator.CloseAllPopups` | background.js:170-174 | one remove request per tracked window, in insertion order; both sets end empty |
| `Background.Coordinator.OnFocusChanged` | background.js:167-189 | the new registry is `AfterFocusChanged` of the old one; when the focus left the popups, every previously tracked window is removed exactly once and both sequences end empty; otherwise nothing is removed and both sequences are unchanged |
| `Toolbar.DeleteKey` | toolbar_inject.js:110-111 | `params.delete`: exactly the entries with that key are gone; a list without the key is unchanged |
| `Toolbar.DeleteKeyConcat` | toolbar_inject.js:111 | deleting distributes over concatenation, so the remaining parameters keep their relative order |
| `Toolbar.Serialize` | toolbar_inject.js:112 | the query text is empty exactly when no parameter remains |
| `Toolbar.SerializeAppend` | toolbar_inject.js:112 | a parameter appended to a non-empty list appears as `&key=value` at the end of the text |
| `Toolbar.ReopenUrl` | toolbar_inject.js:109-117 | the reopen URL is the URL of the same location without `littlefox`; origin and path come first and the hash last, verbatim; a `?` is emitted only when parameters remain |
| `Toolbar.MarkedHref` | background.js:29-30 | for a link without a fragment, the popup URL is the URL of the link's location with `littlefox=1` appended to its query |
| `Toolbar.MarkedHrefPlain` | background.js:29-30 | a link without a query gets `littlefox=1` as its whole query |
| `Toolbar.MarkedHrefQuery` | background.js:29-30 | a link with a query gets `&littlefox=1` after it |
| `Toolbar.ReopenMarked` | toolbar_inject.js:110-117 | reopening a marked location gives back the unmarked URL, whatever the fragment |
| `Toolbar.MarkerRoundTrip` | toolbar_inject.js:109-117 | opening a link (no fragment, no `littlefox` parameter) in a popup and then reopening it in a tab gives the link back |
| `Toolbar.MarkerInsideFragment` | background.js:29-30 | for any link with a fragment and no `littlefox` entry, with or without a query, the separator and marker land at the end of the fragment, so the reopen URL still carries them and differs from the link |
| `Toolbar.FragmentHref` | background.js:29-30 | text that the marker step appends to a URL ends up at the end of its location's fragment |
| `Toolbar.ReopenExample` | toolbar_inject.js:110-117 | `…/p?littlefox=1&q=2#frag` reopens as `…/p?q=2#frag` |
| `Toolbar.ReopenSoleMarker` | toolbar_inject.js:112-116 | stripping the only parameter leaves no dangling `?` |
| `Toolbar.MaximizeButton.constructor` | toolbar_inject.js:93 | the flag starts `false` |
| `Toolbar.MaximizeButton.Click` | toolbar_inject.js:94-102 | the message carries the flag's current value, which is then negated, so clicks send false, true, false, … |
| `Toolbar.PopupPage.Inject` | toolbar_inject.js:3-7 | if the toolbar host exists, injection does nothing; otherwise it adds the host with a fresh, non-maximised button |
| `Toolbar.PopupPage.ReopenInTab` | toolbar_inject.js:108-123 | the open-in-new-tab message carries the stripped URL |
| `Options.FloorIsInclusive` | options.js:27 | a pair of numbers is accepted exactly when both are at least 200; a NaN on either side is never accepted |
| `Options.OptionsPage.constructor` | options.js:13-21 | the fields show the stored size, or 600 / 800 where nothing is stored |
| `Options.OptionsPage.Save` | options.js:24-42 | a save is accepted exactly when both values are numbers ≥ 200; a rejected save leaves the store unchanged; an accepted save stores exactly the parsed values; the 200 floor on the store is preserved |
| `Options.OptionsPage.Reset` | options.js:45-60 | the store gets 600 / 800, the same size the coordinator reads from an empty store, and the fields show it |

## Left out

- Asynchrony and interleaving: each handler runs as one atomic step, with the host's answers as parameters. The `tabs.get` checks of the sweep complete inside the step. A pending create does not interleave with other events.
- Registry.AfterWindowRemoved: the per-tab `tabs.get` sweep is one step over a given set of tabs that still exist, not separate asynchronous callbacks.
- Host calls are returned as requests, not performed: `windows.create`, `windows.update`, `windows.remove`, `tabs.executeScript`, `tabs.insertCSS`, `tabs.create`, `runtime.openOptionsPage`.
- A failed `windows.create` is modelled, as `CreateFailed`: the source catches it and the sets do not change.
- Failures of `windows.remove`, `tabs.executeScript`, `tabs.insertCSS` and `runtime.openOptionsPage` are caught and discarded in the source. They do not affect the sets, so the model does not represent them.
- The `windows.update` calls (background.js:91, 102) and the `tabs.create` call (background.js:114) have no `.catch`, so a rejection goes unhandled in the source. It does not affect the sets and is not modelled.
- Background.Coordinator.OpenPopup: always returns a create request. If `windows.getCurrent` or `storage.local.get` rejects (background.js:23, 25), the source issues no request and has no handler for the rejection. The model does not represent that path.
- Background.MaximizeUpdate: always returns an update. If `storage.local.get` rejects on the restore branch (background.js:99), the source issues no `windows.update`. The model does not represent that path.
- The context menu (background.js:63-76) is left out: it is a foreign API call with no state.
- The `open-in-new-tab` and `open-options` branches (background.js:113-123) are only routed. They have no effect on the sets.
- Background.Coordinator.OpenPopup: a first tab without an `id` is not modelled (tab IDs are integers). The source would add `undefined` to the tab set.
- Background.RouteMessage: the sender is modelled as an optional window ID. A sender tab whose `windowId` is undefined is not modelled.
- The CSS text injected at background.js:134-139 is left out. So are the DOM, shadow-DOM and style construction, the `requestAnimationFrame` margin, the close and settings buttons' effects, and `window.close()` (toolbar_inject.js:5-163, apart from the logic modelled above).
- content_script.js is not part of this model: it only turns a shift-click on a link into an open-popup message.
- Status messages and timers on the settings page (options.js:28-29, 38-40, 53-58) are left out.
- `parseInt` is abstracted: Save receives `Some(n)` or `None` (NaN) for each field.
- `URLSearchParams` percent-encoding and normalisation are not modelled: the query is a list of key/value pairs, and `toString` joins `key=value` with `&`.
- No tab-to-window association is modelled, because the source keeps none. So the model cannot state that a tracked tab that still exists belongs to a tracked window.
- JavaScript numbers are treated as mathematical integers; storage values other than integers are not modelled.
- `console.error` logging is left out.
