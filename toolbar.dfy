/**
 * The logic of toolbar_inject.js that is not DOM construction: the guard that keeps the
 * toolbar from being injected twice, the maximize button's local toggle flag, and the URL
 * the "reopen in tab" button sends, which is the popup's own URL without the marker.
 */
module Toolbar {
  import opened Wrappers
  import opened PopupUrl
  import opened Background

  /** One `key=value` entry of a `URLSearchParams` list; percent-encoding is not modelled. */
  datatype Param = Param(key: string, value: string)

  /** The parts of `window.location` the toolbar reads; `search` is already split into entries. */
  datatype Location = Location(origin: string, pathname: string, search: seq<Param>, hash: string)

  /** `params.delete(key)`: every entry with that key is gone, the rest keep their order. */
  function DeleteKey(params: seq<Param>, key: string): (r: seq<Param>)
    ensures forall p :: p in r <==> p in params && p.key != key
    ensures (forall p :: p in params ==> p.key != key) ==> r == params
    ensures |r| <= |params|
    decreases |params|
  {
    if params == [] then []
    else if params[0].key == key then DeleteKey(params[1..], key)
    else [params[0]] + DeleteKey(params[1..], key)
  }

  /** Deleting distributes over concatenation, so the surviving entries keep their relative order. */
  lemma {:induction false} DeleteKeyConcat(a: seq<Param>, b: seq<Param>, key: string)
    ensures DeleteKey(a + b, key) == DeleteKey(a, key) + DeleteKey(b, key)
    decreases |a|
  {
    if a == [] {
      assert a + b == b;
    } else {
      assert (a + b)[0] == a[0];
      assert (a + b)[1..] == a[1..] + b;
      DeleteKeyConcat(a[1..], b, key);
    }
  }

  function EntryText(p: Param): string
  {
    p.key + "=" + p.value
  }

  /** `params.toString()`: the entries as `key=value`, joined by `&`. */
  function Serialize(params: seq<Param>): (r: string)
    ensures r == "" <==> params == []
    decreases |params|
  {
    if params == [] then ""
    else if |params| == 1 then EntryText(params[0])
    else EntryText(params[0]) + "&" + Serialize(params[1..])
  }

  /** Appending an entry to a non-empty list appends `&key=value` to its text. */
  lemma {:induction false} SerializeAppend(params: seq<Param>, p: Param)
    requires params != []
    ensures Serialize(params + [p]) == Serialize(params) + "&" + EntryText(p)
    decreases |params|
  {
    assert (params + [p])[0] == params[0];
    if |params| > 1 {
      assert (params + [p])[1..] == params[1..] + [p];
      SerializeAppend(params[1..], p);
    } else {
      assert (params + [p])[1..] == [p];
    }
  }

  /** The URL of a location: origin, path, `?` and the query only when there are entries, fragment. */
  function Href(loc: Location): string
  {
    loc.origin + loc.pathname + (if loc.search == [] then "" else "?" + Serialize(loc.search)) + loc.hash
  }

  /**
   * The "reopen in tab" URL: the same location without any `littlefox` entry. Origin and path
   * come first and the fragment last, verbatim; a `?` appears only when entries remain.
   */
  function ReopenUrl(loc: Location): (r: string)
    ensures r == Href(loc.(search := DeleteKey(loc.search, MARKER_KEY)))
    ensures forall p :: p in DeleteKey(loc.search, MARKER_KEY) ==> p.key != MARKER_KEY
    ensures loc.origin + loc.pathname <= r
    ensures |r| >= |loc.hash| && r[|r| - |loc.hash|..] == loc.hash
    ensures |r| == |loc.origin| + |loc.pathname| + |loc.hash| <==> DeleteKey(loc.search, MARKER_KEY) == []
  {
    var newSearch := Serialize(DeleteKey(loc.search, MARKER_KEY));
    var r := loc.origin + loc.pathname + (if newSearch != "" then "?" + newSearch else "") + loc.hash;
    assert (loc.origin + loc.pathname) + ((if newSearch != "" then "?" + newSearch else "") + loc.hash) == r;
    r
  }

  /** The location a popup shows: the link's location with the marker entry appended to its query. */
  function Marked(loc: Location): Location
  {
    loc.(search := loc.search + [MarkerEntry()])
  }

  /** The marker entry `littlefox=1`. */
  function MarkerEntry(): Param
  {
    Param(MARKER_KEY, MARKER_VALUE)
  }

  /**
   * For a link without a fragment, the popup URL is the URL of the marked location: the
   * separator test sees a `?` exactly when the link has a query.
   */
  lemma MarkedHref(loc: Location)
    requires '?' !in loc.origin + loc.pathname
    requires loc.hash == ""
    ensures Href(Marked(loc)) == WithMarker(Href(loc))
  {
    if loc.search == [] {
      MarkedHrefPlain(loc);
    } else {
      MarkedHrefQuery(loc);
    }
  }

  /** Without a query, the marker entry becomes the whole query. */
  lemma MarkedHrefPlain(loc: Location)
    requires '?' !in loc.origin + loc.pathname
    requires loc.hash == "" && loc.search == []
    ensures Href(Marked(loc)) == WithMarker(Href(loc))
  {
    var base := loc.origin + loc.pathname;
    assert Href(loc) == base;
    assert Serialize(Marked(loc).search) == EntryText(MarkerEntry());
  }

  /** With a query, the marker entry is appended to it after `&`. */
  lemma MarkedHrefQuery(loc: Location)
    requires loc.hash == "" && loc.search != []
    ensures Href(Marked(loc)) == WithMarker(Href(loc))
  {
    var base := loc.origin + loc.pathname;
    var query := Serialize(loc.search);
    SerializeAppend(loc.search, MarkerEntry());
    assert Href(loc) == base + ("?" + query);
    assert '?' in Href(loc) by {
      assert ("?" + query)[0] == '?';
    }
    assert Href(Marked(loc)) == base + "?" + query + "&" + EntryText(MarkerEntry());
  }

  /** Reopening the marked location of a link without a `littlefox` entry gives the link's URL. */
  lemma ReopenMarked(loc: Location)
    requires forall p :: p in loc.search ==> p.key != MARKER_KEY
    ensures ReopenUrl(Marked(loc)) == Href(loc)
  {
    DeleteKeyConcat(loc.search, [MarkerEntry()], MARKER_KEY);
    assert DeleteKey([MarkerEntry()], MARKER_KEY) == [];
    assert DeleteKey(Marked(loc).search, MARKER_KEY) == loc.search;
    assert Marked(loc).(search := loc.search) == loc;
  }

  /**
   * Opening a link in a popup and reopening it in a tab gives the link back, for a link
   * without a fragment, without a `?` before its query and without a `littlefox` entry.
   */
  lemma MarkerRoundTrip(loc: Location)
    requires '?' !in loc.origin + loc.pathname
    requires loc.hash == ""
    requires forall p :: p in loc.search ==> p.key != MARKER_KEY
    ensures Href(Marked(loc)) == WithMarker(Href(loc))
    ensures ReopenUrl(Marked(loc)) == Href(loc)
  {
    MarkedHref(loc);
    ReopenMarked(loc);
  }

  /** The location whose fragment ends in the separator and the marker entry. */
  function MarkedFragment(loc: Location): Location
  {
    loc.(hash := loc.hash + [Separator(Href(loc))] + MARKER_KEY + "=" + MARKER_VALUE)
  }

  /**
   * A link with a fragment gets the marker appended to its fragment, where the query parser
   * does not see it: the reopen URL then still carries the marker.
   */
  lemma MarkerInsideFragment(loc: Location)
    requires loc.hash != ""
    requires forall p :: p in loc.search ==> p.key != MARKER_KEY
    ensures WithMarker(Href(loc)) == Href(MarkedFragment(loc))
    ensures ReopenUrl(MarkedFragment(loc)) == WithMarker(Href(loc))
    ensures WithMarker(Href(loc)) != Href(loc)
  {
    FragmentHref(loc);
    var marked := MarkedFragment(loc);
    assert DeleteKey(marked.search, MARKER_KEY) == marked.search;
    assert marked.(search := marked.search) == marked;
  }

  /** Text appended after the fragment of a location is appended to its URL. */
  lemma FragmentHref(loc: Location)
    ensures Href(MarkedFragment(loc)) == WithMarker(Href(loc))
  {
    var tail := [Separator(Href(loc))] + MARKER_KEY + "=" + MARKER_VALUE;
    var prefix := loc.origin + loc.pathname + (if loc.search == [] then "" else "?" + Serialize(loc.search));
    assert Href(MarkedFragment(loc)) == prefix + (loc.hash + tail);
  }

  /** Stripping the marker from the query of a popup page with another parameter and a fragment. */
  lemma ReopenExample()
    ensures ReopenUrl(Location("https://x", "/p", [Param("littlefox", "1"), Param("q", "2")], "#frag"))
         == "https://x/p?q=2#frag"
  {
    var loc := Location("https://x", "/p", [Param("littlefox", "1"), Param("q", "2")], "#frag");
    assert DeleteKey(loc.search, MARKER_KEY) == [Param("q", "2")];
  }

  /** Stripping the only parameter leaves no `?` behind. */
  lemma ReopenSoleMarker()
    ensures ReopenUrl(Location("https://x", "/p", [Param("littlefox", "1")], "")) == "https://x/p"
  {
    assert DeleteKey([Param("littlefox", "1")], MARKER_KEY) == [];
  }

  /**
   * The maximize button's closure variable `isMax`. It starts `false` and flips on every
   * click, so it is `true` exactly after an odd number of clicks.
   */
  class MaximizeButton {
    var isMax: bool
    ghost var clicks: nat

    ghost predicate Valid()
      reads this
    {
      isMax == (clicks % 2 == 1)
    }

    constructor ()
      ensures Valid() && clicks == 0 && !isMax
    {
      isMax := false;
      clicks := 0;
    }

    /** Sends the current flag to the coordinator, then negates it for the next click. */
    method Click() returns (msg: Message)
      requires Valid()
      modifies this
      ensures Valid() && clicks == old(clicks) + 1
      ensures msg == Message("maximize-window", "", Some(old(isMax)))
      ensures msg.isCurrentlyMaximized == Some(old(clicks) % 2 == 1)
      ensures isMax == !old(isMax)
    {
      msg := Message("maximize-window", "", Some(isMax));
      isMax := !isMax;
      clicks := clicks + 1;
    }
  }

  /** A page in a popup tab, as far as the toolbar script sees it. */
  class PopupPage {
    const location: Location
    var hasToolbarHost: bool

    constructor (location: Location)
      ensures this.location == location && !hasToolbarHost
    {
      this.location := location;
      hasToolbarHost := false;
    }

    /**
     * Running toolbar_inject.js: when the toolbar host element already exists nothing happens;
     * otherwise the host is added and a fresh maximize button starts unmaximised.
     */
    method Inject() returns (button: MaximizeButton?)
      modifies this
      ensures hasToolbarHost
      ensures old(hasToolbarHost) ==> button == null
      ensures !old(hasToolbarHost) ==> button != null && fresh(button) && button.Valid() && !button.isMax
    {
      if hasToolbarHost {
        return null;
      }
      button := new MaximizeButton();
      hasToolbarHost := true;
    }

    /** The "reopen in tab" button: asks the coordinator to open the unmarked URL as a normal tab. */
    method ReopenInTab() returns (msg: Message)
      ensures msg == Message("open-in-new-tab", ReopenUrl(location), None)
    {
      msg := Message("open-in-new-tab", ReopenUrl(location), None);
    }
  }

  /**
   * Two clicks of a freshly injected toolbar: the first asks the coordinator to maximise the
   * popup over the screen, the second to restore the stored size.
   */
  method ToggleScenario(page: PopupPage, popupWindow: int, screen: Geometry.Screen, store: Preferences.Store)
    requires !page.hasToolbarHost
    modifies page
  {
    var button := page.Inject();
    var first := button.Click();
    assert RouteMessage(first, Some(popupWindow)) == MaximizeRoute(popupWindow, false);
    var second := button.Click();
    assert RouteMessage(second, Some(popupWindow)) == MaximizeRoute(popupWindow, true);
    var again := page.Inject();
    assert again == null;
  }
}
