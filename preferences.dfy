/**
 * The preference store (`browser.storage.local`) as background.js and options.js use it:
 * two integer entries, read with defaults and written together.
 */
module Preferences {
  import opened Geometry

  const DEFAULT_WIDTH: int := 600
  const DEFAULT_HEIGHT: int := 800
  const WIDTH_KEY: string := "popupWidth"
  const HEIGHT_KEY: string := "popupHeight"

  /** The persisted key/value store; only integer entries are modelled. */
  type Store = map<string, int>

  /**
   * `getPopupSize`: each stored entry, or its default when the entry is absent.
   * The store's values are trusted, never validated here.
   */
  function PopupSize(store: Store): (r: Size)
    ensures WIDTH_KEY in store ==> r.width == store[WIDTH_KEY]
    ensures WIDTH_KEY !in store ==> r.width == DEFAULT_WIDTH
    ensures HEIGHT_KEY in store ==> r.height == store[HEIGHT_KEY]
    ensures HEIGHT_KEY !in store ==> r.height == DEFAULT_HEIGHT
  {
    Size(if WIDTH_KEY in store then store[WIDTH_KEY] else DEFAULT_WIDTH,
         if HEIGHT_KEY in store then store[HEIGHT_KEY] else DEFAULT_HEIGHT)
  }

  /** `storage.local.set({popupWidth, popupHeight})`: overwrites the two entries, keeps the others. */
  function Put(store: Store, width: int, height: int): (r: Store)
    ensures r.Keys == store.Keys + {WIDTH_KEY, HEIGHT_KEY}
    ensures forall k :: k in store && k != WIDTH_KEY && k != HEIGHT_KEY ==> k in r && r[k] == store[k]
  {
    store[WIDTH_KEY := width][HEIGHT_KEY := height]
  }

  /** What is written is what is read back. */
  lemma PutThenGet(store: Store, width: int, height: int)
    ensures PopupSize(Put(store, width, height)) == Size(width, height)
  {
  }

  /** An empty store reads as 600 by 800. */
  lemma EmptyStoreDefaults()
    ensures PopupSize(map[]) == Size(600, 800)
  {
  }

  /** Both stored entries, where present, respect the settings page's 200-pixel floor. */
  ghost predicate MeetsFloor(store: Store)
  {
    (WIDTH_KEY in store ==> store[WIDTH_KEY] >= 200) &&
    (HEIGHT_KEY in store ==> store[HEIGHT_KEY] >= 200)
  }

  /** A store that meets the floor always yields a size of at least 200 by 200, defaults included. */
  lemma FloorBoundsPopupSize(store: Store)
    requires MeetsFloor(store)
    ensures PopupSize(store).width >= 200 && PopupSize(store).height >= 200
  {
  }
}
