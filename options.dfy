/**
 * The settings page of options.js: it shows the stored popup size, saves a new size when
 * both fields parse to integers of at least 200, and resets the store to the defaults.
 * `parseInt` is abstracted: each save receives what the two fields parse to, `None` for NaN.
 */
module Options {
  import opened Wrappers
  import opened Geometry
  import opened Preferences

  /** The smallest width or height the page accepts. */
  const MIN_SIDE: int := 200

  /** The save button's guard: neither value is NaN and neither is below 200. */
  predicate Acceptable(w: Option<int>, h: Option<int>)
  {
    !(w.None? || h.None? || w.value < MIN_SIDE || h.value < MIN_SIDE)
  }

  /**
   * The floor is inclusive: a pair of numbers is accepted exactly when both are at least 200,
   * so 200 itself passes and 199 does not; a NaN on either side is never accepted.
   */
  lemma FloorIsInclusive(a: int, b: int)
    ensures Acceptable(Some(a), Some(b)) <==> a >= 200 && b >= 200
    ensures !Acceptable(None, Some(b)) && !Acceptable(Some(a), None) && !Acceptable(None, None)
  {
  }

  /** What a click on Save reports on the page. */
  datatype SaveOutcome = Saved | Rejected

  class OptionsPage {
    var store: Store
    var widthInput: int
    var heightInput: int

    /** Loading the page shows the stored size, or 600 and 800 where nothing is stored. */
    constructor (store: Store)
      ensures this.store == store
      ensures widthInput == PopupSize(store).width && heightInput == PopupSize(store).height
      ensures WIDTH_KEY !in store ==> widthInput == 600
      ensures HEIGHT_KEY !in store ==> heightInput == 800
    {
      this.store := store;
      var size := PopupSize(store);
      widthInput := size.width;
      heightInput := size.height;
    }

    /**
     * The Save button, given what the two fields parse to. A rejected save leaves the store
     * alone; an accepted one stores exactly the parsed values. The fields are not rewritten.
     */
    method Save(w: Option<int>, h: Option<int>) returns (outcome: SaveOutcome)
      modifies this
      ensures outcome == Saved <==> Acceptable(w, h)
      ensures outcome == Rejected ==> store == old(store)
      ensures outcome == Saved ==> store == Put(old(store), w.value, h.value) && PopupSize(store) == Size(w.value, h.value)
      ensures old(MeetsFloor(store)) ==> MeetsFloor(store)
      ensures widthInput == old(widthInput) && heightInput == old(heightInput)
    {
      if w.None? || h.None? || w.value < MIN_SIDE || h.value < MIN_SIDE {
        return Rejected;
      }
      store := store[WIDTH_KEY := w.value][HEIGHT_KEY := h.value];
      PutThenGet(old(store), w.value, h.value);
      outcome := Saved;
    }

    /**
     * The Reset button: stores 600 and 800, the same defaults the coordinator falls back to
     * on an empty store, and shows them.
     */
    method Reset()
      modifies this
      ensures store == Put(old(store), DEFAULT_WIDTH, DEFAULT_HEIGHT)
      ensures PopupSize(store) == PopupSize(map[]) == Size(600, 800)
      ensures MeetsFloor(store)
      ensures widthInput == 600 && heightInput == 800
    {
      store := store[WIDTH_KEY := DEFAULT_WIDTH][HEIGHT_KEY := DEFAULT_HEIGHT];
      widthInput := DEFAULT_WIDTH;
      heightInput := DEFAULT_HEIGHT;
    }
  }
}
