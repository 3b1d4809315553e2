/**
 * The UI preference store (src/store/uiSlice.ts): a dark-mode flag mirrored in `localStorage`
 * under `darkMode` as the text "true" or "false".
 */
module UiSlice {
  import opened Wrappers
  import opened JsValues
  import opened Storage

  const DarkModeKey: string := "darkMode"

  datatype UiSession = UiSession(darkMode: bool, items: map<string, string>)

  /** `initialState.darkMode`: on only for the exact stored text "true". */
  function InitialDarkMode(items: map<string, string>): (r: bool)
    ensures r <==> DarkModeKey in items && items[DarkModeKey] == "true"
  {
    GetItem(items, DarkModeKey) == Some("true")
  }

  /** `toggleDarkMode`: flips the flag and stores its new text form. */
  function AfterToggle(s: UiSession): (r: UiSession)
    ensures r.darkMode == !s.darkMode
    ensures InitialDarkMode(r.items) == r.darkMode
    ensures DarkModeKey in r.items && r.items[DarkModeKey] == BoolToString(r.darkMode)
    ensures AgreeExcept(r.items, s.items, DarkModeKey)
  {
    UiSession(!s.darkMode, s.items[DarkModeKey := BoolToString(!s.darkMode)])
  }

  /** Two toggles restore the flag, and storage then agrees with it. */
  lemma ToggleTwice(s: UiSession)
    ensures AfterToggle(AfterToggle(s)).darkMode == s.darkMode
    ensures InitialDarkMode(AfterToggle(AfterToggle(s)).items) == s.darkMode
  {
  }

  /** Once toggled, a fresh start reproduces the in-memory flag after any number of further toggles. */
  lemma {:induction false} TogglesSurviveReload(s: UiSession, n: nat)
    requires n >= 1
    ensures InitialDarkMode(Toggled(s, n).items) == Toggled(s, n).darkMode
    ensures Toggled(s, n).darkMode == (if n % 2 == 0 then s.darkMode else !s.darkMode)
  {
    if n > 1 {
      TogglesSurviveReload(s, n - 1);
    }
  }

  /** `n` successive toggles. */
  function Toggled(s: UiSession, n: nat): UiSession
  {
    if n == 0 then s else AfterToggle(Toggled(s, n - 1))
  }

  class UiStore {
    var darkMode: bool
    const storage: LocalStorage

    function Current(): UiSession
      reads this, storage
    {
      UiSession(darkMode, storage.items)
    }

    constructor (storage: LocalStorage)
      ensures this.storage == storage
      ensures darkMode == InitialDarkMode(storage.items)
    {
      this.storage := storage;
      darkMode := InitialDarkMode(storage.items);
    }

    method ToggleDarkMode()
      modifies this, storage
      ensures Current() == AfterToggle(old(Current()))
    {
      darkMode := !darkMode;
      storage.SetItem(DarkModeKey, BoolToString(darkMode));
    }
  }
}
