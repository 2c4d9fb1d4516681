/**
  The colour theme: the initial theme read from storage, the toggle, the `isDark` flag,
  and the write-back of every theme to storage.
 */
module Theme {
  import opened Optional

  const Dark: string := "dark"
  const Light: string := "light"

  /** The initial theme: `dark` when there is no window (pre-rendering); otherwise the stored
      value when it is present and not empty, unchecked, and `dark` when it is not. */
  function InitialTheme(hasWindow: bool, stored: Option<string>): (theme: string)
    ensures !hasWindow ==> theme == Dark
    ensures hasWindow && stored.Some? && stored.value != "" ==> theme == stored.value
    ensures hasWindow && (stored.None? || stored.value == "") ==> theme == Dark
  {
    if !hasWindow then Dark
    else if stored.Some? && stored.value != "" then stored.value
    else Dark
  }

  /** The toggle updater: `dark` becomes `light`, anything else becomes `dark`. */
  function Toggle(theme: string): (next: string)
    ensures next == Light <==> theme == Dark
    ensures next == Dark <==> theme != Dark
  {
    if theme == Dark then Light else Dark
  }

  /** On the two themes the toggle is its own inverse; any other stored value is repaired
      to `dark` by one toggle. */
  lemma ToggleInvolution(theme: string)
    ensures theme == Dark || theme == Light ==> Toggle(Toggle(theme)) == theme
    ensures theme != Dark && theme != Light ==> Toggle(Toggle(theme)) == Light
  {
  }

  /** `isDark`, which picks the header's theme icon. */
  function IsDark(theme: string): (b: bool)
    ensures b <==> theme == Dark
  {
    theme == Dark
  }

  /** Every press of the toggle flips `isDark`, whatever the current value is. */
  lemma IsDarkToggle(theme: string)
    ensures IsDark(Toggle(theme)) <==> !IsDark(theme)
  {
  }

  /** The theme state and the value in storage, which the effect keeps equal to it. */
  class ThemeState {
    var theme: string
    var stored: Option<string>

    ghost predicate Valid()
      reads this
    {
      stored == Some(theme)
    }

    /** Mounting: the initial theme, then the effect writes it back. */
    constructor (stored0: Option<string>)
      ensures Valid()
      ensures theme == InitialTheme(true, stored0)
    {
      theme := InitialTheme(true, stored0);
      stored := Some(theme);
    }

    /** `toggleTheme`, followed by the effect that writes the new theme back. */
    method ToggleTheme()
      modifies this
      ensures Valid()
      ensures theme == Toggle(old(theme))
    {
      theme := if theme == Dark then Light else Dark;
      stored := Some(theme);
    }
  }

  /** Two toggles from a fresh start with a valid stored theme bring the page back to it. */
  method ToggleTwice(stored0: Option<string>) returns (s: ThemeState)
    requires stored0 == Some(Dark) || stored0 == Some(Light)
    ensures s.Valid() && s.theme == stored0.value
  {
    s := new ThemeState(stored0);
    s.ToggleTheme();
    s.ToggleTheme();
    ToggleInvolution(stored0.value);
  }
}
