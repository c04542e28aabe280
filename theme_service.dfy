/**
 * The theme state (src/app/core/services/theme.service.ts): the chosen mode
 * (light, dark or auto) and the theme currently shown (light or dark).
 *
 * Whether the system prefers a dark scheme is a parameter of every operation
 * that asks for it; the mode the service starts with, which the source reads
 * from the settings, is a parameter of the constructor.
 */
module ThemeService {
  import opened DashboardModels

  /** The theme shown: `'light' | 'dark'`. */
  datatype Theme = LightTheme | DarkTheme

  /** `isDarkMode` for a given mode: an explicit mode decides by itself, and
      "auto" follows the system preference. */
  function IsDarkMode(mode: ThemeMode, systemDark: bool): (dark: bool)
    ensures mode != Auto ==> (dark <==> mode == Dark)
    ensures mode == Auto ==> (dark <==> systemDark)
  {
    if mode == Auto then systemDark else mode == Dark
  }

  /** The theme a mode shows. */
  function Shown(mode: ThemeMode, systemDark: bool): (t: Theme)
    ensures t == DarkTheme <==> IsDarkMode(mode, systemDark)
  {
    if IsDarkMode(mode, systemDark) then DarkTheme else LightTheme
  }

  /** The mode `toggleTheme` picks: the opposite of the theme shown when the
      mode is "auto", the other explicit mode otherwise. */
  function ToggledMode(mode: ThemeMode, current: Theme): (m: ThemeMode)
    ensures m != Auto
    ensures mode == Auto ==> (m == Dark <==> current != DarkTheme)
    ensures mode != Auto ==> m != mode
  {
    if mode == Auto then (if current == DarkTheme then Light else Dark)
    else if mode == Dark then Light else Dark
  }

  /** Toggling twice from an explicit mode comes back to it. */
  lemma ToggleTwiceRestores(mode: ThemeMode, current: Theme, later: Theme)
    requires mode != Auto
    ensures ToggledMode(ToggledMode(mode, current), later) == mode
  {
  }

  /** When the shown theme matches the mode, toggling always changes what is
      shown, whether the mode was explicit or "auto". */
  lemma {:induction false} ToggleFlipsShown(mode: ThemeMode, systemDark: bool)
    ensures var next := ToggledMode(mode, Shown(mode, systemDark));
            Shown(next, systemDark) != Shown(mode, systemDark)
  {
    var current := Shown(mode, systemDark);
    var next := ToggledMode(mode, current);
    assert next != Auto;
    if mode == Auto {
      assert next == Dark <==> !systemDark;
    } else {
      assert next == Dark <==> mode == Light;
    }
  }

  class ThemeService {
    /** `themeModeSignal`. */
    var mode: ThemeMode
    /** `currentThemeSignal`. */
    var current: Theme

    /** The theme shown is the one the mode resolves to. */
    ghost predicate ShowsMode(systemDark: bool)
      reads this
    {
      current == Shown(mode, systemDark)
    }

    /** The constructor's `initializeTheme`: the mode read from the settings
        is set and applied. */
    constructor(storedMode: ThemeMode, systemDark: bool)
      ensures mode == storedMode
      ensures current == Shown(storedMode, systemDark)
    {
      mode := Auto;
      current := LightTheme;
      new;
      mode := storedMode;
      ApplyTheme(storedMode, systemDark);
    }

    /** `isDark`: the theme shown is dark. */
    function IsDark(): (dark: bool)
      reads this
      ensures dark <==> current == DarkTheme
    {
      current == DarkTheme
    }

    /** `isDarkMode(mode?)`: the mode given, or the service's own. */
    function IsDarkModeOf(given: Option<ThemeMode>, systemDark: bool): (dark: bool)
      reads this
      ensures given.Some? ==> dark == IsDarkMode(given.value, systemDark)
      ensures given.None? ==> dark == IsDarkMode(mode, systemDark)
    {
      IsDarkMode(if given.Some? then given.value else mode, systemDark)
    }

    /** `applyTheme`: the shown theme becomes the one the mode resolves to;
        the mode itself is left alone. */
    method ApplyTheme(m: ThemeMode, systemDark: bool)
      modifies this
      ensures mode == old(mode)
      ensures current == Shown(m, systemDark)
    {
      var isDark := IsDarkMode(m, systemDark);
      current := if isDark then DarkTheme else LightTheme;
    }

    /** `setThemeMode`: the mode is set and applied. */
    method SetThemeMode(m: ThemeMode, systemDark: bool)
      modifies this
      ensures mode == m
      ensures current == DarkTheme <==> m == Dark || (m == Auto && systemDark)
      ensures ShowsMode(systemDark)
    {
      mode := m;
      ApplyTheme(m, systemDark);
    }

    /** `toggleTheme`: the result is always an explicit mode; from "auto" it
        is the opposite of the theme shown, otherwise the other explicit
        mode.  When the theme shown matched the mode, it changes. */
    method ToggleTheme(systemDark: bool)
      modifies this
      ensures mode != Auto
      ensures old(mode) == Auto ==> (mode == Dark <==> old(current) != DarkTheme)
      ensures old(mode) != Auto ==> mode != old(mode)
      ensures ShowsMode(systemDark)
      ensures old(ShowsMode(systemDark)) ==> current != old(current)
    {
      ghost var wasShowing := ShowsMode(systemDark);
      if wasShowing {
        ToggleFlipsShown(mode, systemDark);
      }
      var currentMode := mode;
      var currentTheme := current;
      var newMode: ThemeMode;
      if currentMode == Auto {
        newMode := if currentTheme == DarkTheme then Light else Dark;
      } else {
        newMode := if currentMode == Dark then Light else Dark;
      }
      SetThemeMode(newMode, systemDark);
    }

    /** `resetTheme`: back to "auto", showing the system preference. */
    method ResetTheme(systemDark: bool)
      modifies this
      ensures mode == Auto
      ensures current == DarkTheme <==> systemDark
    {
      SetThemeMode(Auto, systemDark);
    }

    /** The handler for a change of the system preference: in "auto" mode
        the theme shown follows it; otherwise nothing changes. */
    method OnSystemChange(matches: bool)
      modifies this
      ensures mode == old(mode)
      ensures old(mode) == Auto ==> (current == DarkTheme <==> matches)
      ensures old(mode) != Auto ==> current == old(current)
      ensures old(ShowsMode(!matches)) ==> ShowsMode(matches)
    {
      if mode == Auto {
        current := if matches then DarkTheme else LightTheme;
      }
    }
  }
}
