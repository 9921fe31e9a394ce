/** The navigation bar's interactive state (src/components/Navbar.tsx):
    the theme taken from local storage or the system preference, the theme
    toggle, the scroll threshold and the mobile menu. Local storage is the
    optional value stored under the key 'theme'; the page's class list is
    reduced to whether it holds 'dark'. */
module Navigation {
  import opened Wrappers

  /** Past this many pixels of vertical scroll the bar takes its solid style. */
  const ScrollThreshold: real := 20.0

  /** Everything the handlers read or write, as a value. */
  datatype NavState = NavState(
    isScrolled: bool,
    isMobileMenuOpen: bool,
    isDark: bool,
    storedTheme: Option<string>,
    darkClass: bool)

  /** The word stored under 'theme' for a dark or a light page. */
  function ThemeName(dark: bool): string {
    if dark then "dark" else "light"
  }

  /** `theme === 'dark' || (!theme && prefersDark)`: a missing or empty
      stored theme defers to the system preference. */
  predicate ShouldBeDark(storedTheme: Option<string>, prefersDark: bool) {
    storedTheme == Some("dark") || ((storedTheme.None? || storedTheme.value == "") && prefersDark)
  }

  /** The mount effect: decide the theme; add the class when dark. It never
      removes the class. */
  function AfterInit(s: NavState, prefersDark: bool): NavState {
    var dark := ShouldBeDark(s.storedTheme, prefersDark);
    s.(isDark := dark, darkClass := s.darkClass || dark)
  }

  /** `toggleTheme` */
  function AfterToggle(s: NavState): NavState {
    var dark := !s.isDark;
    s.(isDark := dark, darkClass := dark, storedTheme := Some(ThemeName(dark)))
  }

  /** `handleScroll`: `setIsScrolled(window.scrollY > 20)` */
  function AfterScroll(s: NavState, scrollY: real): NavState {
    s.(isScrolled := scrollY > ScrollThreshold)
  }

  /** `scrollToSection`: the menu closes only when the target was found. */
  function AfterScrollTo(s: NavState, targetExists: bool): NavState {
    if targetExists then s.(isMobileMenuOpen := false) else s
  }

  /** The menu button: `setIsMobileMenuOpen(!isMobileMenuOpen)` */
  function AfterMenuButton(s: NavState): NavState {
    s.(isMobileMenuOpen := !s.isMobileMenuOpen)
  }

  /** The backdrop: `setIsMobileMenuOpen(false)` */
  function AfterBackdrop(s: NavState): NavState {
    s.(isMobileMenuOpen := false)
  }

  // ---------------------------------------------------------------------
  // Properties of the transitions
  // ---------------------------------------------------------------------

  /** The page starts dark exactly when 'dark' is stored, or nothing is stored
      and the system prefers dark; the class is then present. */
  lemma InitialTheme(s: NavState, prefersDark: bool)
    ensures AfterInit(s, prefersDark).isDark <==>
      s.storedTheme == Some("dark") || ((s.storedTheme.None? || s.storedTheme == Some("")) && prefersDark)
    ensures AfterInit(s, prefersDark).isDark ==> AfterInit(s, prefersDark).darkClass
    ensures AfterInit(s, prefersDark).darkClass == (s.darkClass || AfterInit(s, prefersDark).isDark)
  {
  }

  /** Any other stored word ('light' included) forces the light theme, even
      when the system prefers dark. */
  lemma StoredThemeOverridesSystem(s: NavState, theme: string)
    requires s.storedTheme == Some(theme) && theme != "" && theme != "dark"
    ensures !AfterInit(s, true).isDark
  {
  }

  /** Toggling negates the theme, stores its name and sets the class to match. */
  lemma ToggleWritesTheme(s: NavState)
    ensures AfterToggle(s).isDark == !s.isDark
    ensures AfterToggle(s).darkClass == AfterToggle(s).isDark
    ensures AfterToggle(s).storedTheme == Some(if AfterToggle(s).isDark then "dark" else "light")
    ensures AfterToggle(s).isScrolled == s.isScrolled && AfterToggle(s).isMobileMenuOpen == s.isMobileMenuOpen
  {
  }

  /** Two toggles restore the theme and leave the class matching it. */
  lemma ToggleTwice(s: NavState)
    ensures AfterToggle(AfterToggle(s)).isDark == s.isDark
    ensures AfterToggle(AfterToggle(s)).darkClass == s.isDark
    ensures s.darkClass == s.isDark && s.storedTheme == Some(ThemeName(s.isDark)) ==>
      AfterToggle(AfterToggle(s)) == s
  {
  }

  /** After a toggle, the stored theme read back at the next mount gives the
      same theme whatever the system prefers. */
  lemma ToggledThemeSurvivesReload(s: NavState, prefersDark: bool)
    ensures AfterInit(AfterToggle(s), prefersDark).isDark == AfterToggle(s).isDark
  {
  }

  /** The bar is solid strictly past 20 pixels: 20 itself is not enough. */
  lemma ScrollThresholdIsStrict(s: NavState, scrollY: real)
    ensures AfterScroll(s, scrollY).isScrolled <==> scrollY > ScrollThreshold
    ensures !AfterScroll(s, ScrollThreshold).isScrolled
    ensures AfterScroll(s, scrollY).(isScrolled := s.isScrolled) == s
  {
  }

  /** A jump closes the menu only when the section exists. */
  lemma ScrollToClosesMenu(s: NavState, targetExists: bool)
    ensures targetExists ==> !AfterScrollTo(s, targetExists).isMobileMenuOpen
    ensures !targetExists ==> AfterScrollTo(s, targetExists) == s
    ensures AfterScrollTo(s, targetExists).isDark == s.isDark
  {
  }

  /** The menu button flips the menu; the backdrop always closes it. */
  lemma MenuControls(s: NavState)
    ensures AfterMenuButton(s).isMobileMenuOpen == !s.isMobileMenuOpen
    ensures AfterMenuButton(AfterMenuButton(s)) == s
    ensures !AfterBackdrop(s).isMobileMenuOpen
    ensures AfterBackdrop(AfterBackdrop(s)) == AfterBackdrop(s)
  {
  }

  // ---------------------------------------------------------------------
  // The component
  // ---------------------------------------------------------------------

  class Navbar {
    var isScrolled: bool
    var isMobileMenuOpen: bool
    var isDark: bool
    /** The value stored under 'theme' in local storage. */
    var storedTheme: Option<string>
    /** Whether the document element's class list holds 'dark'. */
    var darkClass: bool

    function State(): NavState
      reads this
    {
      NavState(isScrolled, isMobileMenuOpen, isDark, storedTheme, darkClass)
    }

    /** First render: the three `useState(false)` flags, over whatever the
        browser already holds. */
    constructor (storedTheme: Option<string>, darkClass: bool)
      ensures State() == NavState(false, false, false, storedTheme, darkClass)
    {
      isScrolled := false;
      isMobileMenuOpen := false;
      isDark := false;
      this.storedTheme := storedTheme;
      this.darkClass := darkClass;
    }

    /** The mount effect; `prefersDark` is the media query's answer. */
    method InitTheme(prefersDark: bool)
      modifies this
      ensures State() == AfterInit(old(State()), prefersDark)
    {
      var theme := storedTheme;
      var shouldBeDark := theme == Some("dark") || ((theme.None? || theme.value == "") && prefersDark);
      isDark := shouldBeDark;
      if shouldBeDark {
        darkClass := true;
      }
    }

    method ToggleTheme()
      modifies this
      ensures State() == AfterToggle(old(State()))
    {
      var newTheme := !isDark;
      isDark := newTheme;
      if newTheme {
        darkClass := true;
        storedTheme := Some("dark");
      } else {
        darkClass := false;
        storedTheme := Some("light");
      }
    }

    method HandleScroll(scrollY: real)
      modifies this
      ensures State() == AfterScroll(old(State()), scrollY)
    {
      isScrolled := scrollY > ScrollThreshold;
    }

    /** `targetExists` is whether `document.querySelector(href)` found the
        section. */
    method ScrollToSection(targetExists: bool)
      modifies this
      ensures State() == AfterScrollTo(old(State()), targetExists)
    {
      if targetExists {
        isMobileMenuOpen := false;
      }
    }

    method ToggleMobileMenu()
      modifies this
      ensures State() == AfterMenuButton(old(State()))
    {
      isMobileMenuOpen := !isMobileMenuOpen;
    }

    method CloseMobileMenu()
      modifies this
      ensures State() == AfterBackdrop(old(State()))
    {
      isMobileMenuOpen := false;
    }
  }
}
