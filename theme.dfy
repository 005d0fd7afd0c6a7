/** The theme controller every page script starts with: the `data-theme`
    attribute on the root element, the `portfolio-theme` storage slot, and the
    toggle button's glyph and aria-label. */
module Theme {
  import opened Pages

  const Dark := "dark"
  const Light := "light"
  /** ☀️ (sun and variation selector 16): offers the switch to light mode. */
  const Sun := "\U{2600}\U{FE0F}"
  /** 🌙 (crescent moon): offers the switch to dark mode. */
  const Moon := "\U{1F319}"
  const ToLightLabel := "Switch to Light Mode"
  const ToDarkLabel := "Switch to Dark Mode"

  /** JavaScript truthiness of a storage read: `null` and `""` are falsy. */
  predicate Truthy(v: Option<string>)
  {
    v.Some? && v.value != ""
  }

  /** The theme a page loads with: the stored value when truthy, else "dark". */
  function ResolveTheme(stored: Option<string>): string
  {
    if Truthy(stored) then stored.value else Dark
  }

  /** The theme one toggle reaches: "light" from "dark", "dark" from anything else. */
  function NextTheme(t: string): string
  {
    if t == Dark then Light else Dark
  }

  function GlyphFor(t: string): string
  {
    if t == Dark then Sun else Moon
  }

  function LabelFor(t: string): string
  {
    if t == Dark then ToLightLabel else ToDarkLabel
  }

  /** The theme a glyph offers to switch to (anything but the sun offers dark). */
  function OfferedBy(glyph: string): string
  {
    if glyph == Sun then Light else Dark
  }

  /** The theme an aria-label offers to switch to. */
  function OfferedByLabel(aria: string): string
  {
    if aria == ToLightLabel then Light else Dark
  }

  /** Everything the controller reads and writes. `aria` is `None` while the
      button has no aria-label; `pendingUpdates` counts view-transition update
      callbacks the browser has not yet run. */
  datatype ThemeState = ThemeState(
    attr: string,
    stored: Option<string>,
    glyph: string,
    aria: Option<string>,
    pendingUpdates: nat)

  /** The button shows the glyph (and, where the page sets one, the label)
      that belongs to the current attribute. */
  predicate ButtonMatches(p: Page, s: ThemeState)
  {
    s.glyph == GlyphFor(s.attr) &&
    (SetsAriaLabel(p) ==> s.aria == Some(LabelFor(s.attr)))
  }

  /** Attribute and storage slot agree. */
  predicate Persisted(s: ThemeState)
  {
    s.stored == Some(s.attr)
  }

  // ---------------------------------------------------------------------
  // Specification of the steps
  // ---------------------------------------------------------------------

  /** The load-time step. */
  function Loaded(p: Page, s: ThemeState): ThemeState
  {
    var t := ResolveTheme(s.stored);
    s.(attr := t,
       stored := if PersistsDefaultTheme(p) && !Truthy(s.stored) then Some(Dark) else s.stored,
       glyph := GlyphFor(t),
       aria := if SetsAriaLabel(p) then Some(LabelFor(t)) else s.aria)
  }

  /** `toggleTheme`. */
  function Toggled(p: Page, s: ThemeState): ThemeState
  {
    var t := NextTheme(s.attr);
    s.(attr := t,
       stored := Some(t),
       glyph := GlyphFor(t),
       aria := if SetsAriaLabel(p) then Some(LabelFor(t)) else s.aria)
  }

  /** A click on the button: without `document.startViewTransition` it
      toggles at once; with it, the toggle is handed to the browser as the
      transition's update callback. */
  function Clicked(p: Page, hasViewTransition: bool, s: ThemeState): ThemeState
  {
    if !hasViewTransition then Toggled(p, s)
    else s.(pendingUpdates := s.pendingUpdates + 1)
  }

  /** The browser runs one pending update callback. */
  function UpdateRan(p: Page, s: ThemeState): ThemeState
    requires s.pendingUpdates > 0
  {
    Toggled(p, s).(pendingUpdates := s.pendingUpdates - 1)
  }

  // ---------------------------------------------------------------------
  // Properties
  // ---------------------------------------------------------------------

  /** Load resolves a missing or empty slot to "dark" and keeps any other
      stored string; pages that persist the default write it back. */
  lemma LoadResolvesStoredTheme(p: Page, s: ThemeState)
    ensures var r := Loaded(p, s);
      && (Truthy(s.stored) ==> r.attr == s.stored.value && r.stored == s.stored)
      && (!Truthy(s.stored) ==> r.attr == Dark)
      && (!Truthy(s.stored) && PersistsDefaultTheme(p) ==> r.stored == Some(Dark))
      && (!PersistsDefaultTheme(p) ==> r.stored == s.stored)
      && r.pendingUpdates == s.pendingUpdates
  {
  }

  /** After load on about, index or contact, attribute and storage agree. */
  lemma LoadPersists(p: Page, s: ThemeState)
    requires PersistsDefaultTheme(p)
    ensures Persisted(Loaded(p, s))
  {
  }

  /** After load the button shows the glyph for the attribute; the label
      is set only on pages that set one. */
  lemma LoadSetsButton(p: Page, s: ThemeState)
    ensures ButtonMatches(p, Loaded(p, s))
    ensures Loaded(p, s).glyph == Sun <==> Loaded(p, s).attr == Dark
    ensures SetsAriaLabel(p) ==>
      (Loaded(p, s).aria == Some(ToLightLabel) <==> Loaded(p, s).attr == Dark)
    ensures !SetsAriaLabel(p) ==> Loaded(p, s).aria == s.aria
  {
  }

  /** A toggle flips "dark" to "light" and everything else to "dark", writes
      the same value to storage and brings the button in line with it. */
  lemma ToggleFlips(p: Page, s: ThemeState)
    ensures var r := Toggled(p, s);
      && (r.attr == Light <==> s.attr == Dark)
      && (r.attr == Dark <==> s.attr != Dark)
      && Persisted(r)
      && ButtonMatches(p, r)
      && (!SetsAriaLabel(p) ==> r.aria == s.aria)
      && r.pendingUpdates == s.pendingUpdates
  {
  }

  /** Two toggles from "dark" or "light" give back the attribute, the button
      and a storage slot holding that attribute. */
  lemma ToggleTwice(p: Page, s: ThemeState)
    requires s.attr == Dark || s.attr == Light
    ensures var r := Toggled(p, Toggled(p, s));
      r.attr == s.attr && Persisted(r) && r.glyph == GlyphFor(s.attr) &&
      r.pendingUpdates == s.pendingUpdates
  {
  }

  /** When the slot already agreed with the attribute and the button matched,
      two toggles are the identity on the whole state. */
  lemma ToggleTwiceRestores(p: Page, s: ThemeState)
    requires s.attr == Dark || s.attr == Light
    requires Persisted(s) && ButtonMatches(p, s)
    ensures Toggled(p, Toggled(p, s)) == s
  {
  }

  /** From an unrecognised attribute one toggle lands on "dark". */
  lemma ToggleFromUnknown(p: Page, s: ThemeState)
    requires s.attr != Dark && s.attr != Light
    ensures Toggled(p, s).attr == Dark && Toggled(p, s).stored == Some(Dark)
  {
  }

  /** Whenever the button matches the attribute, its glyph and label offer
      the theme the next toggle reaches, never the current one. */
  lemma ButtonOffersNextTheme(p: Page, s: ThemeState)
    requires ButtonMatches(p, s)
    ensures OfferedBy(s.glyph) == NextTheme(s.attr)
    ensures OfferedBy(s.glyph) != s.attr
    ensures SetsAriaLabel(p) ==> OfferedByLabel(s.aria.value) == NextTheme(s.attr)
  {
  }

  /** Load, then any number of clicks and update callbacks keep the button
      matching the attribute. */
  lemma StepsKeepButtonMatching(p: Page, s: ThemeState, vt: bool)
    requires ButtonMatches(p, s)
    ensures ButtonMatches(p, Clicked(p, vt, s))
    ensures s.pendingUpdates > 0 ==> ButtonMatches(p, UpdateRan(p, s))
  {
  }

  /** Without the view-transition capability a click is exactly one toggle. */
  lemma ClickWithoutTransition(p: Page, s: ThemeState)
    ensures Clicked(p, false, s) == Toggled(p, s)
  {
  }

  /** With the capability a click changes nothing visible; running the one
      update callback it scheduled is then exactly one toggle. */
  lemma ClickWithTransition(p: Page, s: ThemeState)
    ensures var c := Clicked(p, true, s);
      c.(pendingUpdates := s.pendingUpdates) == s &&
      c.pendingUpdates == s.pendingUpdates + 1 &&
      UpdateRan(p, c) == Toggled(p, s)
  {
  }

  /** The slot is shared by all pages: a theme chosen on one page is the
      theme the next page loads with. */
  lemma ChoiceCarriesAcrossPages(p: Page, q: Page, s: ThemeState, next: ThemeState)
    ensures Loaded(q, next.(stored := Toggled(p, s).stored)).attr == Toggled(p, s).attr
  {
  }

  /** On projects and resume the default is not written at load, so a slot
      that started missing or empty is left so, and is not restored by a
      round trip of toggles. */
  lemma NonPersistingRoundTripWritesSlot(p: Page, s: ThemeState)
    requires !PersistsDefaultTheme(p)
    requires !Truthy(s.stored)
    ensures Loaded(p, s).stored == s.stored
    ensures Toggled(p, Toggled(p, Loaded(p, s))).stored == Some(Dark)
  {
  }

  // ---------------------------------------------------------------------
  // The five copies
  // ---------------------------------------------------------------------

  /** The index page's theme code behaves exactly as the about page's. */
  lemma IndexThemeIsAboutTheme(s: ThemeState, vt: bool)
    ensures Loaded(Index, s) == Loaded(About, s)
    ensures Toggled(Index, s) == Toggled(About, s)
    ensures Clicked(Index, vt, s) == Clicked(About, vt, s)
  {
  }

  /** The contact page persists the default like about but never writes an
      aria-label: only the glyph follows the theme. */
  lemma ContactThemeGlyphOnly(s: ThemeState, vt: bool)
    ensures Persisted(Loaded(Contact, s))
    ensures Loaded(Contact, s).glyph == GlyphFor(Loaded(About, s).attr)
    ensures Loaded(Contact, s).aria == s.aria
    ensures Toggled(Contact, s) == Toggled(About, s).(aria := s.aria)
    ensures Clicked(Contact, vt, s).aria == s.aria
  {
  }

  /** The projects page resolves the theme like about but leaves an empty
      slot as it found it, and never writes an aria-label. */
  lemma ProjectsThemeDoesNotPersistDefault(s: ThemeState)
    ensures Loaded(Projects, s).attr == Loaded(About, s).attr
    ensures Loaded(Projects, s).glyph == Loaded(About, s).glyph
    ensures Loaded(Projects, s).stored == s.stored
    ensures !Truthy(s.stored) ==> Loaded(Projects, s).stored != Loaded(About, s).stored
    ensures Toggled(Projects, s) == Toggled(About, s).(aria := s.aria)
  {
  }

  /** The resume page's theme code behaves exactly as the projects page's. */
  lemma ResumeThemeIsProjectsTheme(s: ThemeState, vt: bool)
    ensures Loaded(Resume, s) == Loaded(Projects, s)
    ensures Toggled(Resume, s) == Toggled(Projects, s)
    ensures Clicked(Resume, vt, s) == Clicked(Projects, vt, s)
  {
  }

  // ---------------------------------------------------------------------
  // The controller as the page scripts hold it
  // ---------------------------------------------------------------------

  /** The root attribute, the storage slot and the button of one page. */
  class ThemeController {
    const page: Page
    var dataTheme: string
    var storedTheme: Option<string>
    var glyph: string
    var ariaLabel: Option<string>
    var pendingUpdates: nat

    function State(): ThemeState
      reads this
    {
      ThemeState(dataTheme, storedTheme, glyph, ariaLabel, pendingUpdates)
    }

    /** The page as the browser hands it to the script: whatever storage
        holds, whatever the markup put on the root and the button. */
    constructor (page: Page, stored: Option<string>, attr: string, glyph: string, aria: Option<string>)
      ensures this.page == page
      ensures State() == ThemeState(attr, stored, glyph, aria, 0)
    {
      this.page := page;
      dataTheme := attr;
      storedTheme := stored;
      this.glyph := glyph;
      ariaLabel := aria;
      pendingUpdates := 0;
    }

    /** The theme block run on `DOMContentLoaded`. */
    method Init()
      modifies this
      ensures State() == Loaded(page, old(State()))
    {
      var currentTheme := storedTheme;
      var theme: string;
      if !Truthy(currentTheme) {
        theme := Dark;
        if PersistsDefaultTheme(page) {
          storedTheme := Some(Dark);
        }
      } else {
        theme := currentTheme.value;
      }
      dataTheme := theme;
      if theme == Dark {
        glyph := Sun;
        if SetsAriaLabel(page) { ariaLabel := Some(ToLightLabel); }
      } else {
        glyph := Moon;
        if SetsAriaLabel(page) { ariaLabel := Some(ToDarkLabel); }
      }
    }

    /** `toggleTheme`: reads the attribute and writes attribute, storage and
        button. */
    method ToggleTheme()
      modifies this
      ensures State() == Toggled(page, old(State()))
    {
      var theme := dataTheme;
      if theme == Dark {
        dataTheme := Light;
        storedTheme := Some(Light);
        glyph := Moon;
        if SetsAriaLabel(page) { ariaLabel := Some(ToDarkLabel); }
      } else {
        dataTheme := Dark;
        storedTheme := Some(Dark);
        glyph := Sun;
        if SetsAriaLabel(page) { ariaLabel := Some(ToLightLabel); }
      }
    }

    /** The button's click listener. */
    method Click(hasViewTransition: bool)
      modifies this
      ensures State() == Clicked(page, hasViewTransition, old(State()))
    {
      if !hasViewTransition {
        ToggleTheme();
        return;
      }
      pendingUpdates := pendingUpdates + 1;
    }

    /** The browser runs the update callback of one started transition. */
    method RunTransitionUpdate()
      requires pendingUpdates > 0
      modifies this
      ensures State() == UpdateRan(page, old(State()))
    {
      ToggleTheme();
      pendingUpdates := pendingUpdates - 1;
    }
  }
}
