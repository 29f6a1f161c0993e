// The layout's own theme and sidebar toggles (static/js/theme-sidebar.js):
// the theme lives in the root element's `data-theme` attribute and under
// 'theme', the sidebar's collapsed state in its classes and under
// 'sidebarCollapsed', and two keyboard shortcuts press the toggles.
module ThemeSidebar {
  import opened Common
  import opened JsonStore

  const ThemeKey: string := "theme"
  const CollapsedKey: string := "sidebarCollapsed"

  /** `localStorage.getItem('theme') || 'light'`. */
  function SavedTheme(st: Storage): (t: string)
    ensures t != ""
    ensures Stored(GetItem(st, ThemeKey)) ==> t == st[ThemeKey]
    ensures !Stored(GetItem(st, ThemeKey)) ==> t == "light"
  {
    if Stored(GetItem(st, ThemeKey)) then st[ThemeKey] else "light"
  }

  /** The theme a click switches to: 'light' from 'dark', 'dark' from
      anything else (also from no attribute at all). */
  function Flipped(attr: Option<string>): (t: string)
    ensures t == "light" || t == "dark"
    ensures t == "light" <==> attr == Some("dark")
  {
    if attr == Some("dark") then "light" else "dark"
  }

  /** Two clicks from 'light' or 'dark' come back to it. */
  lemma TwoClicksRestore(theme: string)
    requires theme == "light" || theme == "dark"
    ensures Flipped(Some(Flipped(Some(theme)))) == theme
  {
  }

  /** The sidebar starts collapsed exactly when the saved text is 'true'. */
  function SavedCollapsed(st: Storage): (c: bool)
    ensures c <==> CollapsedKey in st && st[CollapsedKey] == "true"
  {
    GetItem(st, CollapsedKey) == Some("true")
  }

  /** What a toggle stores (`String(b)`, as `setItem` writes a boolean) is
      what the next page load reads back. */
  lemma CollapsedRoundTrip(st: Storage, b: bool)
    ensures SavedCollapsed(st[CollapsedKey := BoolText(b)]) == b
  {
  }

  /** The icon class and title `updateThemeIcon` gives the button. */
  datatype Icon = Icon(className: string, title: string)

  function IconFor(theme: string): (i: Icon)
    ensures theme == "dark" ==> i == Icon("fas fa-sun", "Alternar para Modo Claro")
    ensures theme != "dark" ==> i == Icon("fas fa-moon", "Alternar para Modo Escuro")
  {
    if theme == "dark" then Icon("fas fa-sun", "Alternar para Modo Claro")
    else Icon("fas fa-moon", "Alternar para Modo Escuro")
  }

  /** A `keydown` event's modifier flags and key. */
  datatype KeyEvent = KeyEvent(ctrl: bool, meta: bool, shift: bool, key: string)

  predicate ThemeShortcut(e: KeyEvent)
  {
    (e.ctrl || e.meta) && e.shift && e.key == "D"
  }

  predicate SidebarShortcut(e: KeyEvent)
  {
    (e.ctrl || e.meta) && e.shift && e.key == "S"
  }

  /** No key presses both toggles. */
  lemma ShortcutsExclusive(e: KeyEvent)
    ensures !(ThemeShortcut(e) && SidebarShortcut(e))
  {
  }

  class Layout {
    var storage: Storage
    /** The root element's `data-theme`. */
    var theme: Option<string>
    var icon: Icon
    /** Whether `.sidebar` and `.main-content` carry their collapsed
        classes. */
    var sidebarCollapsed: bool
    var mainCollapsed: bool
    const hasThemeToggle: bool
    /** The theme toggle has an `i` element (which needs the toggle). */
    const hasIcon: bool
    const hasSidebarToggle: bool
    const hasSidebar: bool
    const hasMain: bool

    predicate Valid()
      reads this
    {
      hasIcon ==> hasThemeToggle
    }

    /** The DOMContentLoaded handler: the saved theme (or 'light') is put
        on the root element and the icon, and the sidebar is collapsed when
        'true' was saved. */
    constructor (st: Storage, themeToggle: bool, themeIcon: bool, sidebarToggle: bool, sidebar: bool, main: bool,
                 markupIcon: Icon, markupSidebar: bool, markupMain: bool)
      ensures Valid()
      ensures storage == st && theme == Some(SavedTheme(st))
      ensures icon == if hasIcon then IconFor(SavedTheme(st)) else markupIcon
      ensures hasThemeToggle == themeToggle && hasIcon == (themeToggle && themeIcon)
      ensures hasSidebarToggle == sidebarToggle && hasSidebar == sidebar && hasMain == main
      ensures sidebarCollapsed == (if sidebar && SavedCollapsed(st) then true else markupSidebar)
      ensures mainCollapsed == (if main && SavedCollapsed(st) then true else markupMain)
    {
      storage := st;
      hasThemeToggle := themeToggle;
      hasIcon := themeToggle && themeIcon;
      hasSidebarToggle := sidebarToggle;
      hasSidebar := sidebar;
      hasMain := main;
      var saved := SavedTheme(st);
      theme := Some(saved);
      icon := if themeToggle && themeIcon then IconFor(saved) else markupIcon;
      sidebarCollapsed := if sidebar && SavedCollapsed(st) then true else markupSidebar;
      mainCollapsed := if main && SavedCollapsed(st) then true else markupMain;
    }

    /** A click on the theme toggle: the other theme goes on the root
        element, into storage and onto the icon. */
    method ThemeClick()
      requires Valid()
      modifies this
      ensures Valid()
      ensures theme == Some(Flipped(old(theme))) && storage == old(storage)[ThemeKey := theme.value]
      ensures icon == if hasIcon then IconFor(theme.value) else old(icon)
      ensures sidebarCollapsed == old(sidebarCollapsed) && mainCollapsed == old(mainCollapsed)
    {
      var next := Flipped(theme);
      theme := Some(next);
      storage := storage[ThemeKey := next];
      if hasIcon {
        icon := IconFor(next);
      }
    }

    /** A click on the sidebar toggle: the collapsed state read from the
        sidebar flips on both elements that exist and is saved. Without a
        sidebar the read throws and nothing changes. */
    method SidebarClick()
      requires Valid()
      modifies this
      ensures Valid()
      ensures hasSidebar ==>
                sidebarCollapsed == !old(sidebarCollapsed)
                && mainCollapsed == (if hasMain then !old(sidebarCollapsed) else old(mainCollapsed))
                && storage == old(storage)[CollapsedKey := BoolText(sidebarCollapsed)]
      ensures !hasSidebar ==>
                sidebarCollapsed == old(sidebarCollapsed) && mainCollapsed == old(mainCollapsed) && storage == old(storage)
      ensures theme == old(theme) && icon == old(icon)
    {
      if !hasSidebar {
        return;
      }
      var wasCollapsed := sidebarCollapsed;
      sidebarCollapsed := !wasCollapsed;
      if hasMain {
        mainCollapsed := !wasCollapsed;
      }
      storage := storage[CollapsedKey := BoolText(!wasCollapsed)];
    }

    /** A key press: Ctrl/Cmd+Shift+D clicks the theme toggle and
        Ctrl/Cmd+Shift+S the sidebar toggle, when they exist, with the
        effects of those clicks (the sidebar click throws, changing nothing,
        when there is no sidebar); any other key changes nothing. */
    method KeyDown(e: KeyEvent)
      requires Valid()
      modifies this
      ensures Valid()
      ensures ThemeShortcut(e) && hasThemeToggle ==>
                theme == Some(Flipped(old(theme))) && storage == old(storage)[ThemeKey := theme.value]
                && icon == (if hasIcon then IconFor(theme.value) else old(icon))
                && sidebarCollapsed == old(sidebarCollapsed) && mainCollapsed == old(mainCollapsed)
      ensures SidebarShortcut(e) && hasSidebarToggle && hasSidebar ==>
                sidebarCollapsed == !old(sidebarCollapsed)
                && mainCollapsed == (if hasMain then !old(sidebarCollapsed) else old(mainCollapsed))
                && storage == old(storage)[CollapsedKey := BoolText(sidebarCollapsed)]
                && theme == old(theme) && icon == old(icon)
      ensures SidebarShortcut(e) && hasSidebarToggle && !hasSidebar ==>
                theme == old(theme) && icon == old(icon) && storage == old(storage)
                && sidebarCollapsed == old(sidebarCollapsed) && mainCollapsed == old(mainCollapsed)
      ensures !(ThemeShortcut(e) && hasThemeToggle) && !(SidebarShortcut(e) && hasSidebarToggle) ==>
                theme == old(theme) && icon == old(icon) && storage == old(storage)
                && sidebarCollapsed == old(sidebarCollapsed) && mainCollapsed == old(mainCollapsed)
    {
      if ThemeShortcut(e) && hasThemeToggle {
        ThemeClick();
      }
      if SidebarShortcut(e) && hasSidebarToggle {
        SidebarClick();
      }
    }
  }

  /** After any toggle the saved collapsed state is the sidebar's own, so a
      reload restores it. */
  method ToggleThenReload(page: Layout) returns (reloaded: bool)
    requires page.Valid() && page.hasSidebar
    modifies page
    ensures reloaded == page.sidebarCollapsed
  {
    page.SidebarClick();
    reloaded := SavedCollapsed(page.storage);
  }
}
