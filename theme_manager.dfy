// The theme switcher (static/js/theme-manager.js): one ThemeManager per
// page keeps the current theme, mirrors it on the `data-theme` attribute
// of html and body, saves it under 'igreen-theme', posts it to the server
// and keeps the toggle button's icon and caption in step.
module Themes {
  import opened Common
  import opened JsonStore

  const ThemeKey: string := "igreen-theme"

  predicate Known(theme: string)
  {
    theme == "light" || theme == "dark"
  }

  /** What `GET /api/user/theme` gave: no answer (network error or a body
      that is not JSON), a non-ok status, or a JSON body. */
  datatype ThemeReply = Unreachable | NotOk(status: int) | Body(success: bool, theme: Option<string>)

  /** `loadThemeFromServer`: the body's theme when it reports success, else
      null. */
  function ServerTheme(reply: ThemeReply): (t: Option<string>)
    ensures t.Some? <==> reply.Body? && reply.success && reply.theme.Some?
    ensures t.Some? ==> t == reply.theme
  {
    if reply.Body? && reply.success then reply.theme else None
  }

  /** The theme `init` settles on: the server's when it is 'light' or
      'dark', else the saved text when there is a non-empty one (whatever
      it says), else 'light'. */
  function InitialTheme(server: Option<string>, st: Storage): (t: string)
    ensures t != ""
    ensures server.Some? && Known(server.value) ==> t == server.value
    ensures !(server.Some? && Known(server.value)) && Stored(GetItem(st, ThemeKey)) ==> t == st[ThemeKey]
    ensures !(server.Some? && Known(server.value)) && !Stored(GetItem(st, ThemeKey)) ==> t == "light"
  {
    if server.Some? && Known(server.value) then server.value
    else if Stored(GetItem(st, ThemeKey)) then st[ThemeKey]
    else "light"
  }

  /** An unusable server answer leaves the choice to the saved value. */
  lemma ServerFailureFallsBack(reply: ThemeReply, st: Storage)
    requires !reply.Body? || !reply.success
    ensures InitialTheme(ServerTheme(reply), st) == (if Stored(GetItem(st, ThemeKey)) then st[ThemeKey] else "light")
  {
  }

  /** `toggleTheme`'s choice: 'dark' from 'light', 'light' from anything
      else (also before `init` has run, when there is no theme yet). */
  function Toggled(current: Option<string>): (t: string)
    ensures Known(t)
    ensures t == "dark" <==> current == Some("light")
  {
    if current == Some("light") then "dark" else "light"
  }

  /** Two toggles from a known theme come back to it; from any other text
      they end on 'dark'. */
  lemma TwoTogglesRestore(theme: string)
    ensures Toggled(Some(Toggled(Some(theme)))) == (if Known(theme) then theme else "dark")
  {
  }

  /** The toggle button's look: the sun and 'Modo Claro' in the dark theme,
      the moon and 'Modo Escuro' otherwise. */
  datatype Look = Look(icon: string, text: string, title: string)

  function LookFor(current: Option<string>): (l: Look)
    ensures current == Some("dark") ==> l == Look("fas fa-sun", "Modo Claro", "Alternar para Modo Claro")
    ensures current != Some("dark") ==> l == Look("fas fa-moon", "Modo Escuro", "Alternar para Modo Escuro")
  {
    if current == Some("dark") then Look("fas fa-sun", "Modo Claro", "Alternar para Modo Claro")
    else Look("fas fa-moon", "Modo Escuro", "Alternar para Modo Escuro")
  }

  /** The button always offers the theme a toggle would switch to. */
  lemma LookNamesTheOtherTheme(theme: string)
    requires Known(theme)
    ensures LookFor(Some(theme)).text == (if Toggled(Some(theme)) == "light" then "Modo Claro" else "Modo Escuro")
  {
  }

  /** The `data-theme` attribute the script leaves on the root element
      before any manager exists: 'dark' when nothing is saved and the
      system prefers dark, else the markup's own. */
  function EarlyAttribute(st: Storage, prefersDark: bool, markup: Option<string>): (a: Option<string>)
    ensures !Stored(GetItem(st, ThemeKey)) && prefersDark ==> a == Some("dark")
    ensures Stored(GetItem(st, ThemeKey)) || !prefersDark ==> a == markup
  {
    if !Stored(GetItem(st, ThemeKey)) && prefersDark then Some("dark") else markup
  }

  class ThemeManager {
    /** `this.currentTheme`; None until a theme is applied. */
    var current: Option<string>
    var storage: Storage
    /** The `data-theme` attribute of the html and body elements. */
    var htmlTheme: Option<string>
    var bodyTheme: Option<string>
    /** The toggle button's icon class, caption and title. */
    var look: Look
    /** The themes posted to `/api/user/theme`, in order. */
    var posted: seq<string>
    /** The `themeChanged` events dispatched, by theme. */
    var events: seq<string>
    /** The change notifications shown, by theme. */
    var notices: seq<string>
    /** Whether `#theme-toggle` exists. */
    const hasButton: bool

    /** Loading the script, then `new ThemeManager()` (which does nothing
        until `init`). */
    constructor (st: Storage, prefersDark: bool, markup: Option<string>, bodyMarkup: Option<string>, button: bool, buttonLook: Look)
      ensures current.None? && storage == st && hasButton == button && look == buttonLook
      ensures htmlTheme == EarlyAttribute(st, prefersDark, markup) && bodyTheme == bodyMarkup
      ensures posted == [] && events == [] && notices == []
    {
      current := None;
      storage := st;
      htmlTheme := EarlyAttribute(st, prefersDark, markup);
      bodyTheme := bodyMarkup;
      hasButton := button;
      look := buttonLook;
      posted, events, notices := [], [], [];
    }

    /** `updateToggleIcon`: the button, when there is one, shows the look
        of the current theme. */
    method UpdateToggleIcon()
      modifies this
      ensures look == if hasButton then LookFor(current) else old(look)
      ensures current == old(current) && storage == old(storage)
      ensures htmlTheme == old(htmlTheme) && bodyTheme == old(bodyTheme)
      ensures posted == old(posted) && events == old(events) && notices == old(notices)
    {
      if hasButton {
        look := LookFor(current);
      }
    }

    /** `applyTheme`: 'dark' sets the attribute on html and body, anything
        else removes it; the theme becomes current and saved, is posted to
        the server when it is not empty, the button follows, and a
        `themeChanged` event carries it. */
    method ApplyTheme(theme: string)
      modifies this
      ensures current == Some(theme) && storage == old(storage)[ThemeKey := theme]
      ensures htmlTheme == (if theme == "dark" then Some("dark") else None) && bodyTheme == htmlTheme
      ensures look == if hasButton then LookFor(Some(theme)) else old(look)
      ensures posted == old(posted) + (if theme != "" then [theme] else [])
      ensures events == old(events) + [theme] && notices == old(notices)
    {
      if theme == "dark" {
        htmlTheme, bodyTheme := Some("dark"), Some("dark");
      } else {
        htmlTheme, bodyTheme := None, None;
      }
      current := Some(theme);
      storage := storage[ThemeKey := theme];
      if theme != "" {
        posted := posted + [theme];
      }
      UpdateToggleIcon();
      events := events + [theme];
    }

    /** `init`, given the server's answer: the chosen theme is applied. */
    method Init(reply: ThemeReply)
      modifies this
      ensures current == Some(InitialTheme(ServerTheme(reply), old(storage)))
      ensures storage == old(storage)[ThemeKey := current.value] && Stored(GetItem(storage, ThemeKey))
      ensures htmlTheme == (if current == Some("dark") then Some("dark") else None) && bodyTheme == htmlTheme
      ensures look == if hasButton then LookFor(current) else old(look)
      ensures posted == old(posted) + [current.value] && events == old(events) + [current.value]
      ensures notices == old(notices)
    {
      var server := ServerTheme(reply);
      var theme: string;
      if server.Some? && Known(server.value) {
        theme := server.value;
      } else {
        var saved := GetItem(storage, ThemeKey);
        theme := if Stored(saved) then saved.value else "light";
      }
      ApplyTheme(theme);
    }

    /** `toggleTheme`: the other theme is applied and announced. */
    method ToggleTheme()
      modifies this
      ensures current == Some(Toggled(old(current))) && Known(current.value)
      ensures storage == old(storage)[ThemeKey := current.value]
      ensures htmlTheme == (if current == Some("dark") then Some("dark") else None) && bodyTheme == htmlTheme
      ensures look == if hasButton then LookFor(current) else old(look)
      ensures posted == old(posted) + [current.value] && events == old(events) + [current.value]
      ensures notices == old(notices) + [current.value]
    {
      var next := Toggled(current);
      ApplyTheme(next);
      notices := notices + [next];
    }

    /** `setTheme`: only 'light' and 'dark' are applied; any other value
        changes nothing. */
    method SetTheme(theme: string)
      modifies this
      ensures Known(theme) ==> current == Some(theme) && storage == old(storage)[ThemeKey := theme]
      ensures Known(theme) ==> htmlTheme == (if theme == "dark" then Some("dark") else None) && bodyTheme == htmlTheme
      ensures Known(theme) ==> look == (if hasButton then LookFor(Some(theme)) else old(look))
      ensures Known(theme) ==> posted == old(posted) + [theme] && events == old(events) + [theme]
      ensures !Known(theme) ==>
                current == old(current) && storage == old(storage) && htmlTheme == old(htmlTheme)
                && bodyTheme == old(bodyTheme) && look == old(look) && posted == old(posted) && events == old(events)
      ensures notices == old(notices)
    {
      if Known(theme) {
        ApplyTheme(theme);
      }
    }

    /** The system colour scheme changed: its theme is set, and so
        applied, saved, posted and announced, only while no theme is
        saved. */
    method OnSystemChange(prefersDark: bool)
      modifies this
      ensures !Stored(GetItem(old(storage), ThemeKey)) ==>
                current == Some(if prefersDark then "dark" else "light")
                && storage == old(storage)[ThemeKey := current.value]
      ensures !Stored(GetItem(old(storage), ThemeKey)) ==>
                htmlTheme == (if prefersDark then Some("dark") else None) && bodyTheme == htmlTheme
                && look == (if hasButton then LookFor(current) else old(look))
                && posted == old(posted) + [current.value] && events == old(events) + [current.value]
      ensures Stored(GetItem(old(storage), ThemeKey)) ==>
                current == old(current) && storage == old(storage) && htmlTheme == old(htmlTheme)
                && bodyTheme == old(bodyTheme) && look == old(look) && posted == old(posted) && events == old(events)
      ensures notices == old(notices)
    {
      if !Stored(GetItem(storage, ThemeKey)) {
        SetTheme(if prefersDark then "dark" else "light");
      }
    }

    /** `getCurrentTheme`. */
    method GetCurrentTheme() returns (t: Option<string>)
      ensures t == current
    {
      t := current;
    }
  }

  /** Once `init` has run a theme is always saved, so a later change of the
      system colour scheme is never followed. */
  method SystemChangeAfterInit(m: ThemeManager, reply: ThemeReply, prefersDark: bool)
    modifies m
    ensures m.current == Some(InitialTheme(ServerTheme(reply), old(m.storage)))
    ensures m.storage == old(m.storage)[ThemeKey := m.current.value]
  {
    m.Init(reply);
    m.OnSystemChange(prefersDark);
  }
}
