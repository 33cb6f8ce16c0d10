/**
 * The colour theme of src/app/core/services/theme.service.ts. The theme
 * signal's effect (apply to the document, then store) is run after every
 * change; the document's `data-theme` attribute, the root element's class
 * list and the theme-color meta tag are fields.
 */
module Theme {
  import opened Wrappers
  import opened Storage

  const THEME_KEY: string := "app_theme"
  const DARK_META: string := "#020617"
  const LIGHT_META: string := "#6366f1"

  datatype Mode = Light | Dark

  function Code(t: Mode): string
  {
    match t
    case Light => "light"
    case Dark => "dark"
  }

  /** The other theme. */
  function Flip(t: Mode): (r: Mode)
    ensures r != t
  {
    if t == Light then Dark else Light
  }

  lemma FlipTwice(t: Mode)
    ensures Flip(Flip(t)) == t
  {
  }

  /** `getStoredTheme`: a stored 'light' or 'dark' wins; otherwise the system preference. */
  function StoredTheme(stored: Option<string>, systemPrefersDark: bool): (t: Mode)
    ensures stored == Some("light") ==> t == Light
    ensures stored == Some("dark") ==> t == Dark
    ensures stored != Some("light") && stored != Some("dark") ==> (t == Dark <==> systemPrefersDark)
  {
    if stored == Some("light") then Light
    else if stored == Some("dark") then Dark
    else if systemPrefersDark then Dark
    else Light
  }

  /** The meta colour of a theme. */
  function MetaColor(t: Mode): string
  {
    if t == Dark then DARK_META else LIGHT_META
  }

  /** The root's classes after the two `classList.toggle(name, force)` calls. */
  function ThemeClasses(classes: set<string>, t: Mode): (r: set<string>)
    ensures ("dark-theme" in r <==> t == Dark) && ("light-theme" in r <==> t == Light)
    ensures forall c :: c != "dark-theme" && c != "light-theme" ==> (c in r <==> c in classes)
  {
    var dark := if t == Dark then classes + {"dark-theme"} else classes - {"dark-theme"};
    if t == Light then dark + {"light-theme"} else dark - {"light-theme"}
  }

  class ThemeService {
    var theme: Mode
    var dataTheme: string
    var rootClasses: set<string>
    /** The theme-color meta tag's content, when the page has that tag. */
    var metaContent: Option<string>
    const storage: LocalStorage

    /** The document and the storage show the current theme. */
    predicate Applied()
      reads this, storage
    {
      dataTheme == Code(theme) &&
      ("dark-theme" in rootClasses <==> theme == Dark) && ("light-theme" in rootClasses <==> theme == Light) &&
      (metaContent.Some? ==> metaContent.value == MetaColor(theme)) &&
      THEME_KEY in storage.items && storage.items[THEME_KEY] == Code(theme)
    }

    /**
     * The initial theme from storage or the system, applied at once, then the
     * effect's first run applies and stores it.
     */
    constructor (storage: LocalStorage, systemPrefersDark: bool, classes: set<string>, meta: Option<string>)
      modifies storage
      ensures this.storage == storage
      ensures theme == StoredTheme(old(storage.GetItem(THEME_KEY)), systemPrefersDark)
      ensures storage.items == old(storage.items)[THEME_KEY := Code(theme)]
      ensures rootClasses == ThemeClasses(classes, theme)
      ensures meta.None? <==> metaContent.None?
      ensures Applied()
    {
      this.storage := storage;
      var t := StoredTheme(storage.GetItem(THEME_KEY), systemPrefersDark);
      theme := t;
      dataTheme := Code(t);
      rootClasses := ThemeClasses(classes, t);
      metaContent := if meta.Some? then Some(MetaColor(t)) else None;
      new;
      storage.SetItem(THEME_KEY, Code(t));
    }

    /** `applyTheme` followed by `storeTheme`: the effect of every theme change. */
    method Sync()
      modifies this, storage
      ensures theme == old(theme)
      ensures dataTheme == Code(theme) && rootClasses == ThemeClasses(old(rootClasses), theme)
      ensures metaContent == if old(metaContent).Some? then Some(MetaColor(theme)) else None
      ensures storage.items == old(storage.items)[THEME_KEY := Code(theme)]
      ensures Applied()
    {
      dataTheme := Code(theme);
      rootClasses := ThemeClasses(rootClasses, theme);
      if metaContent.Some? {
        metaContent := Some(MetaColor(theme));
      }
      storage.SetItem(THEME_KEY, Code(theme));
    }

    /** `toggleTheme`: light becomes dark and dark becomes light. */
    method ToggleTheme()
      modifies this, storage
      ensures theme == Flip(old(theme))
      ensures dataTheme == Code(theme) && rootClasses == ThemeClasses(old(rootClasses), theme)
      ensures metaContent == if old(metaContent).Some? then Some(MetaColor(theme)) else None
      ensures storage.items == old(storage.items)[THEME_KEY := Code(theme)]
      ensures Applied()
    {
      theme := Flip(theme);
      Sync();
    }

    method SetTheme(t: Mode)
      modifies this, storage
      ensures theme == t
      ensures dataTheme == Code(theme) && rootClasses == ThemeClasses(old(rootClasses), theme)
      ensures metaContent == if old(metaContent).Some? then Some(MetaColor(theme)) else None
      ensures storage.items == old(storage.items)[THEME_KEY := Code(t)]
      ensures Applied()
    {
      theme := t;
      Sync();
    }

    /**
     * The system-preference listener: it follows the system only while no
     * preference is stored. Once the theme has been applied and stored, which
     * the constructor already does, it never changes anything.
     */
    method OnSystemChange(matchesDark: bool)
      modifies this, storage
      ensures !old(storage.HasValue(THEME_KEY)) ==> theme == (if matchesDark then Dark else Light) && Applied()
      ensures old(storage.HasValue(THEME_KEY)) ==> theme == old(theme) && storage.items == old(storage.items)
      ensures old(Applied()) ==> theme == old(theme) && storage.items == old(storage.items)
    {
      if !storage.HasValue(THEME_KEY) {
        SetTheme(if matchesDark then Dark else Light);
      }
    }
  }
}
