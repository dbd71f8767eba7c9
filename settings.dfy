/**
 * The settings store (components/settings-provider.tsx): a four-field preference
 * record that starts at the defaults, is merged once with what local storage holds
 * under "appSettings", and, once loaded, is applied to the document (root font size,
 * one `theme-*` class, the `dark` class, body colours) and written back to storage
 * whenever it changes.
 */
module SettingsProvider {
  import opened Wrappers

  datatype ColorScheme = Default | Blue | Green | Purple

  datatype Settings = Settings(textSize: int, darkMode: bool, animations: bool, colorScheme: ColorScheme)

  /** `defaultSettings`. */
  const DefaultSettings := Settings(16, false, true, Default)

  // ---------------------------------------------------------------------------
  // One field at a time: `updateSetting(key, value)`
  // ---------------------------------------------------------------------------

  /** The keys of `Settings`. */
  datatype SettingKey = TextSizeKey | DarkModeKey | AnimationsKey | ColorSchemeKey

  /** A value of one of the field types of `Settings`. */
  datatype SettingValue = Size(size: int) | Flag(flag: bool) | Scheme(scheme: ColorScheme)

  /** `value` has the type `Settings[key]`. */
  predicate Fits(key: SettingKey, value: SettingValue) {
    match key
    case TextSizeKey => value.Size?
    case DarkModeKey => value.Flag?
    case AnimationsKey => value.Flag?
    case ColorSchemeKey => value.Scheme?
  }

  /** `s[key]`. */
  function Get(s: Settings, key: SettingKey): (v: SettingValue)
    ensures Fits(key, v)
  {
    match key
    case TextSizeKey => Size(s.textSize)
    case DarkModeKey => Flag(s.darkMode)
    case AnimationsKey => Flag(s.animations)
    case ColorSchemeKey => Scheme(s.colorScheme)
  }

  /** `{ ...s, [key]: value }`: field `key` becomes `value`, every other field is kept. */
  function With(s: Settings, key: SettingKey, value: SettingValue): (r: Settings)
    requires Fits(key, value)
    ensures Get(r, key) == value
    ensures forall k :: k != key ==> Get(r, k) == Get(s, k)
  {
    match key
    case TextSizeKey => s.(textSize := value.size)
    case DarkModeKey => s.(darkMode := value.flag)
    case AnimationsKey => s.(animations := value.flag)
    case ColorSchemeKey => s.(colorScheme := value.scheme)
  }

  /** A record is determined by its four fields. */
  lemma SettingsExtensional(s: Settings, t: Settings)
    requires forall k :: Get(s, k) == Get(t, k)
    ensures s == t
  {
    assert Get(s, TextSizeKey) == Get(t, TextSizeKey);
    assert Get(s, DarkModeKey) == Get(t, DarkModeKey);
    assert Get(s, AnimationsKey) == Get(t, AnimationsKey);
    assert Get(s, ColorSchemeKey) == Get(t, ColorSchemeKey);
  }

  /** Updating a field to the value it already has leaves the record as it was. */
  lemma UpdateWithCurrentValueIsIdentity(s: Settings, key: SettingKey)
    ensures With(s, key, Get(s, key)) == s
  {
    SettingsExtensional(With(s, key, Get(s, key)), s);
  }

  // ---------------------------------------------------------------------------
  // The persisted value
  // ---------------------------------------------------------------------------

  /** The storage key. */
  const AppSettingsKey := "appSettings"

  /**
   * What `JSON.parse(localStorage.getItem("appSettings"))` yields: either a
   * parse failure, or an object that may or may not carry each field.
   */
  datatype Persisted =
    | Unparseable
    | Parsed(textSize: Option<int>, darkMode: Option<bool>, animations: Option<bool>, colorScheme: Option<ColorScheme>)

  /** The persisted field `key`, if the parsed object has it. */
  function PersistedField(p: Persisted, key: SettingKey): Option<SettingValue>
    requires p.Parsed?
  {
    match key
    case TextSizeKey => if p.textSize.Some? then Some(Size(p.textSize.value)) else None
    case DarkModeKey => if p.darkMode.Some? then Some(Flag(p.darkMode.value)) else None
    case AnimationsKey => if p.animations.Some? then Some(Flag(p.animations.value)) else None
    case ColorSchemeKey => if p.colorScheme.Some? then Some(Scheme(p.colorScheme.value)) else None
  }

  /** `{ ...base, ...parsed }`: each field the parsed object has wins, the others keep `base`'s value. */
  function Merge(base: Settings, p: Persisted): (r: Settings)
    requires p.Parsed?
    ensures forall k :: Get(r, k) == PersistedField(p, k).GetOr(Get(base, k))
  {
    Settings(p.textSize.GetOr(base.textSize), p.darkMode.GetOr(base.darkMode),
             p.animations.GetOr(base.animations), p.colorScheme.GetOr(base.colorScheme))
  }

  /** `JSON.stringify(settings)`, as the parsed object it reads back as. */
  function Encode(s: Settings): (p: Persisted)
    ensures p.Parsed?
    ensures forall k :: PersistedField(p, k) == Some(Get(s, k))
  {
    Parsed(Some(s.textSize), Some(s.darkMode), Some(s.animations), Some(s.colorScheme))
  }

  /** Reading back what was written reproduces the record, whatever it is merged over. */
  lemma EncodeRoundTrip(base: Settings, s: Settings)
    ensures Merge(base, Encode(s)) == s
  {
    forall k ensures Get(Merge(base, Encode(s)), k) == Get(s, k) {
    }
    SettingsExtensional(Merge(base, Encode(s)), s);
  }

  /** The settings the load step arrives at, from the storage it finds. */
  function LoadedSettings(storage: map<string, Persisted>): Settings {
    if AppSettingsKey in storage && storage[AppSettingsKey].Parsed?
    then Merge(DefaultSettings, storage[AppSettingsKey])
    else DefaultSettings
  }

  /** Absent or unparseable data leaves the defaults; a stored `{darkMode: true}` changes only that field. */
  lemma LoadFallbacks(storage: map<string, Persisted>)
    ensures AppSettingsKey !in storage ==> LoadedSettings(storage) == Settings(16, false, true, Default)
    ensures AppSettingsKey in storage && storage[AppSettingsKey] == Unparseable ==>
              LoadedSettings(storage) == Settings(16, false, true, Default)
    ensures AppSettingsKey in storage && storage[AppSettingsKey] == Parsed(None, Some(true), None, None) ==>
              LoadedSettings(storage) == Settings(16, true, true, Default)
  {
  }

  // ---------------------------------------------------------------------------
  // The document the store writes to
  // ---------------------------------------------------------------------------

  /** The parts of the page the store changes: root font size (px), root classes, body colours. */
  datatype Document = Document(fontSize: int, classes: set<string>, bodyBg: string, bodyColor: string)

  /** `theme-${colorScheme}`. */
  function ThemeClass(c: ColorScheme): string {
    match c
    case Default => "theme-default"
    case Blue => "theme-blue"
    case Green => "theme-green"
    case Purple => "theme-purple"
  }

  /** The classes removed before a scheme is applied. */
  const ThemeClasses: set<string> := {"theme-blue", "theme-green", "theme-purple"}

  const DarkClass := "dark"

  /**
   * The root classes after the apply step: at most one scheme class, the one of
   * the current scheme; `dark` exactly in dark mode; every other class untouched.
   */
  function AppliedClasses(before: set<string>, s: Settings): (r: set<string>)
    ensures r * ThemeClasses == (if s.colorScheme == Default then {} else {ThemeClass(s.colorScheme)})
    ensures DarkClass in r <==> s.darkMode
    ensures r - ThemeClasses - {DarkClass} == before - ThemeClasses - {DarkClass}
  {
    assert DarkClass !in ThemeClasses;
    assert s.colorScheme != Default ==> ThemeClass(s.colorScheme) in ThemeClasses;
    var cleared := before - ThemeClasses;
    var schemed := if s.colorScheme != Default then cleared + {ThemeClass(s.colorScheme)} else cleared;
    if s.darkMode then schemed + {DarkClass} else schemed - {DarkClass}
  }

  /** The body background: dark or white only under the default scheme, left to the theme otherwise. */
  function BodyBackground(s: Settings): string {
    if s.colorScheme != Default then "" else if s.darkMode then "#111827" else "#ffffff"
  }

  function BodyColor(s: Settings): string {
    if s.darkMode then "#f9fafb" else "#111827"
  }

  /** The document after the apply step. */
  function Applied(d: Document, s: Settings): Document {
    Document(s.textSize, AppliedClasses(d.classes, s), BodyBackground(s), BodyColor(s))
  }

  /**
   * Under the default scheme dark mode changes the background; under any other
   * scheme the background is left to the theme whatever the mode.
   */
  lemma BackgroundRule(s: Settings)
    ensures s.colorScheme == Default ==>
              BodyBackground(s.(darkMode := true)) != BodyBackground(s.(darkMode := false))
    ensures s.colorScheme != Default ==>
              BodyBackground(s.(darkMode := true)) == BodyBackground(s.(darkMode := false)) == ""
  {
  }

  /** Applying one scheme and then another leaves only the second one's class. */
  lemma LaterSchemeWins(d: Document, s: Settings, t: Settings)
    requires t.colorScheme != Default
    ensures Applied(Applied(d, s), t).classes * ThemeClasses == {ThemeClass(t.colorScheme)}
  {
  }

  // ---------------------------------------------------------------------------
  // The store
  // ---------------------------------------------------------------------------

  class SettingsStore {
    var settings: Settings
    var isLoaded: bool
    var document: Document
    var storage: map<string, Persisted>

    /** The provider mounts with the defaults, not yet loaded, over the page and storage it finds. */
    constructor (page: Document, stored: map<string, Persisted>)
      ensures settings == DefaultSettings && !isLoaded
      ensures document == page && storage == stored
    {
      settings := DefaultSettings;
      isLoaded := false;
      document := page;
      storage := stored;
    }

    /**
     * The load effect: a parsed stored value is merged over the defaults; an absent
     * or unparseable one leaves the settings alone (the error is only logged).
     * Either way the store is loaded afterwards.
     */
    method LoadEffect()
      modifies this`settings, this`isLoaded
      ensures isLoaded
      ensures AppSettingsKey in storage && storage[AppSettingsKey].Parsed? ==>
                settings == Merge(DefaultSettings, storage[AppSettingsKey])
      ensures !(AppSettingsKey in storage && storage[AppSettingsKey].Parsed?) ==> settings == old(settings)
    {
      if AppSettingsKey in storage {
        var saved := storage[AppSettingsKey];
        if saved.Parsed? {
          settings := Merge(DefaultSettings, saved);
        }
      }
      isLoaded := true;
    }

    /**
     * The apply effect: nothing before the store is loaded; afterwards the font
     * size, the scheme and dark classes and the body colours follow the settings,
     * and the settings are written back under "appSettings".
     */
    method ApplyEffect()
      modifies this`document, this`storage
      ensures !isLoaded ==> document == old(document) && storage == old(storage)
      ensures isLoaded ==> document == Applied(old(document), settings)
      ensures isLoaded ==> storage == old(storage)[AppSettingsKey := Encode(settings)]
    {
      if !isLoaded {
        return;
      }
      document := document.(fontSize := settings.textSize);
      document := document.(classes := document.classes - ThemeClasses);
      if settings.colorScheme != Default {
        document := document.(classes := document.classes + {ThemeClass(settings.colorScheme)});
      }
      if settings.darkMode {
        document := document.(classes := document.classes + {DarkClass});
        document := document.(bodyBg := if settings.colorScheme == Default then "#111827" else "");
        document := document.(bodyColor := "#f9fafb");
      } else {
        document := document.(classes := document.classes - {DarkClass});
        document := document.(bodyBg := if settings.colorScheme == Default then "#ffffff" else "");
        document := document.(bodyColor := "#111827");
      }
      storage := storage[AppSettingsKey := Encode(settings)];
    }

    /** `updateSetting(key, value)`: field `key` becomes `value`, the other fields stay. */
    method UpdateSetting(key: SettingKey, value: SettingValue)
      requires Fits(key, value)
      modifies this`settings
      ensures settings == With(old(settings), key, value)
    {
      settings := With(settings, key, value);
    }
  }

  // ---------------------------------------------------------------------------
  // Sessions of the store, as the page drives it
  // ---------------------------------------------------------------------------

  /**
   * A page load. React runs the load effect first, but the state it sets is only
   * seen at the next render, so the apply effect of the first commit still sees
   * an unloaded store and does nothing; the re-render then applies the loaded
   * settings. The calls below are ordered by when each effect's state is seen:
   * the first apply, the load's updates, the second apply.
   */
  method Mount(page: Document, stored: map<string, Persisted>)
    returns (settings: Settings, isLoaded: bool, document: Document, storage: map<string, Persisted>)
    ensures isLoaded
    ensures settings == LoadedSettings(stored)
    ensures document == Applied(page, settings)
    ensures storage == stored[AppSettingsKey := Encode(settings)]
  {
    var store := new SettingsStore(page, stored);
    store.ApplyEffect();
    store.LoadEffect();
    store.ApplyEffect();
    settings, isLoaded, document, storage := store.settings, store.isLoaded, store.document, store.storage;
  }

  /** Before the load effect the store holds the defaults and its apply step touches nothing. */
  method BeforeLoad(page: Document, stored: map<string, Persisted>)
    returns (settings: Settings, document: Document, storage: map<string, Persisted>)
    ensures settings == Settings(16, false, true, Default)
    ensures document == page && storage == stored
  {
    var store := new SettingsStore(page, stored);
    store.ApplyEffect();
    settings, document, storage := store.settings, store.document, store.storage;
  }

  /**
   * Round trip through storage: whatever the user sets, one field at a time, a
   * fresh store mounted over the storage the first one left behind loads it back.
   */
  method ReloadReproduces(page: Document, stored: map<string, Persisted>, target: Settings)
    returns (reloaded: Settings)
    ensures reloaded == target
  {
    var first := new SettingsStore(page, stored);
    first.LoadEffect();
    first.ApplyEffect();
    first.UpdateSetting(TextSizeKey, Size(target.textSize));
    first.ApplyEffect();
    first.UpdateSetting(DarkModeKey, Flag(target.darkMode));
    first.ApplyEffect();
    first.UpdateSetting(AnimationsKey, Flag(target.animations));
    first.ApplyEffect();
    first.UpdateSetting(ColorSchemeKey, Scheme(target.colorScheme));
    first.ApplyEffect();
    assert first.settings == target;
    var second := new SettingsStore(first.document, first.storage);
    second.LoadEffect();
    EncodeRoundTrip(DefaultSettings, target);
    reloaded := second.settings;
  }

  /** Choosing blue and then green leaves exactly the green scheme class on the page. */
  method BlueThenGreen(page: Document, stored: map<string, Persisted>) returns (themes: set<string>)
    ensures themes == {"theme-green"}
  {
    var store := new SettingsStore(page, stored);
    store.LoadEffect();
    store.ApplyEffect();
    store.UpdateSetting(ColorSchemeKey, Scheme(Blue));
    store.ApplyEffect();
    store.UpdateSetting(ColorSchemeKey, Scheme(Green));
    store.ApplyEffect();
    themes := store.document.classes * ThemeClasses;
  }

  /** Re-selecting the current value rewrites the same record to storage. */
  method UpdateToCurrentValue(page: Document, stored: map<string, Persisted>, key: SettingKey)
    returns (before: Settings, after: Settings, savedBefore: Persisted, savedAfter: Persisted)
    ensures after == before && savedAfter == savedBefore
  {
    var store := new SettingsStore(page, stored);
    store.LoadEffect();
    store.ApplyEffect();
    before, savedBefore := store.settings, store.storage[AppSettingsKey];
    store.UpdateSetting(key, Get(store.settings, key));
    store.ApplyEffect();
    UpdateWithCurrentValueIsIdentity(before, key);
    after, savedAfter := store.settings, store.storage[AppSettingsKey];
  }
}
