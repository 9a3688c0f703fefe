/**
 * The stateful half of the translation resolver: the module-level current
 * language, the browser-local preference store, the document's `lang`
 * attribute, the change events, the marked elements, and the module
 * initialisation that seeds the language and builds the link presets.
 */
module Runtime {
  import opened Wrappers
  import opened Text
  import opened I18n
  import opened Dom
  import opened LinkPresets

  const StorageKey := "site-language"
  const LanguageChangeEvent := "site-language-change"

  /**
   * `window.localStorage`: absent (the optional chaining then does nothing),
   * or present with its entries and whether every access to it throws.
   */
  datatype Store = Unavailable | Local(entries: map<string, string>, failing: bool)

  /** The outcome of `localStorage?.getItem(key)`. */
  datatype Read = Threw | Stored(value: Option<string>)

  /** A dispatched `CustomEvent`: its type and its `detail`. */
  datatype Event = Event(name: string, detail: string)

  predicate Working(st: Store) {
    st.Local? && !st.failing
  }

  function GetItem(st: Store, key: string): (r: Read)
    ensures r.Threw? <==> st.Local? && st.failing
    ensures r == Stored(None) <==> st.Unavailable? || (Working(st) && key !in st.entries)
    ensures Working(st) && key in st.entries ==> r == Stored(Some(st.entries[key]))
  {
    match st
    case Unavailable => Stored(None)
    case Local(entries, failing) =>
      if failing then Threw else Stored(if key in entries then Some(entries[key]) else None)
  }

  /** `localStorage?.setItem(key, value)` with a throw swallowed: a failing or absent store is left as it was. */
  function SetItem(st: Store, key: string, value: string): (r: Store)
    ensures !Working(st) ==> r == st
    ensures Working(st) ==> Working(r) && r.entries == st.entries[key := value]
  {
    match st
    case Unavailable => st
    case Local(entries, failing) => if failing then st else Local(entries[key := value], failing)
  }

  /** A write to a working store is read back; other keys keep their values. */
  lemma StoreRoundTrip(st: Store, key: string, value: string, other: string)
    requires Working(st)
    requires other != key
    ensures GetItem(SetItem(st, key, value), key) == Stored(Some(value))
    ensures GetItem(SetItem(st, key, value), other) == GetItem(st, other)
  {
  }

  /** A write to a failing or absent store changes nothing, and a read of a failing one throws. */
  lemma BrokenStoreIgnoresWrites(st: Store, key: string, value: string)
    requires !Working(st)
    ensures SetItem(st, key, value) == st
    ensures GetItem(st, key).Threw? <==> st.Local?
  {
  }

  /** `siteConfig.lang || "en"`. */
  function ConfigLanguage(configLang: string): (r: string)
    ensures r != ""
    ensures configLang != "" ==> r == configLang
    ensures configLang == "" ==> r == "en"
  {
    if configLang != "" then configLang else "en"
  }

  /** The language the module starts with: the configured one, replaced by a non-empty stored preference. */
  function SeedLanguage(configLang: string, hasWindow: bool, st: Store): (r: string)
    ensures r != ""
    ensures r == ConfigLanguage(configLang) || (hasWindow && GetItem(st, StorageKey) == Stored(Some(r)))
  {
    if !hasWindow then ConfigLanguage(configLang)
    else match GetItem(st, StorageKey)
      case Stored(Some(v)) => if v != "" then v else ConfigLanguage(configLang)
      case _ => ConfigLanguage(configLang)
  }

  /** The document's `lang` attribute after initialisation; a throwing `getItem` skips the write. */
  function SeedDocLang(configLang: string, hasWindow: bool, st: Store, before: Option<string>): (r: Option<string>)
    ensures r != before ==> hasWindow && r == Some(LocaleTag(SeedLanguage(configLang, hasWindow, st)))
    ensures !hasWindow || (st.Local? && st.failing) ==> r == before
  {
    if !hasWindow || GetItem(st, StorageKey).Threw? then before
    else Some(LocaleTag(SeedLanguage(configLang, hasWindow, st)))
  }

  /**
   * After a language change in a browser, the next page load starts in that
   * language when the store works and the code is non-empty, and in the
   * configured language otherwise.
   */
  lemma ReloadRestoresLanguage(configLang: string, st: Store, lang: string)
    ensures SeedLanguage(configLang, true, SetItem(st, StorageKey, lang)) ==
      if Working(st) && lang != "" then lang else ConfigLanguage(configLang)
  {
  }

  /** In a browser, a non-empty stored preference decides the start-up language; an empty one is ignored. */
  lemma StoredPreferenceWins(configLang: string, st: Store, v: string)
    requires GetItem(st, StorageKey) == Stored(Some(v))
    ensures SeedLanguage(configLang, true, st) == if v != "" then v else ConfigLanguage(configLang)
    ensures SeedLanguage(configLang, false, st) == ConfigLanguage(configLang)
  {
  }

  /** A failing or absent store never overrides the configured language. */
  lemma BrokenStoreKeepsConfig(configLang: string, hasWindow: bool, st: Store)
    requires !Working(st)
    ensures SeedLanguage(configLang, hasWindow, st) == ConfigLanguage(configLang)
  {
  }

  /**
   * The `lang` attribute is written at start-up, from the seeded language,
   * unless there is no window or reading the store throws.
   */
  lemma SeedDocLangWritten(configLang: string, hasWindow: bool, st: Store, before: Option<string>)
    ensures SeedDocLang(configLang, hasWindow, st, before) ==
      if hasWindow && !(st.Local? && st.failing) then Some(LocaleTag(SeedLanguage(configLang, hasWindow, st))) else before
  {
  }

  class Resolver {
    /** The ten translation tables. */
    const tables: Tables
    /** Whether `window` and `document` exist; without them every side effect is skipped. */
    const hasWindow: bool
    /** The elements of the document carrying a `data-i18n-key` marker, in document order. */
    const elements: array<Element>
    /** The link preset table, built once at module load. */
    const presets: map<LinkPreset, NavBarLink>

    /** `runtimeLanguage`. */
    var language: string
    var store: Store
    /** The `lang` attribute of the document element. */
    var docLang: Option<string>
    /** The events dispatched on `window`, oldest first. */
    var events: seq<Event>

    /** `getCurrentLanguage`. */
    function CurrentLanguage(): (r: string)
      reads this
      ensures r == language
    {
      language
    }

    /** The table `getTranslation(runtimeLanguage)`. */
    function CurrentTable(): (r: Translation)
      reads this
      ensures ToLower(language) in Registry ==> r == Table(tables, Registry[ToLower(language)])
      ensures ToLower(language) !in Registry ==> r == tables.en
    {
      GetTranslation(tables, language)
    }

    /** `i18n(key)`; `None` where the table lacks the key. */
    function I18nText(k: I18nKey): (r: Option<string>)
      reads this
      ensures r.Some? <==> KeyName(k) in CurrentTable()
      ensures r.Some? ==> r.value == CurrentTable()[KeyName(k)]
    {
      Lookup(CurrentTable(), KeyName(k))
    }

    /**
     * Module initialisation: seed the language, set the `lang` attribute, run
     * the first DOM pass once the document is ready, and build the link presets
     * from the seeded language.
     */
    constructor Init(configLang: string, tables: Tables, hasWindow: bool, store: Store,
                     docLang: Option<string>, elements: array<Element>)
      modifies elements
      ensures this.tables == tables && this.hasWindow == hasWindow && this.elements == elements
      ensures language == SeedLanguage(configLang, hasWindow, store)
      ensures this.store == store
      ensures this.docLang == SeedDocLang(configLang, hasWindow, store, docLang)
      ensures events == []
      ensures presets == BuildLinkPresets(CurrentTable())
      ensures forall p :: p in presets ==> presets[p].name == I18nText(presets[p].i18nKey)
      ensures elements[..] == if hasWindow then TranslateAll(CurrentTable(), old(elements[..])) else old(elements[..])
    {
      var lang := ConfigLanguage(configLang);
      var tag := docLang;
      if hasWindow {
        match GetItem(store, StorageKey)
        case Threw =>
        case Stored(stored) =>
          if stored.Some? && stored.value != "" {
            lang := stored.value;
          }
          tag := Some(LocaleTag(lang));
      }
      this.tables := tables;
      this.hasWindow := hasWindow;
      this.elements := elements;
      this.language := lang;
      this.store := store;
      this.docLang := tag;
      this.events := [];
      this.presets := BuildLinkPresets(GetTranslation(tables, lang));
      new;
      ApplyTranslationsToDom();
    }

    /** `applyTranslationsToDom()` over the whole document. */
    method ApplyTranslationsToDom()
      modifies elements
      ensures elements[..] == if hasWindow then TranslateAll(CurrentTable(), old(elements[..])) else old(elements[..])
    {
      if !hasWindow {
        return;
      }
      var tr := CurrentTable();
      for i := 0 to elements.Length
        invariant forall j :: 0 <= j < i ==> elements[j] == Translate(tr, old(elements[j]))
        invariant forall j :: i <= j < elements.Length ==> elements[j] == old(elements[j])
      {
        elements[i] := Translate(tr, elements[i]);
      }
    }

    /** `setCurrentLanguage(lang)`: no check against the registry. */
    method SetCurrentLanguage(lang: string)
      modifies this, elements
      ensures CurrentLanguage() == lang
      ensures store == if hasWindow then SetItem(old(store), StorageKey, lang) else old(store)
      ensures docLang == if hasWindow then Some(LocaleTag(lang)) else old(docLang)
      ensures elements[..] == if hasWindow then TranslateAll(GetTranslation(tables, lang), old(elements[..])) else old(elements[..])
      ensures events == if hasWindow then old(events) + [Event(LanguageChangeEvent, lang)] else old(events)
      ensures forall k :: I18nText(k) == Lookup(GetTranslation(tables, lang), KeyName(k))
    {
      language := lang;
      if hasWindow {
        store := SetItem(store, StorageKey, lang);
        docLang := Some(LocaleTag(lang));
        ApplyTranslationsToDom();
        events := events + [Event(LanguageChangeEvent, lang)];
      }
    }
  }

  /**
   * A page whose store throws on every access still switches language and
   * announces it; the store and the start-up `lang` attribute stay as they were.
   */
  method FailingStoreScenario(t: Tables) returns (before: string, after: string, store: Store, events: seq<Event>, tag: Option<string>)
    ensures before == "zh_CN" && after == "ko"
    ensures store == Local(map[], true)
    ensures events == [Event(LanguageChangeEvent, "ko")]
    ensures tag == Some("ko")
  {
    var page := new Element[0];
    var r := new Resolver.Init("zh_CN", t, true, Local(map[], true), None, page);
    before := r.CurrentLanguage();
    assert r.docLang == None;
    r.SetCurrentLanguage("ko");
    after, store, events, tag := r.CurrentLanguage(), r.store, r.events, r.docLang;
  }
}
