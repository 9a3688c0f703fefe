# Runtime translation resolver of a blog site, in Dafny

This project models the site's runtime i18n layer. It also models the navigation link presets that read from it.

- **Language lookup.** A language code is lower-cased and looked up in a registry of 23 codes that alias ten translation tables. An unknown code falls back to English.
- **Current language.** This is one piece of module state. It is seeded at load time from the configured site language, and a non-empty stored preference overrides it. `setCurrentLanguage` replaces it without validation. The setter then persists the code under `site-language`, writes the document's `lang` attribute (first `_` → `-`), re-runs the DOM pass and dispatches a `site-language-change` event.
- **DOM pass.** It walks the elements marked `data-i18n-key`. Each one whose key the current table has gets either the attribute named by `data-i18n-attr` or its text content set to the translation.
- **Link presets.** Home, Archive, Notes, About and Friends each map to a display name, a URL and a key. The table is built once, from the language in force at module load.

Modules:

- `Text`: ASCII lower-casing and first-occurrence replacement.
- `I18n`: keys, languages, the registry and resolution.
- `Dom`: elements and one step of the pass.
- `LinkPresets`: the preset table.
- `Runtime`: the store, the seeding, and the class `Resolver`.

`Resolver` holds the module state as fields, and its methods update them:

- `language`, the store, the document `lang` attribute and the event log are fields;
- the marked elements are an array that the pass rewrites in place;
- the preset snapshot and the tables are `const` fields, so a later language change cannot touch them.

`Resolver.CurrentLanguage` is `getCurrentLanguage` and `Resolver.I18nText` is `i18n`. Both are one-line readers, and their properties are stated on the constructor and on `SetCurrentLanguage`.

The translation tables are a parameter (`I18n.Tables`), so every property holds whatever the tables contain. Whether `window`/`document` exist is a constructor argument. `localStorage` is a value: absent, or entries plus a flag saying every access throws.

Two behaviours of the code that the model keeps:

- At start-up the `lang` attribute is written inside the same `try` as the storage read, so a throwing `getItem` also skips that write (`src/i18n/translation.ts:51-61`).
- A table may lack a key; `i18n` then yields `None` (JavaScript `undefined`).

## Model

| member | source | states |
|---|---|---|
| `Text.LowerChar` | src/i18n/translation.ts:65 | the result is never an upper-case ASCII letter, and a character that is not one is kept |
| `Text.ToLower` | src/i18n/translation.ts:65 | lower-casing keeps the length and maps every character through `LowerChar` |
| `Text.LowerFixpoint` | src/i18n/translation.ts:65 | lower-casing leaves a string unchanged exactly when it has no upper-case letter |
| `Text.LowerIdempotent` | src/i18n/translation.ts:65 | lower-casing twice is lower-casing once |
| `Text.IndexOf` | src/i18n/translation.ts:106 | `None` exactly when the character is absent; otherwise a position holding it with no earlier occurrence |
| `Text.ReplaceFirst` | src/i18n/translation.ts:106 | same length; no occurrence means no change; otherwise only the first occurrence is replaced and everything else is kept |
| `I18n.LocaleTagFirstOnly` | src/i18n/translation.ts:57 | the `lang` value has the code's length, `-` at the first `_`, and every other character of the code unchanged |
| `I18n.ResolveLanguage` | src/i18n/translation.ts:64-66 | a code whose lower-cased form is registered selects that registry entry; any other code selects English |
| `I18n.GetTranslation` | src/i18n/translation.ts:64-66 | the table of the registry entry of the lower-cased code, or the English table when that form is not registered |
| `I18n.ResolveAsWritten` | src/i18n/translation.ts:65 | as written, the lookup yields an inherited non-table value exactly when the lower-cased code is `constructor` or `__proto__`, and names which one |
| `I18n.Lookup` | src/i18n/translation.ts:81 | a value exactly when the table has the key, and then the table's entry |
| `I18n.LocaleTag` | src/i18n/translation.ts:106 | the tag has the code's length, and a code with no `_` is its own tag |
| `I18n.KeyNameInjective` | src/constants/link-presets.ts:9-29 | distinct keys have distinct string names |
| `I18n.RegistryIsLowercase` | src/i18n/translation.ts:20-44 | every registry code is its own lower-case form |
| `I18n.RegistryCodesResolve` | src/i18n/translation.ts:64-66 | each registry code resolves to its own registry entry |
| `I18n.ResolveIgnoresCase` | src/i18n/translation.ts:65 | a code and its lower-cased form resolve to the same table |
| `I18n.UnknownFallsBack` | src/i18n/translation.ts:18 | a code whose lower-cased form is not registered selects the English table, for any table contents |
| `I18n.ResolveTotal` | src/i18n/translation.ts:64-66 | the result is English if and only if the lower-cased code is unknown or registered as English |
| `I18n.EnglishAliases` | src/i18n/translation.ts:22-29 | `en`, `en_us`, `en_gb`, `en_au`, `fr`, `de`, `ru` and `ar` all select the English table |
| `I18n.ChineseAliases` | src/i18n/translation.ts:30-32 | `zh` and `zh_cn` select simplified Chinese, and `zh_tw` selects traditional Chinese |
| `I18n.ConfiguredLanguageResolves` | src/config.ts:14 | the configured `zh_CN` selects simplified Chinese |
| `I18n.ConfiguredLanguageTag` | src/i18n/translation.ts:57-58 | the `lang` attribute written for `zh_CN` is `zh-CN` |
| `I18n.CodeOf` | src/i18n/translation.ts:20-44 | names a registered code for each language |
| `I18n.EveryLanguageHasACode` | src/i18n/translation.ts:20-44 | every one of the ten tables is selected by some registered code |
| `I18n.ConstructorEscapesFallback` | src/i18n/translation.ts:65 | as written, `constructor` yields an inherited non-table value, while the corrected lookup gives English |
| `I18n.AsWrittenAgrees` | src/i18n/translation.ts:65 | away from the two inherited names, the code as written and the corrected lookup agree |
| `Dom.Marker` | src/i18n/translation.ts:77-86 | a marker is present exactly when the attribute exists and is non-empty, and then it is the attribute's value |
| `Dom.Translate` | src/i18n/translation.ts:77-90 | either the text or the attributes are kept; the only attribute that can appear is the lower-cased name that `data-i18n-attr` gives; an element changes only when its key marker is present and in the table |
| `Dom.TranslateAll` | src/i18n/translation.ts:76-91 | the pass keeps the number of elements and translates each element on its own |
| `Dom.UntranslatableUnchanged` | src/i18n/translation.ts:77-84 | an element with no or an empty key, or a key the table lacks, is left exactly as it was |
| `Dom.TranslateWritesOnePlace` | src/i18n/translation.ts:85-90 | a translated element has only the attribute named by a non-empty `data-i18n-attr`, lower-cased, set (text kept), or else only its text replaced (attributes kept) |
| `Dom.TranslateKeepsMarkers` | src/i18n/translation.ts:85-90 | when the lower-cased target is neither marker, both markers survive the write |
| `Dom.TranslateIdempotent` | src/i18n/translation.ts:76-91 | a second pass with the same table changes nothing, for an element whose lower-cased target is neither marker (so `DATA-I18N-KEY` is excluded too) |
| `Dom.TranslateAllIdempotent` | src/i18n/translation.ts:76-91 | the same holds for the whole sequence of marked elements |
| `Dom.TranslateAllSkips` | src/i18n/translation.ts:78-84 | inside the pass, every untranslatable element keeps its value |
| `Dom.IdempotenceNeedsPlainTarget` | src/i18n/translation.ts:85-87 | an element whose target is its own key marker can change again on a second pass |
| `Dom.TextScenario` | src/i18n/translation.ts:89 | with `zh_cn` selected and `home` ↦ `首页`, a text-target element's text becomes `首页` |
| `Dom.MixedCaseTargetScenario` | src/i18n/translation.ts:86-87 | a target written `Title` writes the translation to the `title` attribute, and the text content stays |
| `Dom.TitleScenario` | src/i18n/translation.ts:86-87 | a `title` target gets the translation and the text content stays |
| `LinkPresets.BuildLinkPresets` | src/constants/link-presets.ts:5-31 | each preset's name is the lookup of its own key in the table |
| `LinkPresets.PresetsDistinct` | src/constants/link-presets.ts:8-29 | two different presets have different URLs and different keys |
| `LinkPresets.PresetTableTotal` | src/constants/link-presets.ts:5 | every preset value has an entry |
| `LinkPresets.PresetTargets` | src/constants/link-presets.ts:6-30 | Home ↦ `home`, `/`; Archive ↦ `archive`, `/archive/`; Notes ↦ `notes`, `/notes/`; About ↦ `about`, `/about/`; Friends ↦ `friends`, `/friends/` |
| `LinkPresets.PresetsDifferOnlyInNames` | src/constants/link-presets.ts:5-31 | tables built in two languages agree on URL and key, and each name is that language's lookup of the key |
| `Runtime.GetItem` | src/i18n/translation.ts:53 | a read throws exactly when the store is present and failing, yields nothing exactly when the store is absent or works but lacks the key, and yields the stored entry when a working store holds the key |
| `Runtime.SetItem` | src/i18n/translation.ts:102 | a failing or absent store is left as it is; a working store stays working and gets the entry |
| `Runtime.StoreRoundTrip` | src/i18n/translation.ts:102 | a write to a working store is read back, and other keys keep their values |
| `Runtime.BrokenStoreIgnoresWrites` | src/i18n/translation.ts:101-105 | a write to a failing or absent store changes nothing; a read throws exactly when the store is present and failing |
| `Runtime.ConfigLanguage` | src/i18n/translation.ts:49 | never empty; the configured language when that is non-empty, `en` when it is empty |
| `Runtime.SeedLanguage` | src/i18n/translation.ts:49-56 | the start-up language is never empty, and is either the configured language or the stored preference |
| `Runtime.StoredPreferenceWins` | src/i18n/translation.ts:53-56 | in a browser a non-empty stored value becomes the start-up language and an empty one leaves the configured language; headless, the store is not consulted |
| `Runtime.BrokenStoreKeepsConfig` | src/i18n/translation.ts:51-61 | a failing or absent store never overrides the configured language |
| `Runtime.SeedDocLang` | src/i18n/translation.ts:51-61 | start-up changes `lang` only in a browser and then to the tag of the seeded language; headless or with a throwing store it is left as it was |
| `Runtime.SeedDocLangWritten` | src/i18n/translation.ts:51-61 | start-up writes `lang` from the seeded language, unless there is no window or the storage read throws |
| `Runtime.ReloadRestoresLanguage` | src/i18n/translation.ts:53-55 | after a change is stored, the next load starts in that language if the store works and the code is non-empty, else in the configured language |
| `Runtime.Resolver.CurrentLanguage` | src/i18n/translation.ts:94-96 | returns the current language field |
| `Runtime.Resolver.CurrentTable` | src/i18n/translation.ts:75 | the table registered for the lower-cased current language, or the English table |
| `Runtime.Resolver.I18nText` | src/i18n/translation.ts:124-126 | a value exactly when the current table has the key's name, and then that entry |
| `Runtime.Resolver.Init` | src/i18n/translation.ts:49-62 | module start-up: seeded language, unchanged store, `lang` attribute as `SeedDocLang`, no events, one DOM pass when a window exists, and presets whose names equal `i18n` of their keys |
| `Runtime.Resolver.ApplyTranslationsToDom` | src/i18n/translation.ts:68-92 | the elements become `TranslateAll` of the current table over their old values; without a window nothing changes |
| `Runtime.Resolver.SetCurrentLanguage` | src/i18n/translation.ts:98-113 | `getCurrentLanguage` returns exactly the new code; with a window the store gets the write (or stays as it was when failing), `lang` gets the tag, the pass re-runs with the new table, and exactly one change event carrying the code is appended; `i18n` afterwards reads the new code's table for every key; the preset snapshot is a `const` field, so it stays as built |
| `Runtime.FailingStoreScenario` | src/i18n/translation.ts:98-113 | on a page configured as `zh_CN` whose store throws on every access, switching to `ko` changes the language, the `lang` attribute and the event log, and leaves the store as it was |

## Findings

| source | as written | input that shows it | evidently intended | confidence | as-written member | corrected member |
|---|---|---|---|---|---|---|
| src/i18n/translation.ts:65 | `map[lang.toLowerCase()]` reads a plain object literal, so the inherited names `constructor` and `__proto__` are found (as `Object` and `Object.prototype`). Both are truthy, so the `||` fallback is skipped and no translation key resolves. | `setCurrentLanguage("Constructor")`, or that value stored under `site-language` | any unregistered code falls back to the English table | medium, not executed | `I18n.ConstructorEscapesFallback` | `I18n.UnknownFallsBack` |

The rest of the model resolves codes with the corrected `I18n.ResolveLanguage`. `I18n.ResolveAsWritten` records the behaviour as written.

## Left out

- `Text.ToLower`: only ASCII letters are lower-cased. `String.prototype.toLowerCase` also maps non-ASCII letters, and can change the length for some of them. Registry codes are ASCII, but a non-ASCII letter can lower-case to an ASCII one: U+212A KELVIN SIGN becomes `k`, so the source resolves `"\u212Ao"` to Korean where the model gives English. `I18n.ResolveIgnoresCase` is therefore a statement about ASCII case only.
- `Dom.Translate`: an attribute name that is not a valid name (for example `aria label`) makes `setAttribute` throw `InvalidCharacterError` in the source. The throw leaves the rest of the pass undone. It also makes `setCurrentLanguage` skip its change event, and at start-up it escapes module evaluation. The model writes any name.
- `Runtime.Resolver.SetCurrentLanguage`: always appends the change event, because it does not model the throw above.
- `Dom.TranslateAll`: setting `textContent` removes any marked elements nested inside that element from the document, so a later pass no longer finds them. The model's element array is fixed, so a later pass still reaches them. The elements are also independent records: a text write to a nested marked element does not show in its ancestor's `text`, whereas the DOM's `textContent` joins the text of all descendants. The "text kept" of `Dom.TranslateWritesOnePlace` therefore holds per node only.
- `Dom.Translate`: a marker key is looked up among the table's own entries only. In the source, an inherited property name used as a key (`constructor`, `toString`) would find a built-in function and write its text.
- `Dom.Translate`: the target name is always lower-cased (ASCII letters only), as `setAttribute` does on an HTML element in an HTML document. An SVG or MathML element would keep the name's case.
- The `scope` argument of `applyTranslationsToDom` and the selector semantics of `querySelectorAll` are not modelled. The pass covers the array of marked elements, taken in document order when the page is set up; elements detached or added later are not tracked (see `Dom.TranslateAll` above).
- The `DOMContentLoaded` deferral is not modelled. The constructor runs the first pass once, as the source does either immediately or when the document becomes ready.
- The order of the DOM pass and the event within `setCurrentLanguage` is not modelled. The event log and the elements are separate state, so listeners that read the DOM are not represented.
- The separate `typeof window` and `typeof document` checks are merged into one flag, `hasWindow`.
- A throwing `window.localStorage` getter and a throwing `getItem`/`setItem` are merged into one `failing` flag.
- `I18n.KeyName`: the strings `home`, `archive`, `notes`, `about` and `friends` are assumed for the five keys, because `src/i18n/i18nKey.ts` is not part of this model. `I18n.KeyNameInjective` is a statement about those assumed strings.
- The contents of the translation tables and every key of the key enumeration other than the five that the presets use are not part of this model. The tables are a parameter, and the DOM pass works on key strings.
- `i18n` returns `None` where the source's static type promises a string but yields `undefined`.
- The site, navigation, profile, license and code-theme configuration, the constants file and the type declarations are static data with no behaviour; the float settings and the external translate-service settings are consumed elsewhere.
