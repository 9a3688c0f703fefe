/**
 * The pure half of the translation resolver: the language registry, the
 * lookup of a language code with its English fallback, and the lookup of a
 * key in a translation table.
 */
module I18n {
  import opened Wrappers
  import opened Text

  /** A translation table: key name to display string. It may be partial. */
  type Translation = map<string, string>

  /** The translation keys the link presets use; the rest of the enumeration is not part of this model. */
  datatype I18nKey = Home | Archive | Notes | About | Friends

  /** The string value of a key, as it appears in `data-i18n-key` markers and as a table index. */
  function KeyName(k: I18nKey): string {
    match k
    case Home => "home"
    case Archive => "archive"
    case Notes => "notes"
    case About => "about"
    case Friends => "friends"
  }

  lemma KeyNameInjective(j: I18nKey, k: I18nKey)
    ensures KeyName(j) == KeyName(k) <==> j == k
  {
  }

  /** The ten translation tables that are imported, one per language. */
  datatype Language = En | Es | Id | Ja | Ko | Th | Tr | Vi | ZhCN | ZhTW

  /** The contents of the ten tables, supplied from outside the resolver. */
  datatype Tables = Tables(
    en: Translation, es: Translation, id: Translation, ja: Translation, ko: Translation,
    th: Translation, tr: Translation, vi: Translation, zhCN: Translation, zhTW: Translation)

  function Table(t: Tables, l: Language): Translation {
    match l
    case En => t.en
    case Es => t.es
    case Id => t.id
    case Ja => t.ja
    case Ko => t.ko
    case Th => t.th
    case Tr => t.tr
    case Vi => t.vi
    case ZhCN => t.zhCN
    case ZhTW => t.zhTW
  }

  /** `defaultTranslation`. */
  const DefaultLanguage: Language := En

  /** The registry of language codes and the table each one selects. */
  const Registry: map<string, Language> := map[
    "es" := Es,
    "en" := En,
    "en_us" := En,
    "en_gb" := En,
    "en_au" := En,
    "fr" := En,
    "de" := En,
    "ru" := En,
    "ar" := En,
    "zh_cn" := ZhCN,
    "zh_tw" := ZhTW,
    "zh" := ZhCN,
    "ja" := Ja,
    "ja_jp" := Ja,
    "ko" := Ko,
    "ko_kr" := Ko,
    "th" := Th,
    "th_th" := Th,
    "vi" := Vi,
    "vi_vn" := Vi,
    "id" := Id,
    "tr" := Tr,
    "tr_tr" := Tr
  ]

  /** The table a language code selects: its lower-cased form in the registry, or the default. */
  function ResolveLanguage(code: string): (r: Language)
    ensures ToLower(code) in Registry ==> r == Registry[ToLower(code)]
    ensures ToLower(code) !in Registry ==> r == DefaultLanguage
  {
    var k := ToLower(code);
    if k in Registry then Registry[k] else DefaultLanguage
  }

  /** `getTranslation`. */
  function GetTranslation(t: Tables, code: string): (r: Translation)
    ensures ToLower(code) in Registry ==> r == Table(t, Registry[ToLower(code)])
    ensures ToLower(code) !in Registry ==> r == t.en
  {
    Table(t, ResolveLanguage(code))
  }

  /** `translations[key]`, with `undefined` for a key the table lacks. */
  function Lookup(tr: Translation, key: string): (r: Option<string>)
    ensures r.Some? <==> key in tr
    ensures r.Some? ==> r.value == tr[key]
  {
    if key in tr then Some(tr[key]) else None
  }

  /** The value written to the document's `lang` attribute: the first `_` becomes `-`. */
  function LocaleTag(code: string): (r: string)
    ensures |r| == |code|
    ensures '_' !in code ==> r == code
  {
    ReplaceFirst(code, '_', '-')
  }

  // ---------------------------------------------------------------------
  // Properties of the registry and of the resolution.

  /** No registry code is longer than five characters. */
  lemma RegistryCodesAreShort()
    ensures forall c :: c in Registry ==> |c| <= 5
  {
  }

  /** Every registry code is already lower case, so lower-casing finds it. */
  lemma RegistryIsLowercase()
    ensures forall c :: c in Registry ==> ToLower(c) == c
  {
    forall c | c in Registry ensures ToLower(c) == c {
      LowerFixpoint(c);
    }
  }

  /** Each registry code resolves to its own entry. */
  lemma RegistryCodesResolve(c: string)
    requires c in Registry
    ensures ResolveLanguage(c) == Registry[c]
  {
    RegistryIsLowercase();
  }

  /** Resolution does not depend on letter case. */
  lemma ResolveIgnoresCase(s: string)
    ensures ResolveLanguage(s) == ResolveLanguage(ToLower(s))
  {
    LowerIdempotent(s);
  }

  /** A code whose lower-cased form is not in the registry falls back to English. */
  lemma UnknownFallsBack(s: string)
    requires ToLower(s) !in Registry
    ensures ResolveLanguage(s) == En
    ensures forall t: Tables :: GetTranslation(t, s) == t.en
  {
  }

  /** The result is always one of the ten tables, and is English exactly when the code is unknown or an English alias. */
  lemma ResolveTotal(s: string)
    ensures ResolveLanguage(s) == En <==> ToLower(s) !in Registry || Registry[ToLower(s)] == En
  {
  }

  /** The codes served by the English table: its own regional variants, and languages without a table. */
  const EnglishCodes: set<string> := {"en", "en_us", "en_gb", "en_au", "fr", "de", "ru", "ar"}

  lemma EnglishAliases(c: string)
    requires c in EnglishCodes
    ensures ResolveLanguage(c) == En
  {
    RegistryCodesResolve(c);
  }

  lemma ChineseAliases()
    ensures ResolveLanguage("zh") == ZhCN && ResolveLanguage("zh_cn") == ZhCN
    ensures ResolveLanguage("zh_tw") == ZhTW
  {
    RegistryCodesResolve("zh");
    RegistryCodesResolve("zh_cn");
    RegistryCodesResolve("zh_tw");
  }

  /** The configured site language `zh_CN` selects the simplified Chinese table. */
  lemma ConfiguredLanguageResolves()
    ensures ResolveLanguage("zh_CN") == ZhCN
  {
    assert ToLower("zh_CN") == "zh_cn";
  }

  /** Its `lang` attribute is `zh-CN`, the form the translate-service settings use. */
  lemma ConfiguredLanguageTag()
    ensures LocaleTag("zh_CN") == "zh-CN"
  {
    var code := "zh_CN";
    assert code[..2] == "zh";
    IndexOfUnique(code, '_', 2);
    var r := ReplaceFirst(code, '_', '-');
    assert r == code[..2] + ['-'] + code[3..];
    assert code[..2] == "zh" && code[3..] == "CN";
  }

  /** Every table is reachable from at least one code. */
  lemma EveryLanguageHasACode(l: Language)
    ensures exists c :: c in Registry && ResolveLanguage(c) == l
  {
    var c := CodeOf(l);
    RegistryCodesResolve(c);
  }

  /** One registry code per language (its bare two-letter code, or the region code for Chinese). */
  function CodeOf(l: Language): (c: string)
    ensures c in Registry && Registry[c] == l
  {
    match l
    case En => "en"
    case Es => "es"
    case Id => "id"
    case Ja => "ja"
    case Ko => "ko"
    case Th => "th"
    case Tr => "tr"
    case Vi => "vi"
    case ZhCN => "zh_cn"
    case ZhTW => "zh_tw"
  }

  /** Only the first underscore of a code is rewritten for the `lang` attribute. */
  lemma LocaleTagFirstOnly(code: string)
    requires '_' in code
    ensures var k := IndexOf(code, '_').value;
      |LocaleTag(code)| == |code| && LocaleTag(code)[k] == '-' &&
      forall i :: 0 <= i < |code| && i != k ==> LocaleTag(code)[i] == code[i]
  {
    var k := IndexOf(code, '_').value;
    var r := LocaleTag(code);
    assert r == code[..k] + ['-'] + code[k + 1..];
    forall i | 0 <= i < |code| && i != k ensures r[i] == code[i] {
      if i < k {
        assert r[i] == code[..k][i];
      } else {
        assert r[i] == code[k + 1..][i - k - 1];
      }
    }
  }

  // ---------------------------------------------------------------------
  // The lookup as the source writes it: `map[lang.toLowerCase()]` indexes a
  // plain object literal, so property names inherited from Object.prototype
  // are found too. The only such names that are already lower case are
  // `constructor` and `__proto__`; both hold truthy non-table values, which
  // the `||` fallback then returns instead of the English table.

  const InheritedNames: set<string> := {"constructor", "__proto__"}

  /** What `map[lang.toLowerCase()] || defaultTranslation` yields. */
  datatype Resolved = Found(lang: Language) | Inherited(name: string)

  function ResolveAsWritten(code: string): (r: Resolved)
    ensures r.Inherited? <==> ToLower(code) in InheritedNames
    ensures r.Inherited? ==> r.name == ToLower(code)
  {
    var k := ToLower(code);
    if k in Registry then Found(Registry[k])
    else if k in InheritedNames then Inherited(k)
    else Found(DefaultLanguage)
  }

  /** The code `constructor` yields a non-table object, where the fallback intends the English table. */
  lemma ConstructorEscapesFallback()
    ensures ResolveAsWritten("constructor") == Inherited("constructor")
    ensures ResolveLanguage("constructor") == En
  {
    assert ToLower("constructor") == "constructor";
    RegistryCodesAreShort();
  }

  /** Away from those two names the source and the corrected resolution agree. */
  lemma AsWrittenAgrees(code: string)
    requires ToLower(code) !in InheritedNames
    ensures ResolveAsWritten(code) == Found(ResolveLanguage(code))
  {
  }
}
