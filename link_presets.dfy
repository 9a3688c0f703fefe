/**
 * The table of navigation link presets: each preset names its display text
 * (looked up in the current translation table when the table is built), its
 * URL and its translation key.
 */
module LinkPresets {
  import opened Wrappers
  import opened I18n

  datatype LinkPreset = Home | Archive | Notes | About | Friends

  /** A navigation link; the optional `external`, `icon` and `children` fields are absent in every preset. */
  datatype NavBarLink = NavBarLink(name: Option<string>, url: string, i18nKey: I18nKey)

  /** `LinkPresets`, built once from the translation table `tr` in force at that moment. */
  function BuildLinkPresets(tr: Translation): (m: map<LinkPreset, NavBarLink>)
    ensures forall p :: p in m ==> m[p].name == Lookup(tr, KeyName(m[p].i18nKey))
  {
    map[
      LinkPreset.Home := NavBarLink(Lookup(tr, KeyName(I18nKey.Home)), "/", I18nKey.Home),
      LinkPreset.Archive := NavBarLink(Lookup(tr, KeyName(I18nKey.Archive)), "/archive/", I18nKey.Archive),
      LinkPreset.Notes := NavBarLink(Lookup(tr, KeyName(I18nKey.Notes)), "/notes/", I18nKey.Notes),
      LinkPreset.About := NavBarLink(Lookup(tr, KeyName(I18nKey.About)), "/about/", I18nKey.About),
      LinkPreset.Friends := NavBarLink(Lookup(tr, KeyName(I18nKey.Friends)), "/friends/", I18nKey.Friends)
    ]
  }

  /** Every preset has an entry. */
  lemma PresetTableTotal(tr: Translation, p: LinkPreset)
    ensures p in BuildLinkPresets(tr)
  {
    match p
    case Home =>
    case Archive =>
    case Notes =>
    case About =>
    case Friends =>
  }

  /** No two presets share a URL or a key. */
  lemma PresetsDistinct(tr: Translation, p: LinkPreset, q: LinkPreset)
    requires p != q
    ensures p in BuildLinkPresets(tr) && q in BuildLinkPresets(tr)
    ensures BuildLinkPresets(tr)[p].url != BuildLinkPresets(tr)[q].url
    ensures BuildLinkPresets(tr)[p].i18nKey != BuildLinkPresets(tr)[q].i18nKey
  {
    PresetTableTotal(tr, p);
    PresetTableTotal(tr, q);
  }

  /** The key and the URL of each preset, whatever the language. */
  lemma PresetTargets(tr: Translation)
    ensures var m := BuildLinkPresets(tr);
      m[LinkPreset.Home].i18nKey == I18nKey.Home && m[LinkPreset.Home].url == "/" &&
      m[LinkPreset.Archive].i18nKey == I18nKey.Archive && m[LinkPreset.Archive].url == "/archive/" &&
      m[LinkPreset.Notes].i18nKey == I18nKey.Notes && m[LinkPreset.Notes].url == "/notes/" &&
      m[LinkPreset.About].i18nKey == I18nKey.About && m[LinkPreset.About].url == "/about/" &&
      m[LinkPreset.Friends].i18nKey == I18nKey.Friends && m[LinkPreset.Friends].url == "/friends/"
  {
  }

  /** Two tables built from different languages differ only in their display names. */
  lemma PresetsDifferOnlyInNames(tr1: Translation, tr2: Translation, p: LinkPreset)
    ensures p in BuildLinkPresets(tr1) && p in BuildLinkPresets(tr2)
    ensures BuildLinkPresets(tr1)[p].url == BuildLinkPresets(tr2)[p].url
    ensures BuildLinkPresets(tr1)[p].i18nKey == BuildLinkPresets(tr2)[p].i18nKey
    ensures BuildLinkPresets(tr1)[p].name == Lookup(tr1, KeyName(BuildLinkPresets(tr2)[p].i18nKey))
  {
    PresetTableTotal(tr1, p);
    PresetTableTotal(tr2, p);
  }
}
