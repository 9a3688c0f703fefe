/**
 * One step of the DOM pass (`applyTranslationsToDom`): what happens to a
 * single element carrying a `data-i18n-key` marker, and to a sequence of
 * them. An element is its attribute map (the two markers included) and its
 * text content.
 */
module Dom {
  import opened Wrappers
  import opened Text
  import opened I18n

  const KeyMarker := "data-i18n-key"
  const TargetMarker := "data-i18n-attr"

  datatype Element = Element(attrs: map<string, string>, text: string)

  /** `getAttribute(name)` read through the source's truthiness test: absent and empty are both "no value". */
  function Marker(e: Element, name: string): (r: Option<string>)
    ensures r.Some? <==> name in e.attrs && e.attrs[name] != ""
    ensures r.Some? ==> r.value == e.attrs[name]
  {
    if name in e.attrs && e.attrs[name] != "" then Some(e.attrs[name]) else None
  }

  /**
   * The body of the pass for one element, against the table `tr`. On an HTML
   * element `setAttribute` lower-cases the ASCII letters of the name first.
   */
  function Translate(tr: Translation, e: Element): (r: Element)
    ensures r.text == e.text || r.attrs == e.attrs
    ensures r.attrs.Keys <= e.attrs.Keys + if Marker(e, TargetMarker).Some? then {ToLower(Marker(e, TargetMarker).value)} else {}
    ensures r != e ==> Marker(e, KeyMarker).Some? && Marker(e, KeyMarker).value in tr
  {
    match Marker(e, KeyMarker)
    case None => e
    case Some(key) =>
      match Lookup(tr, key)
      case None => e
      case Some(s) =>
        match Marker(e, TargetMarker)
        case Some(a) => e.(attrs := e.attrs[ToLower(a) := s])
        case None => e.(text := s)
  }

  /** The pass over the elements in document order. */
  function TranslateAll(tr: Translation, es: seq<Element>): (r: seq<Element>)
    ensures |r| == |es|
    ensures forall i :: 0 <= i < |es| ==> r[i] == Translate(tr, es[i])
  {
    seq(|es|, i requires 0 <= i < |es| => Translate(tr, es[i]))
  }

  /** An element without a key, or whose key the table lacks, is left exactly as it was. */
  lemma UntranslatableUnchanged(tr: Translation, e: Element)
    requires Marker(e, KeyMarker).None? || Marker(e, KeyMarker).value !in tr
    ensures Translate(tr, e) == e
  {
  }

  /**
   * A translated element is written in exactly one place: the attribute named
   * by a non-empty `data-i18n-attr`, or else its text content.
   */
  lemma TranslateWritesOnePlace(tr: Translation, e: Element)
    requires Marker(e, KeyMarker).Some? && Marker(e, KeyMarker).value in tr
    ensures var s := tr[e.attrs[KeyMarker]];
      var r := Translate(tr, e);
      if TargetMarker in e.attrs && e.attrs[TargetMarker] != "" then
        r.text == e.text && r.attrs == e.attrs[ToLower(e.attrs[TargetMarker]) := s]
      else
        r.attrs == e.attrs && r.text == s
  {
  }

  /** The target attribute, once lower-cased as `setAttribute` does, is none of the two markers themselves. */
  predicate TargetIsPlain(e: Element) {
    Marker(e, TargetMarker).Some? ==>
      ToLower(Marker(e, TargetMarker).value) != KeyMarker && ToLower(Marker(e, TargetMarker).value) != TargetMarker
  }

  lemma TranslateKeepsMarkers(tr: Translation, e: Element)
    requires TargetIsPlain(e)
    ensures Marker(Translate(tr, e), KeyMarker) == Marker(e, KeyMarker)
    ensures Marker(Translate(tr, e), TargetMarker) == Marker(e, TargetMarker)
  {
  }

  /** A second pass with the same table changes nothing. */
  lemma TranslateIdempotent(tr: Translation, e: Element)
    requires TargetIsPlain(e)
    ensures Translate(tr, Translate(tr, e)) == Translate(tr, e)
  {
    TranslateKeepsMarkers(tr, e);
    match Marker(e, KeyMarker)
    case None =>
    case Some(key) =>
      match Lookup(tr, key)
      case None =>
      case Some(s) =>
        match Marker(e, TargetMarker)
        case Some(a) =>
          assert e.attrs[ToLower(a) := s][ToLower(a) := s] == e.attrs[ToLower(a) := s];
        case None =>
  }

  lemma TranslateAllIdempotent(tr: Translation, es: seq<Element>)
    requires forall i :: 0 <= i < |es| ==> TargetIsPlain(es[i])
    ensures TranslateAll(tr, TranslateAll(tr, es)) == TranslateAll(tr, es)
  {
    forall i | 0 <= i < |es| ensures TranslateAll(tr, TranslateAll(tr, es))[i] == TranslateAll(tr, es)[i] {
      TranslateIdempotent(tr, es[i]);
    }
  }

  /** The pass leaves every element it cannot translate as it was. */
  lemma TranslateAllSkips(tr: Translation, es: seq<Element>, i: int)
    requires 0 <= i < |es|
    requires Marker(es[i], KeyMarker).None? || Marker(es[i], KeyMarker).value !in tr
    ensures TranslateAll(tr, es)[i] == es[i]
  {
    UntranslatableUnchanged(tr, es[i]);
  }

  /**
   * Without the restriction on the target, a second pass can differ: an
   * element whose target is its own key marker gets a new key from the first pass.
   */
  lemma IdempotenceNeedsPlainTarget()
    ensures var tr := map["home" := "archive", "archive" := "Archive"];
      var e := Element(map[KeyMarker := "home", TargetMarker := KeyMarker], "");
      Translate(tr, Translate(tr, e)) != Translate(tr, e)
  {
    var tr := map["home" := "archive", "archive" := "Archive"];
    var e := Element(map[KeyMarker := "home", TargetMarker := KeyMarker], "");
    LowerFixpoint(KeyMarker);
    var once := Translate(tr, e);
    assert once.attrs[KeyMarker] == "archive";
    assert Translate(tr, once).attrs[KeyMarker] == "Archive";
  }

  /** An element with key `home` and no target gets the Chinese text once the language is `zh_cn`. */
  lemma TextScenario(t: Tables)
    requires t.zhCN == map["home" := "首页"]
    ensures Translate(GetTranslation(t, "zh_cn"), Element(map[KeyMarker := "home"], "Home")) ==
      Element(map[KeyMarker := "home"], "首页")
  {
    ChineseAliases();
  }

  /** The scenario of a `title` target: the attribute takes the translation and the text stays. */
  lemma TitleScenario()
    ensures var e := Element(map[KeyMarker := "home", TargetMarker := "title"], "Home");
      Translate(map["home" := "首页"], e) == Element(e.attrs["title" := "首页"], "Home")
  {
    LowerFixpoint("title");
  }

  /** A target written `Title` updates the `title` attribute, because the name is lower-cased first. */
  lemma MixedCaseTargetScenario()
    ensures var e := Element(map[KeyMarker := "home", TargetMarker := "Title"], "Home");
      Translate(map["home" := "首页"], e) == Element(e.attrs["title" := "首页"], "Home")
  {
    assert ToLower("Title") == "title";
  }
}
