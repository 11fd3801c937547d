/** The application shell (src/App.tsx): the current language, the document attributes it keeps
    in step with that language, and the two routes. */
module App {
  import opened Wrappers
  import opened I18n

  /** `document.documentElement.lang`: Hebrew stays Hebrew, English and Portuguese both become English. */
  function DocumentLang(lang: Language): (code: string)
    ensures code == "he" <==> lang == He
    ensures code == "en" <==> lang != He
  {
    if lang == He then "he" else "en"
  }

  /** The parts of the document the language effect writes. `meta` is the description
      element's content, `None` when the page has no such element. */
  datatype DocumentState = DocumentState(title: string, meta: Option<string>, lang: string, dir: Dir)

  /** The effect for one bundle and language: the title and description are replaced only by
      non-empty texts, and the description only when its element exists. */
  function ApplyLanguage(d: DocumentState, t: Translations, lang: Language): (r: DocumentState)
    ensures r.title == (if t.siteTitle != "" then t.siteTitle else d.title)
    ensures r.meta.Some? <==> d.meta.Some?
    ensures d.meta.Some? ==> r.meta.value == (if t.siteDescription != "" then t.siteDescription else d.meta.value)
    ensures r.lang == DocumentLang(lang) && r.dir == TextDir(lang)
  {
    DocumentState(
      if t.siteTitle != "" then t.siteTitle else d.title,
      if d.meta.Some? && t.siteDescription != "" then Some(t.siteDescription) else d.meta,
      DocumentLang(lang),
      TextDir(lang))
  }

  /** Running the effect again for the same language changes nothing. */
  lemma ApplyLanguageIsIdempotent(d: DocumentState, t: Translations, lang: Language)
    ensures ApplyLanguage(ApplyLanguage(d, t, lang), t, lang) == ApplyLanguage(d, t, lang)
  {
  }

  /** Portuguese and English give the document the same `lang` and `dir`. */
  lemma PortugueseLooksEnglishToTheDocument(d: DocumentState, t: Translations)
    ensures ApplyLanguage(d, t, Pt).lang == ApplyLanguage(d, t, En).lang == "en"
    ensures ApplyLanguage(d, t, Pt).dir == ApplyLanguage(d, t, En).dir == Ltr
  {
  }

  /** The result of the last language change depends only on that language and the
      untouched parts of the document: old texts survive only where the bundle's are empty. */
  lemma LastChangeWins(d: DocumentState, t1: Translations, l1: Language, t2: Translations, l2: Language)
    requires t2.siteTitle != "" && t2.siteDescription != ""
    ensures ApplyLanguage(ApplyLanguage(d, t1, l1), t2, l2) == ApplyLanguage(d, t2, l2)
  {
  }

  datatype Page = HomePage | MenuPage

  /** What a route renders: the page and the language it is given; both pages also receive
      the language setter, modelled by `App.SetCurrentLang`. */
  datatype RouteElement = RouteElement(page: Page, lang: Language)

  /** The route table: `/` and `/menu`, nothing else. */
  function Route(path: string, lang: Language): (r: Option<RouteElement>)
    ensures r.Some? <==> path == "/" || path == "/menu"
    ensures path == "/" ==> r == Some(RouteElement(HomePage, lang))
    ensures path == "/menu" ==> r == Some(RouteElement(MenuPage, lang))
  {
    if path == "/" then Some(RouteElement(HomePage, lang))
    else if path == "/menu" then Some(RouteElement(MenuPage, lang))
    else None
  }

  /** Both pages see the same language. */
  lemma RoutesShareTheLanguage(lang: Language)
    ensures Route("/", lang).value.lang == Route("/menu", lang).value.lang == lang
    ensures Route("/", lang).value.page != Route("/menu", lang).value.page
  {
  }

  /** The `App` component: `currentLang` and the document it keeps in step. */
  class AppState {
    const bundles: Bundles
    var currentLang: Language
    var document: DocumentState

    /** The language starts as Hebrew; the effect runs once on mount. */
    constructor(bundles: Bundles, initial: DocumentState)
      ensures this.bundles == bundles && currentLang == He
      ensures document == ApplyLanguage(initial, BundleFor(bundles, He), He)
    {
      this.bundles := bundles;
      currentLang := He;
      document := ApplyLanguage(initial, BundleFor(bundles, He), He);
    }

    /** `setCurrentLang` followed by the effect it triggers. */
    method SetCurrentLang(lang: Language)
      modifies this
      ensures currentLang == lang
      ensures document == ApplyLanguage(old(document), BundleFor(bundles, lang), lang)
    {
      currentLang := lang;
      var t := BundleFor(bundles, lang);
      var title := document.title;
      if t.siteTitle != "" {
        title := t.siteTitle;
      }
      var meta := document.meta;
      if meta.Some? && t.siteDescription != "" {
        meta := Some(t.siteDescription);
      }
      document := DocumentState(title, meta, DocumentLang(lang), TextDir(lang));
    }
  }
}
