/** Languages and the shape of a translation bundle (src/i18n/types.ts, src/i18n/index.ts).
    The bundles themselves are not part of this model: every operation that reads
    translated text takes the selected bundle as a parameter. */
module I18n {

  datatype Language = He | En | Pt

  /** The language code used in the configuration and in `translations[...]`. */
  function Code(lang: Language): string {
    match lang
    case He => "he"
    case En => "en"
    case Pt => "pt"
  }

  const DefaultLanguage: Language := He
  const SupportedLanguages: seq<Language> := [He, En, Pt]

  /** Every language is supported, once, and the codes tell the languages apart. */
  lemma SupportedLanguagesAreAllLanguages()
    ensures forall l: Language :: l in SupportedLanguages
    ensures forall i, j :: 0 <= i < j < |SupportedLanguages| ==> SupportedLanguages[i] != SupportedLanguages[j]
    ensures forall l, m: Language :: Code(l) == Code(m) ==> l == m
  {
    forall l: Language ensures l in SupportedLanguages {
      match l
      case He => assert SupportedLanguages[0] == l;
      case En => assert SupportedLanguages[1] == l;
      case Pt => assert SupportedLanguages[2] == l;
    }
  }

  /** Text direction. */
  datatype Dir = Rtl | Ltr

  function Opposite(d: Dir): Dir {
    match d
    case Rtl => Ltr
    case Ltr => Rtl
  }

  /** The `currentLang === 'he' ? 'rtl' : 'ltr'` choice every page repeats. */
  function TextDir(lang: Language): (d: Dir)
    ensures d == Rtl <==> lang == He
  {
    if lang == He then Rtl else Ltr
  }

  datatype NavTranslations = NavTranslations(
    about: string, menu: string, reservations: string,
    benefits: string, gallery: string, contact: string)

  datatype HeroTranslations = HeroTranslations(subtitle: string, cta: string, imageAlt: string)

  datatype AboutTranslations = AboutTranslations(
    title1: string, title2: string, quote: string, description: string,
    portfolioAlts: seq<string>)

  datatype ServiceTranslation = ServiceTranslation(iconName: string, title: string, description: string)

  datatype MenuTranslations = MenuTranslations(
    title: string, description: string, cta: string, viewFullMenu: string,
    titleLine1: string, titleLine2Italic: string, services: seq<ServiceTranslation>)

  datatype BenefitsTranslations = BenefitsTranslations(title: string, description: string, cta: string)

  datatype StatsTranslations = StatsTranslations(
    fromYear: string, years: string, reviews: string, customers: string)

  datatype ContactTranslations = ContactTranslations(title: string, address: string, hours: string)

  datatype FooterTranslations = FooterTranslations(
    tagline: string, copyright: string, navigationLabel: string,
    socialLabel: string, accessibilityStatement: string)

  datatype FullMenuTranslations = FullMenuTranslations(
    close: string, bookTable: string, sectionTitle: string, meatNote: string,
    back: string, perDiner: string, or: string, categoriesLabel: string,
    pricePerItem: string, pricePerWeight: string)

  /** `rating` is a JavaScript number; the site only uses 4.5 and 5. */
  datatype TestimonialItem = TestimonialItem(id: string, name: string, role: string, quote: string, rating: real)

  datatype TestimonialsTranslations = TestimonialsTranslations(
    subtitle: string, titleRegular: string, titleItalic: string, items: seq<TestimonialItem>)

  datatype FaqItem = FaqItem(id: string, question: string, answer: string)

  datatype FaqTranslations = FaqTranslations(
    subtitle: string, titleRegular: string, titleItalic: string,
    ctaText: string, ctaButtonText: string, faqs: seq<FaqItem>)

  datatype Translations = Translations(
    siteTitle: string,
    siteDescription: string,
    nav: NavTranslations,
    bookTable: string,
    phone: string,
    hero: HeroTranslations,
    about: AboutTranslations,
    menu: MenuTranslations,
    benefits: BenefitsTranslations,
    stats: StatsTranslations,
    contact: ContactTranslations,
    footer: FooterTranslations,
    fullMenu: FullMenuTranslations,
    testimonials: TestimonialsTranslations,
    faq: FaqTranslations)

  /** `translations`: one bundle per language. */
  datatype Bundles = Bundles(he: Translations, en: Translations, pt: Translations)

  /** `translations[lang]`. */
  function BundleFor(b: Bundles, lang: Language): (t: Translations)
    ensures lang == He ==> t == b.he
    ensures lang == En ==> t == b.en
    ensures lang == Pt ==> t == b.pt
  {
    match lang
    case He => b.he
    case En => b.en
    case Pt => b.pt
  }
}
