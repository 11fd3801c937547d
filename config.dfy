/** The site's constant configuration (src/config.ts). Only the records that the modelled
    sections read are here. */
module Config {
  import opened Text
  import opened I18n

  datatype SiteConfig = SiteConfig(language: string, siteTitle: string, siteDescription: string, defaultLang: Language)

  const siteConfig: SiteConfig := SiteConfig(
    "he",
    "קאזה דו ברזיל | מסעדת בשרים אילת",
    "מסעדות בשרים אילת - קאזה דו ברזיל הינה מסעדת בשרים אילת הידועה במטבח הגריל הברזילאי משובח. היכנסו לאתר לתפריט מסעדת בשרים אילת קאזה דו ברזיל.",
    He)

  /** The nav keys match the keys of the `nav` translations. */
  datatype NavKey = About | Menu | Reservations | Contact

  datatype NavLink = NavLink(key: NavKey, href: string)

  /** An absolute `https://` address, written as its scheme and the rest. */
  function Https(rest: string): (url: string)
    ensures StartsWith(url, "http")
  {
    assert ("https://" + rest)[..4] == "http";
    "https://" + rest
  }

  /** The online booking page every "book a table" link leads to. */
  const reservationUrl: string := Https("tabitisrael.co.il/online-reservations/create-reservation?step=search&orgId=619bae58c6a7c716a41bdc73")

  const heroNavLinks: seq<NavLink> := [
    NavLink(About, "#about"),
    NavLink(Menu, "/menu"),
    NavLink(Reservations, Https("tabitisrael.co.il/online-reservations/create-reservation?step=search&orgId=619bae58c6a7c716a41bdc73")),
    NavLink(Contact, "#contact")
  ]

  datatype HeroConfig = HeroConfig(
    backgroundText: string, heroImage: string, heroImageAlt: string, overlayText: string,
    brandName: string, navLinks: seq<NavLink>, ctaText: string, ctaHref: string)

  const heroConfig: HeroConfig := HeroConfig(
    "CHURRASCO",
    "/homesection.png",
    "",
    "חוויה ברזילאית אותנטית באילת",
    "קאזה דו ברזיל",
    heroNavLinks,
    "הזמן שולחן עכשיו",
    Https("tabitisrael.co.il/online-reservations/create-reservation?step=search&orgId=619bae58c6a7c716a41bdc73"))

  datatype PortfolioImage = PortfolioImage(src: string, alt: string)

  datatype IntroGridConfig = IntroGridConfig(
    titleLine1: string, titleLine2: string, description: string,
    portfolioImages: seq<PortfolioImage>, accentText: string)

  const introGridConfig: IntroGridConfig := IntroGridConfig(
    "אודות הקאזה",
    "חוויה ברזילאית אותנטית",
    "\"אח ברזיל, ברזיל... הצבעוניות, החופים, החוטינים, הכדורגל, הריו דה ז'ינרו, הקופה-קבנה, הקפה, הקפרינייה והאוכל... אח, האוכל! בברזיל יש כלל ברזל - מאוכל נהנים כמו ב\"קאזה דו ברזיל!\" כשהשיפוד מתחיל לרוץ, כשאוכלים כמה שרוצים, כשריחות הבשר פולשים, כשקצב \"הסמבה דו ברזיל\" באוויר, מובטחת חוויה ענקית - לנפש ולגוף.",
    [
      PortfolioImage("/images/1.jpg", "קאזה דו ברזיל"),
      PortfolioImage("/images/Casa-24-scaled.jpg", "חוויה ברזילאית במסעדה"),
      PortfolioImage("/images/Casa-35-scaled.jpg", "אווירת הקאזה"),
      PortfolioImage("/images/WhatsApp Image 2026-02-17 at 22.50.53.jpeg", "בשר צלוי על השיפוד עם להבות"),
      PortfolioImage("/images/WhatsApp Image 2026-02-17 at 22.50.53 (3).jpeg", "קינוח שכבות עם רוטב פירות"),
      PortfolioImage("/images/bce83f45fce64e6895a191f117939419.webp", "קאזה דו ברזיל - מסעדת בשרים")
    ],
    "")

  /** `value` is a JavaScript number; every configured value is a whole number.
      (`label` is a Dafny keyword, so the fields named `label` in the source are `labelText`.) */
  datatype StatItem = StatItem(value: int, suffix: string, labelText: string)

  const whyChooseMeStats: seq<StatItem> := [
    StatItem(2001, "", "משנת"),
    StatItem(25, "+", "שנות ניסיון"),
    StatItem(5000, "+", "ביקורות בגוגל"),
    StatItem(2, "M+", "לקוחות")
  ]

  const faqCtaHref: string := Https("tabitisrael.co.il/online-reservations/create-reservation?step=search&orgId=619bae58c6a7c716a41bdc73")

  const footerNavLinks: seq<NavLink> := [
    NavLink(About, "#about"),
    NavLink(Menu, "/menu"),
    NavLink(Reservations, Https("tabitisrael.co.il/online-reservations/create-reservation?step=search&orgId=619bae58c6a7c716a41bdc73"))
  ]

  datatype SocialLink = SocialLink(iconName: string, labelText: string, href: string)

  datatype FooterConfig = FooterConfig(logoText: string, email: string, socialLinks: seq<SocialLink>)

  const footerConfig: FooterConfig := FooterConfig(
    "CASA DO BRASIL",
    "info@casadobrasil.co.il",
    [
      SocialLink("Instagram", "Instagram", Https("instagram.com/casadobrasil")),
      SocialLink("Facebook", "Facebook", Https("facebook.com/casadobrasil")),
      SocialLink("TikTok", "TikTok", Https("www.tiktok.com/@casadobrasileilat?_r=1&_t=ZS-940PLEy8maT"))
    ])

  /** `links` with every entry of key `k` removed, the rest in order. */
  function WithoutKey(links: seq<NavLink>, k: NavKey): (r: seq<NavLink>)
    ensures |r| <= |links|
    ensures forall i :: 0 <= i < |r| ==> r[i].key != k && r[i] in links
    ensures (forall i :: 0 <= i < |links| ==> links[i].key != k) ==> r == links
    ensures forall l :: l in links && l.key != k ==> l in r
  {
    if links == [] then []
    else if links[0].key == k then WithoutKey(links[1..], k)
    else [links[0]] + WithoutKey(links[1..], k)
  }

  /** Removing a key works piece by piece, so the links that remain keep their order. */
  lemma {:induction false} WithoutKeyAppend(a: seq<NavLink>, b: seq<NavLink>, k: NavKey)
    ensures WithoutKey(a + b, k) == WithoutKey(a, k) + WithoutKey(b, k)
    decreases |a|
  {
    if a != [] {
      assert (a + b)[1..] == a[1..] + b;
      WithoutKeyAppend(a[1..], b, k);
    } else {
      assert a + b == b;
    }
  }

  /** The same booking URL stands in all four places that link to it. */
  lemma ReservationUrlIsShared()
    ensures heroNavLinks[2].key == Reservations && heroNavLinks[2].href == reservationUrl
    ensures heroConfig.ctaHref == reservationUrl
    ensures faqCtaHref == reservationUrl
    ensures footerNavLinks[2].key == Reservations && footerNavLinks[2].href == reservationUrl
  {
  }

  /** The footer's links are the hero's links without "contact", in the same order. */
  lemma FooterLinksAreHeroLinksWithoutContact()
    ensures footerNavLinks == WithoutKey(heroNavLinks, Contact)
    ensures heroConfig.navLinks == heroNavLinks
  {
    assert heroNavLinks[3..] == [NavLink(Contact, "#contact")];
    assert WithoutKey(heroNavLinks[3..], Contact) == [];
    assert heroNavLinks[2..][1..] == heroNavLinks[3..];
    assert heroNavLinks[1..][1..] == heroNavLinks[2..];
  }

  /** Hebrew is the default language, both as the typed setting and as the code string. */
  lemma DefaultLanguageIsHebrew()
    ensures siteConfig.defaultLang == He && DefaultLanguage == He
    ensures siteConfig.language == Code(siteConfig.defaultLang)
  {
  }

  /** Four statistics, with the whole values 2001, 25, 5000 and 2. */
  lemma StatsValues()
    ensures |whyChooseMeStats| == 4
    ensures forall i :: 0 <= i < |whyChooseMeStats| ==> whyChooseMeStats[i].value >= 0
    ensures whyChooseMeStats[0].value == 2001 && whyChooseMeStats[1].value == 25 && whyChooseMeStats[2].value == 5000 && whyChooseMeStats[3].value == 2
  {
  }
}
