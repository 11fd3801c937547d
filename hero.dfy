/** The hero section and its navigation bar (src/sections/Hero.tsx). The scroll-linked
    parallax and overlay fade are not modelled. */
module Hero {
  import opened Wrappers
  import opened I18n
  import opened Config
  import opened Navigation

  /** The open mobile menu: the links again, then its own pair of language buttons. */
  datatype MobileMenuView = MobileMenuView(links: seq<LinkView>, languageButtons: seq<LanguageButton>)

  /** What the section draws: the bar's background flag, the desktop links, the mobile menu
      when open, the desktop language buttons and the call-to-action target. */
  datatype HeroView = HeroView(
    barBackground: bool,
    desktopLinks: seq<LinkView>,
    mobileMenu: Option<MobileMenuView>,
    languageButtons: seq<LanguageButton>,
    ctaHref: string)

  /** Nothing is drawn only when the background text, the image and the links are all empty. */
  function RenderHero(cfg: HeroConfig, t: Translations, lang: Language, isMenuOpen: bool, hasScrolled: bool): (r: Option<HeroView>)
    ensures r.None? <==> cfg.backgroundText == "" && cfg.heroImage == "" && |cfg.navLinks| == 0
    ensures r.Some? ==> r.value.desktopLinks == RenderLinks(t.nav, cfg.navLinks)
    ensures r.Some? ==> (r.value.mobileMenu.Some? <==> isMenuOpen)
    ensures r.Some? && isMenuOpen ==> r.value.mobileMenu.value.links == r.value.desktopLinks
    ensures r.Some? && isMenuOpen ==> r.value.mobileMenu.value.languageButtons == r.value.languageButtons
    ensures r.Some? ==> r.value.barBackground == hasScrolled && r.value.languageButtons == LanguageButtons(lang)
  {
    if cfg.backgroundText == "" && cfg.heroImage == "" && |cfg.navLinks| == 0 then None
    else
      var links := RenderLinks(t.nav, cfg.navLinks);
      var buttons := LanguageButtons(lang);
      Some(HeroView(hasScrolled, links, if isMenuOpen then Some(MobileMenuView(links, buttons)) else None, buttons, cfg.ctaHref))
  }

  /** The configured hero is drawn, with four links whose labels are the nav translations. */
  lemma ShippedHeroRenders(t: Translations, lang: Language, isMenuOpen: bool, hasScrolled: bool)
    ensures var r := RenderHero(heroConfig, t, lang, isMenuOpen, hasScrolled);
      r.Some? && |r.value.desktopLinks| == 4
      && r.value.desktopLinks[0].text == t.nav.about && r.value.desktopLinks[3].text == t.nav.contact
  {
  }

  /** `window.scrollY > 30`; `scrollY` is a JavaScript number. */
  function ScrolledPast(scrollY: real): (r: bool)
    ensures r <==> scrollY > 30.0
  {
    scrollY > 30.0
  }

  /** The two flags the section keeps in component state. */
  class HeroState {
    var isMenuOpen: bool
    var hasScrolled: bool

    constructor ()
      ensures !isMenuOpen && !hasScrolled
    {
      isMenuOpen := false;
      hasScrolled := false;
    }

    /** The scroll listener, also run once when the section mounts. */
    method HandleScroll(scrollY: real)
      modifies this
      ensures hasScrolled == ScrolledPast(scrollY)
      ensures isMenuOpen == old(isMenuOpen)
    {
      hasScrolled := ScrolledPast(scrollY);
    }

    /** The mobile menu button. */
    method ToggleMenu()
      modifies this
      ensures isMenuOpen == !old(isMenuOpen)
      ensures hasScrolled == old(hasScrolled)
    {
      isMenuOpen := !isMenuOpen;
    }

    /** Any link in the mobile menu closes it. */
    method ClickMobileLink()
      modifies this
      ensures !isMenuOpen
      ensures hasScrolled == old(hasScrolled)
    {
      isMenuOpen := false;
    }
  }

  /** Opening the mobile menu shows the configured links again, in the same order as the
      desktop bar, with a second Hebrew/English switcher; closing it removes the mobile menu
      and leaves the rest as it was. */
  lemma MobileMenuFollowsFlag(t: Translations, lang: Language, hasScrolled: bool)
    ensures var shown := RenderHero(heroConfig, t, lang, true, hasScrolled);
      shown.Some? && shown.value.mobileMenu == Some(MobileMenuView(RenderLinks(t.nav, heroNavLinks), LanguageButtons(lang)))
    ensures var shown := RenderHero(heroConfig, t, lang, true, hasScrolled);
      var closed := RenderHero(heroConfig, t, lang, false, hasScrolled);
      closed.Some? && closed.value.mobileMenu.None? && closed.value == shown.value.(mobileMenu := None)
  {
  }
}
