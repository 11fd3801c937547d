/** The footer (src/sections/Footer.tsx): the social icon table, the e-mail link, the
    navigation column and the empty-content guard. Its entrance animations are not modelled. */
module Footer {
  import opened Wrappers
  import opened Text
  import opened I18n
  import opened Config
  import opened Navigation

  datatype SocialIcon = Instagram | Twitter | Facebook | TikTok

  /** The names `iconMap` has entries for. */
  const IconMapKeys: set<string> := {"Instagram", "Twitter", "Facebook", "TikTok"}

  /** `iconMap[name] || Facebook`. */
  function IconFor(name: string): (icon: SocialIcon)
    ensures name == "Instagram" ==> icon == Instagram
    ensures name == "Twitter" ==> icon == Twitter
    ensures name == "Facebook" ==> icon == Facebook
    ensures name == "TikTok" ==> icon == TikTok
    ensures name !in IconMapKeys ==> icon == Facebook
  {
    if name == "Instagram" then Instagram
    else if name == "Twitter" then Twitter
    else if name == "TikTok" then TikTok
    else Facebook
  }

  /** The TikTok glyph is drawn without a stroke width; every other icon gets 1.5. The test is on
      the configured name, not on the icon the table returned. */
  function IconStrokeWidth(name: string): (w: Option<real>)
    ensures w.None? <==> name == "TikTok"
    ensures w.Some? ==> w.value == 1.5
  {
    if name == "TikTok" then None else Some(1.5)
  }

  /** The e-mail link's `mailto:` address. */
  function MailtoHref(email: string): (href: string)
    ensures StartsWith(href, "mailto:") && href[7..] == email
  {
    assert ("mailto:" + email)[..7] == "mailto:";
    "mailto:" + email
  }

  /** E-mail addresses and their links determine each other. */
  lemma MailtoIsInjective(a: string, b: string)
    requires MailtoHref(a) == MailtoHref(b)
    ensures a == b
  {
    assert a == MailtoHref(a)[7..];
  }

  datatype EmailLink = EmailLink(href: string, text: string)
  datatype SocialView = SocialView(key: string, icon: SocialIcon, strokeWidth: Option<real>, href: string, ariaLabel: string)

  function RenderSocial(s: SocialLink): (v: SocialView)
    ensures v.icon == IconFor(s.iconName) && v.strokeWidth == IconStrokeWidth(s.iconName)
    ensures v.href == s.href && v.ariaLabel == s.labelText && v.key == s.labelText
  {
    SocialView(s.labelText, IconFor(s.iconName), IconStrokeWidth(s.iconName), s.href, s.labelText)
  }

  /** One social button per configured link, in order. */
  function RenderSocials(links: seq<SocialLink>): (r: seq<SocialView>)
    ensures |r| == |links|
    ensures forall i :: 0 <= i < |links| ==> r[i] == RenderSocial(links[i])
  {
    if links == [] then [] else [RenderSocial(links[0])] + RenderSocials(links[1..])
  }

  datatype FooterView = FooterView(
    logo: Option<string>,
    email: Option<EmailLink>,
    nav: Option<seq<LinkView>>,
    social: Option<seq<SocialView>>)

  /** Absent only when the logo text, the e-mail and the nav links are all empty; each part
      is shown only when its own content is non-empty. */
  function RenderFooter(cfg: FooterConfig, navLinks: seq<NavLink>, t: Translations): (r: Option<FooterView>)
    ensures r.None? <==> cfg.logoText == "" && cfg.email == "" && |navLinks| == 0
    ensures r.Some? ==> (r.value.logo.Some? <==> cfg.logoText != "")
    ensures r.Some? && cfg.logoText != "" ==> r.value.logo == Some(cfg.logoText)
    ensures r.Some? ==> (r.value.email.Some? <==> cfg.email != "")
    ensures r.Some? && cfg.email != "" ==> r.value.email == Some(EmailLink(MailtoHref(cfg.email), cfg.email))
    ensures r.Some? ==> (r.value.nav.Some? <==> |navLinks| > 0)
    ensures r.Some? && |navLinks| > 0 ==> r.value.nav == Some(RenderLinks(t.nav, navLinks))
    ensures r.Some? ==> (r.value.social.Some? <==> |cfg.socialLinks| > 0)
    ensures r.Some? && |cfg.socialLinks| > 0 ==> r.value.social == Some(RenderSocials(cfg.socialLinks))
  {
    if cfg.logoText == "" && cfg.email == "" && |navLinks| == 0 then None
    else Some(FooterView(
      if cfg.logoText != "" then Some(cfg.logoText) else None,
      if cfg.email != "" then Some(EmailLink(MailtoHref(cfg.email), cfg.email)) else None,
      if |navLinks| > 0 then Some(RenderLinks(t.nav, navLinks)) else None,
      if |cfg.socialLinks| > 0 then Some(RenderSocials(cfg.socialLinks)) else None))
  }

  /** Every configured social icon name is a key of the icon table, so none falls back. */
  lemma SocialIconNamesAreKnown()
    ensures forall s :: s in footerConfig.socialLinks ==> s.iconName in IconMapKeys
    ensures var v := RenderSocials(footerConfig.socialLinks);
      |v| == 3 && v[0].icon == Instagram && v[1].icon == Facebook && v[2].icon == TikTok
      && v[2].strokeWidth.None? && v[0].strokeWidth == Some(1.5)
  {
  }

  /** The configured footer shows every part, with three nav links classified as in-page,
      route and external. */
  lemma ShippedFooterRenders(t: Translations)
    ensures var r := RenderFooter(footerConfig, footerNavLinks, t);
      r.Some? && r.value.logo.Some? && r.value.email.Some? && r.value.social.Some?
      && r.value.nav.Some? && |r.value.nav.value| == 3
      && r.value.nav.value[0].kind == InPage && r.value.nav.value[1].kind == RouterLink
      && r.value.nav.value[2].kind == External
  {
    FooterHrefKinds();
  }

  lemma FooterHrefKinds()
    ensures Classify(footerNavLinks[0].href) == InPage
    ensures Classify(footerNavLinks[1].href) == RouterLink
    ensures Classify(footerNavLinks[2].href) == External
  {
    FootLinksMatchHero();
    HeroLinkKinds();
  }

  lemma FootLinksMatchHero()
    ensures footerNavLinks == heroNavLinks[..3]
  {
  }
}
