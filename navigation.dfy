/** The navigation pieces that Hero, Footer and the menu page each write out inline:
    classifying a nav link's href, rendering the links, and the two language buttons. */
module Navigation {
  import opened Text
  import opened I18n
  import opened Config

  /** An absolute `http...` href opens a new tab, a `#...` href scrolls within the page,
      anything else goes to the client-side router. */
  datatype LinkKind = External | InPage | RouterLink

  function Classify(href: string): (k: LinkKind)
    ensures k == External <==> StartsWith(href, "http")
    ensures k == InPage <==> !StartsWith(href, "http") && StartsWith(href, "#")
    ensures k == RouterLink <==> !StartsWith(href, "http") && !StartsWith(href, "#")
  {
    if StartsWith(href, "http") then External
    else if StartsWith(href, "#") then InPage
    else RouterLink
  }

  /** `t.nav[link.key]`. */
  function NavLabel(t: NavTranslations, key: NavKey): (text: string)
    ensures key == About ==> text == t.about
    ensures key == Menu ==> text == t.menu
    ensures key == Reservations ==> text == t.reservations
    ensures key == Contact ==> text == t.contact
  {
    match key
    case About => t.about
    case Menu => t.menu
    case Reservations => t.reservations
    case Contact => t.contact
  }

  datatype LinkView = LinkView(kind: LinkKind, target: string, text: string, opensNewTab: bool)

  function RenderLink(t: NavTranslations, link: NavLink): (v: LinkView)
    ensures v.kind == Classify(link.href) && v.target == link.href
    ensures v.text == NavLabel(t, link.key)
    ensures v.opensNewTab <==> StartsWith(link.href, "http")
  {
    var kind := Classify(link.href);
    LinkView(kind, link.href, NavLabel(t, link.key), kind == External)
  }

  /** `links.map(...)`: one rendered link per entry, in order. */
  function RenderLinks(t: NavTranslations, links: seq<NavLink>): (r: seq<LinkView>)
    ensures |r| == |links|
    ensures forall i :: 0 <= i < |links| ==> r[i] == RenderLink(t, links[i])
  {
    if links == [] then [] else [RenderLink(t, links[0])] + RenderLinks(t, links[1..])
  }

  /** The configured hero links classify as in-page, route, external and in-page. */
  lemma HeroLinkKinds()
    ensures Classify(heroNavLinks[0].href) == InPage
    ensures Classify(heroNavLinks[1].href) == RouterLink
    ensures Classify(heroNavLinks[2].href) == External
    ensures Classify(heroNavLinks[3].href) == InPage
  {
    FirstCharRules(heroNavLinks[0].href, "http");
    FirstCharRules(heroNavLinks[1].href, "http");
    FirstCharRules(heroNavLinks[1].href, "#");
    FirstCharRules(heroNavLinks[3].href, "http");
    assert heroNavLinks[0].href[..1] == "#" && heroNavLinks[3].href[..1] == "#";
  }

  /** A string whose first character differs from the prefix's does not start with it. */
  lemma FirstCharRules(s: string, prefix: string)
    requires |s| > 0 && |prefix| > 0 && s[0] != prefix[0]
    ensures !StartsWith(s, prefix)
  {
    if |prefix| <= |s| {
      assert s[..|prefix|][0] == s[0];
    }
  }

  /** A language button: the label it shows, the language its click sets, and whether it
      is highlighted. */
  datatype LanguageButton = LanguageButton(caption: string, sets: Language, active: bool)

  /** The switcher: Hebrew, then English; highlighted when it names the current language. */
  function LanguageButtons(current: Language): (r: seq<LanguageButton>)
    ensures |r| == 2 && r[0].sets == He && r[1].sets == En
    ensures forall i :: 0 <= i < |r| ==> (r[i].active <==> r[i].sets == current)
  {
    [LanguageButton("עברית", He, current == He), LanguageButton("EN", En, current == En)]
  }

  /** The language after a run of switcher clicks, each click naming a button by position. */
  function AfterClicks(start: Language, clicks: seq<nat>): (r: Language)
    requires forall i :: 0 <= i < |clicks| ==> clicks[i] < 2
    ensures clicks == [] ==> r == start
    ensures clicks != [] ==> r != Pt
  {
    if clicks == [] then start
    else LanguageButtons(AfterClicks(start, clicks[..|clicks| - 1]))[clicks[|clicks| - 1]].sets
  }

  /** The switcher never chooses Portuguese: starting from Hebrew or English, every run of
      clicks ends in the language of the last button pressed, Hebrew or English. */
  lemma ClicksNeverReachPortuguese(start: Language, clicks: seq<nat>)
    requires forall i :: 0 <= i < |clicks| ==> clicks[i] < 2
    requires start != Pt
    ensures AfterClicks(start, clicks) != Pt
    ensures |clicks| > 0 ==> AfterClicks(start, clicks) == (if clicks[|clicks| - 1] == 0 then He else En)
  {
  }
}
