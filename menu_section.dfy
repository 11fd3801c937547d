/** The home page's menu teaser (src/sections/MenuSection.tsx): the service cards with their
    icon table, the text and icon directions, and the empty-content guard. */
module MenuSection {
  import opened Wrappers
  import opened I18n

  datatype ServiceIcon = Flame | Beef | Salad | Wine

  const IconMapKeys: set<string> := {"Flame", "Beef", "Salad", "Wine"}

  /** `iconMap[service.iconName] || Flame`. */
  function IconFor(name: string): (icon: ServiceIcon)
    ensures name == "Flame" ==> icon == Flame
    ensures name == "Beef" ==> icon == Beef
    ensures name == "Salad" ==> icon == Salad
    ensures name == "Wine" ==> icon == Wine
    ensures name !in IconMapKeys ==> icon == Flame
  {
    if name == "Beef" then Beef
    else if name == "Salad" then Salad
    else if name == "Wine" then Wine
    else Flame
  }

  /** The icons are laid out against the text: `ltr` in Hebrew, `rtl` otherwise. */
  function IconDir(lang: Language): (d: Dir)
    ensures d == Opposite(TextDir(lang))
    ensures d == Ltr <==> lang == He
  {
    if lang == He then Ltr else Rtl
  }

  datatype ServiceCard = ServiceCard(
    key: nat, href: string, icon: ServiceIcon, textDir: Dir, iconDir: Dir, title: string, description: string)

  function RenderCards(services: seq<ServiceTranslation>, lang: Language, from: nat): (r: seq<ServiceCard>)
    requires from <= |services|
    ensures |r| == |services| - from
    ensures forall k :: 0 <= k < |r| ==> r[k] == ServiceCard(from + k, "/menu", IconFor(services[from + k].iconName),
      TextDir(lang), IconDir(lang), services[from + k].title, services[from + k].description)
    decreases |services| - from
  {
    if from == |services| then []
    else
      var s := services[from];
      [ServiceCard(from, "/menu", IconFor(s.iconName), TextDir(lang), IconDir(lang), s.title, s.description)]
        + RenderCards(services, lang, from + 1)
  }

  datatype MenuSectionView = MenuSectionView(
    dir: Dir, eyebrow: string, titleLine1: string, titleLine2Italic: string, description: string,
    fullMenuHref: string, fullMenuText: string, cards: seq<ServiceCard>)

  /** Absent iff the first title line is empty and there are no services; otherwise one card
      per service, in order, each a link to the full menu whose icon runs against the text. */
  function RenderMenuSection(m: MenuTranslations, lang: Language): (r: Option<MenuSectionView>)
    ensures r.None? <==> m.titleLine1 == "" && |m.services| == 0
    ensures r.Some? ==> r.value.dir == TextDir(lang) && r.value.fullMenuHref == "/menu"
    ensures r.Some? ==> r.value.eyebrow == m.title && r.value.titleLine1 == m.titleLine1
    ensures r.Some? ==> r.value.titleLine2Italic == m.titleLine2Italic && r.value.description == m.description
    ensures r.Some? ==> r.value.fullMenuText == m.viewFullMenu
    ensures r.Some? ==> r.value.cards == RenderCards(m.services, lang, 0)
    ensures r.Some? ==> |r.value.cards| == |m.services|
    ensures r.Some? ==> forall k :: 0 <= k < |m.services| ==>
      r.value.cards[k].key == k && r.value.cards[k].href == "/menu"
      && r.value.cards[k].title == m.services[k].title
      && r.value.cards[k].icon == IconFor(m.services[k].iconName)
      && r.value.cards[k].textDir == TextDir(lang) && r.value.cards[k].iconDir == Opposite(TextDir(lang))
      && r.value.cards[k].description == m.services[k].description
  {
    if m.titleLine1 == "" && |m.services| == 0 then None
    else Some(MenuSectionView(TextDir(lang), m.title, m.titleLine1, m.titleLine2Italic, m.description,
      "/menu", m.viewFullMenu, RenderCards(m.services, lang, 0)))
  }
}
