/** The full-menu page (src/pages/MenuPage.tsx): the category browser, the per-language
    field resolvers, the price sentinels and the choice of sub-section layout. */
module MenuPage {
  import opened Wrappers
  import opened I18n
  import opened MenuData

  // ---------------------------------------------------------------- selection

  /** The selection the page starts with: the first category's id, or "" for an empty catalogue. */
  function InitialSelection(cats: seq<MenuCategory>): (id: string)
    ensures |cats| > 0 ==> id == cats[0].id
    ensures |cats| == 0 ==> id == ""
  {
    if |cats| > 0 then cats[0].id else ""
  }

  /** The position `Array.prototype.find` stops at: the first category with this id. */
  function FirstIndexWithId(cats: seq<MenuCategory>, id: string): (r: Option<nat>)
    ensures r.Some? ==> r.value < |cats| && cats[r.value].id == id
    ensures r.Some? ==> forall j :: 0 <= j < r.value ==> cats[j].id != id
    ensures r.None? ==> forall j :: 0 <= j < |cats| ==> cats[j].id != id
  {
    if cats == [] then None
    else if cats[0].id == id then Some(0)
    else match FirstIndexWithId(cats[1..], id)
      case None => None
      case Some(k) => Some(k + 1)
  }

  /** `menuCategories.find((c) => c.id === id)`. */
  function FindCategory(cats: seq<MenuCategory>, id: string): (r: Option<MenuCategory>)
    ensures r.None? <==> forall j :: 0 <= j < |cats| ==> cats[j].id != id
    ensures r.Some? ==> r.value in cats && r.value.id == id
  {
    match FirstIndexWithId(cats, id)
    case None => None
    case Some(k) => Some(cats[k])
  }

  /** `find(...) ?? menuCategories[0]`. `None` only for an empty catalogue, where the page
      would read a field of `undefined`. */
  function SelectedCategory(cats: seq<MenuCategory>, selectedId: string): (r: Option<MenuCategory>)
    ensures r.None? <==> |cats| == 0
    ensures r.Some? ==> r.value in cats
    ensures (exists i :: 0 <= i < |cats| && cats[i].id == selectedId) ==> r.Some? && r.value.id == selectedId
    ensures |cats| > 0 && (forall i :: 0 <= i < |cats| ==> cats[i].id != selectedId) ==> r == Some(cats[0])
  {
    match FindCategory(cats, selectedId)
    case Some(c) => Some(c)
    case None => if |cats| > 0 then Some(cats[0]) else None
  }

  /** With unique ids, an id names exactly its own category. */
  lemma {:induction false} FindByUniqueId(cats: seq<MenuCategory>, i: nat)
    requires UniqueIds(cats) && i < |cats|
    ensures FirstIndexWithId(cats, cats[i].id) == Some(i)
    ensures SelectedCategory(cats, cats[i].id) == Some(cats[i])
    decreases |cats|
  {
    if i > 0 {
      assert cats[0].id != cats[i].id;
      assert cats[1..][i - 1] == cats[i];
      FindByUniqueId(cats[1..], i - 1);
    }
  }

  // ---------------------------------------------------------------- language resolution

  /** The one rule every bilingual field follows: Hebrew shows the primary field; any other
      language shows the override when it is defined (`override ?? primary`), even when it is
      the empty string. */
  function Resolve<T>(lang: Language, primary: T, override: Option<T>): (r: T)
    ensures lang == He ==> r == primary
    ensures lang != He && override.Some? ==> r == override.value
    ensures lang != He && override.None? ==> r == primary
  {
    if lang == He then primary else override.GetOr(primary)
  }

  /** The same rule for a field whose primary value may itself be undefined. */
  function ResolveOptional<T>(lang: Language, primary: Option<T>, override: Option<T>): (r: Option<T>)
    ensures lang == He ==> r == primary
    ensures lang != He ==> r == (if override.Some? then override else primary)
  {
    Resolve(lang, primary, if override.Some? then Some(override) else None)
  }

  function GetItemName(lang: Language, item: MenuItem): (r: string)
    ensures lang == He ==> r == item.name
    ensures lang != He ==> r == item.nameEn.GetOr(item.name)
  {
    Resolve(lang, item.name, item.nameEn)
  }

  function GetItemDesc(lang: Language, item: MenuItem): (r: Option<string>)
    ensures lang == He ==> r == item.description
    ensures lang != He ==> r == (if item.descriptionEn.Some? then item.descriptionEn else item.description)
  {
    ResolveOptional(lang, item.description, item.descriptionEn)
  }

  function GetItemSubtitle(lang: Language, item: MenuItem): (r: Option<string>)
    ensures lang == He ==> r == item.subtitle
    ensures lang != He ==> r == (if item.subtitleEn.Some? then item.subtitleEn else item.subtitle)
  {
    ResolveOptional(lang, item.subtitle, item.subtitleEn)
  }

  function GetItemDetails(lang: Language, item: MenuItem): (r: Option<seq<string>>)
    ensures lang == He ==> r == item.details
    ensures lang != He ==> r == (if item.detailsEn.Some? then item.detailsEn else item.details)
  {
    ResolveOptional(lang, item.details, item.detailsEn)
  }

  function GetSubTitle(lang: Language, sub: MenuSubSection): (r: string)
    ensures lang == He ==> r == sub.title
    ensures lang != He ==> r == sub.titleEn.GetOr(sub.title)
  {
    Resolve(lang, sub.title, sub.titleEn)
  }

  function GetSubDesc(lang: Language, sub: MenuSubSection): (r: Option<string>)
    ensures lang == He ==> r == sub.description
    ensures lang != He ==> r == (if sub.descriptionEn.Some? then sub.descriptionEn else sub.description)
  {
    ResolveOptional(lang, sub.description, sub.descriptionEn)
  }

  function GetSubCta(lang: Language, sub: MenuSubSection): (r: Option<string>)
    ensures lang == He ==> r == sub.ctaText
    ensures lang != He ==> r == (if sub.ctaTextEn.Some? then sub.ctaTextEn else sub.ctaText)
  {
    ResolveOptional(lang, sub.ctaText, sub.ctaTextEn)
  }

  /** A category's name does not use the resolver: Hebrew gets `nameHe`, every other
      language, Portuguese included, gets `nameEn`. */
  function GetCategoryName(lang: Language, cat: MenuCategory): (r: string)
    ensures lang == He ==> r == cat.nameHe
    ensures lang == En || lang == Pt ==> r == cat.nameEn
  {
    if lang == He then cat.nameHe else cat.nameEn
  }

  /** In Hebrew every resolver returns the primary field, whatever the overrides hold. */
  lemma HebrewIgnoresOverrides(item: MenuItem, sub: MenuSubSection)
    ensures GetItemName(He, item) == item.name
    ensures GetItemDesc(He, item) == item.description
    ensures GetItemSubtitle(He, item) == item.subtitle
    ensures GetItemDetails(He, item) == item.details
    ensures GetSubTitle(He, sub) == sub.title
    ensures GetSubDesc(He, sub) == sub.description
    ensures GetSubCta(He, sub) == sub.ctaText
  {
  }

  /** Outside Hebrew a defined override always wins, and an undefined one falls back. */
  lemma OverridesWinOutsideHebrew(lang: Language, item: MenuItem, sub: MenuSubSection)
    requires lang != He
    ensures GetItemName(lang, item) == item.nameEn.GetOr(item.name)
    ensures GetItemDesc(lang, item) == (if item.descriptionEn.Some? then item.descriptionEn else item.description)
    ensures GetItemSubtitle(lang, item) == (if item.subtitleEn.Some? then item.subtitleEn else item.subtitle)
    ensures GetItemDetails(lang, item) == (if item.detailsEn.Some? then item.detailsEn else item.details)
    ensures GetSubTitle(lang, sub) == sub.titleEn.GetOr(sub.title)
    ensures GetSubDesc(lang, sub) == (if sub.descriptionEn.Some? then sub.descriptionEn else sub.description)
    ensures GetSubCta(lang, sub) == (if sub.ctaTextEn.Some? then sub.ctaTextEn else sub.ctaText)
  {
  }

  /** A fallback that also skips empty overrides: the reference the code departs from. */
  function ResolveSkippingEmpty(lang: Language, primary: string, override: Option<string>): string {
    if lang == He || override.None? || override.value == "" then primary else override.value
  }

  /** `??` differs from an empty-skipping fallback on exactly one kind of input: a defined,
      empty override outside Hebrew, which `??` keeps. */
  lemma EmptyOverrideIsKept(lang: Language, primary: string, override: Option<string>)
    ensures Resolve(lang, primary, override) != ResolveSkippingEmpty(lang, primary, override)
        <==> lang != He && override == Some("") && primary != ""
    ensures lang != He ==> Resolve(lang, primary, Some("")) == ""
  {
  }

  /** A resolved value always comes from one of the two fields. */
  lemma ResolvedComesFromAField<T>(lang: Language, primary: T, override: Option<T>)
    ensures var r := Resolve(lang, primary, override);
      r == primary || override == Some(r)
  {
  }

  // ---------------------------------------------------------------- prices

  const PricePerItemSentinel: string := "מחיר לפי מנה"
  const PricePerWeightSentinel: string := "מחיר לפי משקל"

  predicate IsPriceSentinel(price: string) {
    price == PricePerItemSentinel || price == PricePerWeightSentinel
  }

  /** The two placeholder prices are replaced by translated text; any other price is shown as written. */
  function GetPriceDisplay(t: FullMenuTranslations, price: string): (r: string)
    ensures price == PricePerItemSentinel ==> r == t.pricePerItem
    ensures price == PricePerWeightSentinel ==> r == t.pricePerWeight
    ensures !IsPriceSentinel(price) ==> r == price
  {
    if price == PricePerItemSentinel then t.pricePerItem
    else if price == PricePerWeightSentinel then t.pricePerWeight
    else price
  }

  /** The placeholders occur in the kids, meat and business categories and nowhere else. */
  lemma SentinelPricesOnlyInThreeCategories(base: string)
    ensures var cats := MenuCategories(base);
      forall i, k :: 0 <= i < |cats| && 0 <= k < |CategoryItems(cats[i])| && IsPriceSentinel(CategoryItems(cats[i])[k].price)
        ==> cats[i].id == "kids" || cats[i].id == "meat" || cats[i].id == "business"
    ensures var cats := MenuCategories(base);
      IsPriceSentinel(CategoryItems(cats[2])[0].price) && cats[2].id == "kids"
      && IsPriceSentinel(CategoryItems(cats[3])[0].price) && cats[3].id == "meat"
      && IsPriceSentinel(CategoryItems(cats[5])[0].price) && cats[5].id == "business"
  {
    var cats := MenuCategories(base);
    forall i, k | 0 <= i < |cats| && 0 <= k < |CategoryItems(cats[i])| && IsPriceSentinel(CategoryItems(cats[i])[k].price)
      ensures cats[i].id == "kids" || cats[i].id == "meat" || cats[i].id == "business"
    {
      var price := CategoryItems(cats[i])[k].price;
      SentinelsBeginWithMem(price);
      if i == 0 {
        StarterPricesInShekels(base);
      } else if i == 1 {
        MainPricesInShekels(base);
      }
    }
  }

  /** Both placeholders begin with the letter mem, which no written price does. */
  lemma SentinelsBeginWithMem(price: string)
    requires IsPriceSentinel(price)
    ensures |price| > 0 && price[0] == 'מ'
  {
  }

  lemma StarterPricesInShekels(base: string)
    ensures var items := CategoryItems(MenuCategories(base)[0]);
      forall k :: 0 <= k < |items| ==> |items[k].price| > 0 && items[k].price[0] == '₪'
  {
    var cats := MenuCategories(base);
    assert [ChurrascariaStarters][1..] == [];
    assert SubSectionItems([ChurrascariaStarters]) == ChurrascariaStarters.items + SubSectionItems([]);
    assert CategoryItems(cats[0]) == ChurrascariaStarters.items + [];
  }

  lemma MainPricesInShekels(base: string)
    ensures var items := CategoryItems(MenuCategories(base)[1]);
      forall k :: 0 <= k < |items| ==> |items[k].price| > 0 && items[k].price[0] == '₪'
  {
    var c := MenuCategories(base)[1];
    assert c.subSections.None? && c.items == Some(MainItems);
    assert CategoryItems(c) == MainItems;
    MainItemPricesInShekels();
  }

  lemma MainItemPricesInShekels()
    ensures forall k :: 0 <= k < |MainItems| ==> |MainItems[k].price| > 0 && MainItems[k].price[0] == '₪'
  {
  }

  // ---------------------------------------------------------------- what the page shows

  /** JavaScript truthiness of an optional string: defined and non-empty. */
  predicate TruthyText(s: Option<string>) {
    s.Some? && s.value != ""
  }

  /** `(primary || override) && ...` for a text field. */
  predicate ShowText(primary: Option<string>, override: Option<string>) {
    TruthyText(primary) || TruthyText(override)
  }

  /** The same guard for a list field: any defined array is truthy, even an empty one. */
  predicate ShowList(primary: Option<seq<string>>, override: Option<seq<string>>) {
    primary.Some? || override.Some?
  }

  /** An optional paragraph: absent when its guard is false; otherwise the resolved text,
      which renders as nothing when undefined. */
  function Block(show: bool, text: Option<string>): (r: Option<string>)
    ensures r.Some? <==> show
    ensures show ==> r == Some(text.GetOr(""))
  {
    if show then Some(text.GetOr("")) else None
  }

  datatype ListItemView = ListItemView(name: string, description: Option<string>, price: string)

  datatype CardView = CardView(
    name: string, subtitle: Option<string>, price: string, perDiner: string,
    details: Option<seq<string>>)

  datatype SubSectionBody =
    | Comparison(first: CardView, orLabel: string, second: CardView)
    | Listing(items: seq<ListItemView>)

  datatype SubSectionView = SubSectionView(
    title: string, description: Option<string>, cta: Option<string>, body: SubSectionBody)

  datatype CategoryBody =
    | SubSectionsBody(sections: seq<SubSectionView>)
    | ItemsBody(items: seq<ListItemView>)

  datatype CategoryView = CategoryView(name: string, body: CategoryBody)

  function RenderListItem(lang: Language, t: FullMenuTranslations, item: MenuItem): (v: ListItemView)
    ensures v.name == GetItemName(lang, item)
    ensures v.description.Some? <==> ShowText(item.description, item.descriptionEn)
    ensures v.description.Some? ==> v.description.value == GetItemDesc(lang, item).GetOr("")
    ensures v.price == GetPriceDisplay(t, item.price)
  {
    ListItemView(
      GetItemName(lang, item),
      Block(ShowText(item.description, item.descriptionEn), GetItemDesc(lang, item)),
      GetPriceDisplay(t, item.price))
  }

  function RenderCard(lang: Language, t: FullMenuTranslations, item: MenuItem): (v: CardView)
    ensures v.name == GetItemName(lang, item) && v.price == GetPriceDisplay(t, item.price)
    ensures v.subtitle.Some? <==> ShowText(item.subtitle, item.subtitleEn)
    ensures v.subtitle.Some? ==> v.subtitle.value == GetItemSubtitle(lang, item).GetOr("")
    ensures v.details.Some? <==> ShowList(item.details, item.detailsEn)
    ensures v.details.Some? ==> v.details.value == GetItemDetails(lang, item).GetOr([])
    ensures v.perDiner == t.perDiner
  {
    CardView(
      GetItemName(lang, item),
      Block(ShowText(item.subtitle, item.subtitleEn), GetItemSubtitle(lang, item)),
      GetPriceDisplay(t, item.price),
      t.perDiner,
      if ShowList(item.details, item.detailsEn) then Some(GetItemDetails(lang, item).GetOr([])) else None)
  }

  /** `items.map(...)`: one entry per item, in order. */
  function RenderItems(lang: Language, t: FullMenuTranslations, items: seq<MenuItem>): (r: seq<ListItemView>)
    ensures |r| == |items|
    ensures forall i :: 0 <= i < |items| ==> r[i] == RenderListItem(lang, t, items[i])
  {
    if items == [] then [] else [RenderListItem(lang, t, items[0])] + RenderItems(lang, t, items[1..])
  }

  /** The two-card "or" layout is used exactly for a grid sub-section of two items. */
  predicate UsesComparisonLayout(sub: MenuSubSection) {
    sub.layout == Some(Grid) && |sub.items| == 2
  }

  function RenderSubSection(lang: Language, t: FullMenuTranslations, sub: MenuSubSection): (v: SubSectionView)
    ensures v.title == GetSubTitle(lang, sub)
    ensures v.description.Some? <==> ShowText(sub.description, sub.descriptionEn)
    ensures v.description.Some? ==> v.description.value == GetSubDesc(lang, sub).GetOr("")
    ensures v.cta.Some? <==> ShowText(sub.ctaText, sub.ctaTextEn)
    ensures v.cta.Some? ==> v.cta.value == GetSubCta(lang, sub).GetOr("")
    ensures v.body.Comparison? <==> UsesComparisonLayout(sub)
    ensures v.body.Comparison? ==>
      v.body.first == RenderCard(lang, t, sub.items[0]) && v.body.second == RenderCard(lang, t, sub.items[1])
      && v.body.orLabel == t.or
    ensures v.body.Listing? ==> v.body.items == RenderItems(lang, t, sub.items)
  {
    SubSectionView(
      GetSubTitle(lang, sub),
      Block(ShowText(sub.description, sub.descriptionEn), GetSubDesc(lang, sub)),
      Block(ShowText(sub.ctaText, sub.ctaTextEn), GetSubCta(lang, sub)),
      if UsesComparisonLayout(sub)
      then Comparison(RenderCard(lang, t, sub.items[0]), t.or, RenderCard(lang, t, sub.items[1]))
      else Listing(RenderItems(lang, t, sub.items)))
  }

  function RenderSubSections(lang: Language, t: FullMenuTranslations, subs: seq<MenuSubSection>): (r: seq<SubSectionView>)
    ensures |r| == |subs|
    ensures forall i :: 0 <= i < |subs| ==> r[i] == RenderSubSection(lang, t, subs[i])
  {
    if subs == [] then [] else [RenderSubSection(lang, t, subs[0])] + RenderSubSections(lang, t, subs[1..])
  }

  /** Sub-sections, when defined (even an empty array), take precedence and `items` is ignored;
      otherwise the flat list is shown, and an undefined list shows nothing. */
  function RenderCategory(lang: Language, t: FullMenuTranslations, cat: MenuCategory): (v: CategoryView)
    ensures v.name == GetCategoryName(lang, cat)
    ensures v.body.SubSectionsBody? <==> cat.subSections.Some?
    ensures cat.subSections.Some? ==> v.body.sections == RenderSubSections(lang, t, cat.subSections.value)
    ensures cat.subSections.None? && cat.items.Some? ==> v.body.items == RenderItems(lang, t, cat.items.value)
    ensures cat.subSections.None? && cat.items.None? ==> v.body.items == []
  {
    CategoryView(
      GetCategoryName(lang, cat),
      if cat.subSections.Some?
      then SubSectionsBody(RenderSubSections(lang, t, cat.subSections.value))
      else ItemsBody(RenderItems(lang, t, cat.items.GetOr([]))))
  }

  datatype TabView = TabView(id: string, caption: string, selected: bool)

  /** One tab per category, in order, marked selected when its id is the selection. */
  function RenderTabs(lang: Language, cats: seq<MenuCategory>, selectedId: string): (r: seq<TabView>)
    ensures |r| == |cats|
    ensures forall i :: 0 <= i < |cats| ==>
      r[i].id == cats[i].id && r[i].caption == GetCategoryName(lang, cats[i]) && (r[i].selected <==> cats[i].id == selectedId)
  {
    if cats == [] then []
    else [TabView(cats[0].id, GetCategoryName(lang, cats[0]), cats[0].id == selectedId)] + RenderTabs(lang, cats[1..], selectedId)
  }

  /** With unique ids no two tabs are selected at once. */
  lemma AtMostOneTabSelected(lang: Language, cats: seq<MenuCategory>, selectedId: string, i: nat, j: nat)
    requires UniqueIds(cats)
    requires i < |cats| && j < |cats|
    ensures RenderTabs(lang, cats, selectedId)[i].selected && RenderTabs(lang, cats, selectedId)[j].selected ==> i == j
  {
  }

  datatype MenuPageView = MenuPageView(dir: Dir, tabs: seq<TabView>, content: Option<CategoryView>)

  function RenderMenuPage(lang: Language, t: FullMenuTranslations, cats: seq<MenuCategory>, selectedId: string): (v: MenuPageView)
    ensures v.dir == TextDir(lang)
    ensures v.tabs == RenderTabs(lang, cats, selectedId)
    ensures v.content.Some? <==> |cats| > 0
    ensures |cats| > 0 ==> v.content == Some(RenderCategory(lang, t, SelectedCategory(cats, selectedId).value))
  {
    MenuPageView(
      TextDir(lang),
      RenderTabs(lang, cats, selectedId),
      match SelectedCategory(cats, selectedId)
      case None => None
      case Some(c) => Some(RenderCategory(lang, t, c)))
  }

  // ---------------------------------------------------------------- the browser's state

  /** The page's `selectedCategoryId` state over a fixed catalogue. */
  class MenuBrowser {
    const categories: seq<MenuCategory>
    var selectedCategoryId: string

    function Displayed(): Option<MenuCategory>
      reads this
    {
      SelectedCategory(categories, selectedCategoryId)
    }

    constructor (cats: seq<MenuCategory>)
      ensures categories == cats
      ensures selectedCategoryId == InitialSelection(cats)
      ensures |cats| > 0 ==> Displayed() == Some(cats[0])
    {
      categories := cats;
      selectedCategoryId := InitialSelection(cats);
      new;
      if |cats| > 0 {
        assert cats[0].id == selectedCategoryId;
      }
    }

    /** Clicking tab `index`; the page only draws tabs for existing categories. */
    method SelectTab(index: nat)
      requires index < |categories|
      modifies this
      ensures selectedCategoryId == categories[index].id
      ensures UniqueIds(categories) ==> Displayed() == Some(categories[index])
    {
      selectedCategoryId := categories[index].id;
      if UniqueIds(categories) {
        FindByUniqueId(categories, index);
      }
    }
  }

  /** Selecting "desserts" in the shipped catalogue shows desserts and marks only its tab. */
  lemma SelectingDesserts(base: string, lang: Language)
    ensures var cats := MenuCategories(base);
      SelectedCategory(cats, "desserts") == Some(cats[4]) && cats[4].id == "desserts"
    ensures var tabs := RenderTabs(lang, MenuCategories(base), "desserts");
      forall i :: 0 <= i < |tabs| ==> (tabs[i].selected <==> i == 4)
  {
    var cats := MenuCategories(base);
    CategoryIdsAreUnique(base);
    FindByUniqueId(cats, 4);
  }

  /** The house bread's descriptions are both empty, so its description paragraph is left
      out in every language even though the English override is defined. */
  lemma HouseBreadShowsNoDescription(lang: Language, t: FullMenuTranslations)
    ensures GetItemDesc(lang, MainItems[20]) == Some("")
    ensures RenderListItem(lang, t, MainItems[20]).description.None?
  {
    HouseBreadHasEmptyDescriptions();
  }

  /** The shipped grid sub-section takes the comparison layout. */
  lemma ShippedGridUsesComparison(lang: Language, t: FullMenuTranslations)
    ensures UsesComparisonLayout(ChurrascariaStarters)
    ensures RenderSubSection(lang, t, ChurrascariaStarters).body.Comparison?
  {
  }
}
