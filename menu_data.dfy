/** The menu catalogue (src/data/menu.ts): its types and the constant `menuCategories`.
    Image paths go through `assetPath`, so the catalogue takes the build's base URL. */
module MenuData {
  import opened Wrappers
  import opened Text
  import Utils

  /** Optional fields (`nameEn?: string`) are `Option`s: `None` is `undefined`. */
  datatype MenuItem = MenuItem(
    name: string,
    nameEn: Option<string>,
    description: Option<string>,
    descriptionEn: Option<string>,
    price: string,
    subtitle: Option<string>,
    subtitleEn: Option<string>,
    details: Option<seq<string>>,
    detailsEn: Option<seq<string>>)

  datatype Layout = List | Grid

  datatype MenuSubSection = MenuSubSection(
    title: string,
    titleEn: Option<string>,
    description: Option<string>,
    descriptionEn: Option<string>,
    ctaText: Option<string>,
    ctaTextEn: Option<string>,
    items: seq<MenuItem>,
    layout: Option<Layout>)

  datatype MenuCategory = MenuCategory(
    id: string,
    nameHe: string,
    nameEn: string,
    image: string,
    subSections: Option<seq<MenuSubSection>>,
    items: Option<seq<MenuItem>>)

  /** The shape of every flat-list entry: both names, both descriptions and a price. */
  function Dish(name: string, nameEn: string, description: string, descriptionEn: string, price: string): MenuItem {
    MenuItem(name, Some(nameEn), Some(description), Some(descriptionEn), price, None, None, None, None)
  }

  /** The two churrascaria set menus, shown side by side. */
  const ChurrascariaStarters: MenuSubSection := MenuSubSection(
    "מנות פתיחה המוגשות למרכז השולחן",
    Some("Starter dishes served to the center of the table"),
    Some("אורז ברזילאי לבן, תבשיל צ'ילי קונקרנה-בשר, שעועית ופלפלים המתבשלים בבישול איטי ומסורתי, תפו\"א אפויים בעשבי תיבול, סלט הבית ברוטב וויניגרט ורוטב צ'ימיצ'ורי"),
    Some("White Brazilian rice, chili con carne, beans and peppers slow-cooked traditionally, herb-roasted potatoes, house salad with vinaigrette and chimichurri sauce"),
    Some("כמה שבא לך!"),
    Some("As much as you want!"),
    [
      MenuItem(
        "צ'ורוסקריה קאזה דו ברזיל - 11",
        Some("Churrascaria Casa do Brasil - 11"),
        None, None,
        "₪259",
        Some("סוגי בשר"),
        Some("Types of meat"),
        Some([
          "פיקאניה, אסאדו, דנבר קאט, פילה מיניון, ממיה קווין אוף ביף",
          "ירך עוף במרינדת סויה, דבש ויין לבן",
          "אנטריקוט, כנפי עוף צ'ילי"
        ]),
        Some([
          "Picanha, asado, denver cut, filet mignon, queen of beef",
          "Chicken thigh in soy, honey and white wine marinade",
          "Ribeye, chili chicken wings"
        ])),
      MenuItem(
        "צ'ורוסקריה פרימיום - 12",
        Some("Churrascaria Premium - 12"),
        None, None,
        "₪289",
        Some("סוגי בשר"),
        Some("Types of meat"),
        Some([
          "אנטריקוט מובחר ומיושן, פיקאניה, אסאדו, דנבר קאט",
          "פילה מיניון, ממיה קווין אוף ביף",
          "ירך עוף במרינדת סויה, דבש ויין לבן"
        ]),
        Some([
          "Select aged ribeye, picanha, asado, denver cut",
          "Filet mignon, queen of beef",
          "Chicken thigh in soy, honey and white wine marinade"
        ]))
    ],
    Some(Grid))

  const MainItems: seq<MenuItem> := [
    Dish("אנטריקוט", "Ribeye", "500/300 גרם מובחר ומיושן, עשוי על הגריל. + מדליון כבד אווז (100 גרם) - ₪70", "500/300g select aged, grilled. + Foie gras medallion (100g) - ₪70", "₪239/179"),
    Dish("פיקאניה", "Picanha", "300 גרם, מנתח ברזילאי מובחר, צרוב על הגריל. + מדליון כבד אווז (100 גרם) - ₪70", "300g select Brazilian cut, charred on the grill. + Foie gras medallion (100g) - ₪70", "₪175"),
    Dish("סינטה", "Sirloin", "300 גרם, מנתח בקר מובחר ומיושן, מידת עשייה M. + מדליון כבד אווז (100 גרם) - ₪70", "300g select aged beef, medium. + Foie gras medallion (100g) - ₪70", "₪175"),
    Dish("מדליוני פילה בקר", "Beef tenderloin medallions", "300 גרם, מנתח מובחר ומיושן, עשוי על הגריל", "300g select aged cut, grilled", "₪184"),
    Dish("פילה רוסיני", "Tournedos Rossini", "מדליוני פילה בקר וכבד אווז, צרובים על הפלנצ'ה, מוגש עם ריבת עגבניות שרי", "Beef tenderloin and foie gras medallions, seared, served with cherry tomato jam", "₪264"),
    Dish("טורנדו", "Tournedos", "חגיגת בשרים: אנטריקוט, מדליון פילה בקר, מדליון כבד אווז", "Meat celebration: ribeye, beef tenderloin medallion, foie gras medallion", "₪295"),
    Dish("כבד אווז צרוב", "Seared foie gras", "מוגש על בריוש ביתי עם ריבת עגבניות שרי", "Served on house brioche with cherry tomato jam", "₪220"),
    Dish("צלעות טלה מיושנות", "Aged lamb ribs", "450 גרם, על הגריל", "450g, on the grill", "₪189"),
    Dish("חזה מולרד", "Duck breast", "350 גרם", "350g", "₪169"),
    Dish("בוליניו - קציצות בקר ברזילאיות", "Bolinho - Brazilian beef meatballs", "300 גרם", "300g", "₪139"),
    Dish("צ'וריסוס - נקניקיות בקר דרום אמריקאיות", "Chorizo - South American beef sausages", "300 גרם", "300g", "₪139"),
    Dish("פרגיות", "Chicken breast", "300 גרם במרינדה", "300g marinated", "₪129"),
    Dish("המבורגר \"קאזה דו ברזיל\"", "Casa do Brasil Burger", "300 גרם בשר בקר משובח, בליווי צ'יפס וירקות טריים + מנות פתיחה המוגשות למרכז השולחן", "300g premium beef, with fries and fresh vegetables + starter dishes to the center", "₪108"),
    Dish("טבע בורגר \"קאזה דו ברזיל\"", "Nature Burger Casa do Brasil", "בליווי צ'יפס וירקות טריים + מנות פתיחה המוגשות למרכז השולחן", "With fries and fresh vegetables + starter dishes to the center", "₪89"),
    Dish("דג דניס שלם טרי", "Whole fresh sea bream", "על הגריל", "On the grill", "₪139"),
    Dish("פילה סלמון", "Salmon fillet", "אפוי בתנור, עם ירקות מוקפצים בליווי קרם שמנת", "Oven-baked, with stir-fried vegetables and cream sauce", "₪139"),
    Dish("רביולי בטעמים", "Flavored ravioli", "במבחר טעמים - שמנת פטריות / שמנת / רוזה", "In flavors - mushroom cream / cream / rosa", "₪89"),
    Dish("פסטה פטוצ'יני", "Fettuccine pasta", "בעבודת יד במבחר רטבים: נפוליטנה / שמנת / רוזה / שמנת פטריות", "Handmade with sauces: napolitana / cream / rosa / mushroom cream", "₪85"),
    Dish("פטוצ'יני סלמון", "Fettuccine salmon", "פסטה שמנת עם קוביות של פילה סלמון", "Cream pasta with salmon fillet cubes", "₪119"),
    Dish("סלט יווני", "Greek salad", "חסה, מלפפון, גמבה, עגבניות, בצל סגול, קרוטונים, זיתי קלמטה, זעתר, גבינה בולגרית", "Lettuce, cucumber, bell pepper, tomatoes, purple onion, croutons, Kalamata olives, za'atar, Bulgarian cheese", "₪85"),
    Dish("לחם הבית בליווי מטבלים", "House bread with dips", "", "", "₪29")
  ]

  /** `menuCategories`, for the build's base URL. */
  function MenuCategories(base: string): seq<MenuCategory> {
    [
      MenuCategory("churrascaria", "צ'ורוסקריה", "Churrascaria", Utils.AssetPath(base, "meat-1.jpg"),
        Some([ChurrascariaStarters]), None),
      MenuCategory("main", "עיקריות", "Main Courses", Utils.AssetPath(base, "meat-2.jpg"),
        None, Some(MainItems)),
      MenuCategory("kids", "נבחרת הילדים", "Kids' Favorites", Utils.AssetPath(base, "meat-1.jpg"),
        None, Some([Dish("מנת ילדים", "Kids meal", "מנות מותאמות לילדים", "Dishes suited for children", "מחיר לפי מנה")])),
      MenuCategory("meat", "בשר טרי במשקל", "Fresh Meat by Weight", Utils.AssetPath(base, "meat-2.jpg"),
        None, Some([Dish("בשר טרי במשקל", "Fresh meat by weight", "נתחי בשר מובחרים ומיושנים בקצביית הבית", "Select aged cuts from our in-house butcher", "מחיר לפי משקל")])),
      MenuCategory("desserts", "קינוחים", "Desserts", "/caipirinha.jpg",
        None, Some([
          Dish("קינוח בהפתעה", "Surprise dessert", "קינוח מתחלף - שאל את המלצר", "Rotating dessert - ask your server", "₪52"),
          Dish("קרם ברולה", "Crème brûlée", "קרם שמנת עם שבבי מקלות וניל, בציפוי סוכר מקורמל", "Cream with vanilla bean chips, caramelized sugar topping", "₪53")
        ])),
      MenuCategory("business", "עסקיות", "Business Meals", Utils.AssetPath(base, "grill.jpg"),
        None, Some([Dish("מנות עסקיות", "Business meals", "מבחר מנות מיוחדות לאירועים עסקיים", "Selection of special dishes for business events", "מחיר לפי מנה")]))
    ]
  }

  /** No two categories share an id. */
  predicate UniqueIds(cats: seq<MenuCategory>) {
    forall i, j :: 0 <= i < j < |cats| ==> cats[i].id != cats[j].id
  }

  /** The items of a list of sub-sections, in order. */
  function SubSectionItems(subs: seq<MenuSubSection>): (r: seq<MenuItem>)
    ensures forall k :: 0 <= k < |subs| ==> forall item :: item in subs[k].items ==> item in r
    ensures forall item :: item in r ==> exists k :: 0 <= k < |subs| && item in subs[k].items
  {
    if subs == [] then [] else subs[0].items + SubSectionItems(subs[1..])
  }

  /** Every item a category holds, whichever payload it uses. */
  function CategoryItems(c: MenuCategory): seq<MenuItem> {
    (if c.subSections.Some? then SubSectionItems(c.subSections.value) else []) + c.items.GetOr([])
  }

  predicate HasEnglishName(item: MenuItem) {
    item.nameEn.Some?
  }

  predicate DetailsPaired(item: MenuItem) {
    item.details.Some? ==> item.detailsEn.Some? && |item.detailsEn.value| == |item.details.value|
  }

  lemma CategoryIdsAreUnique(base: string)
    ensures UniqueIds(MenuCategories(base))
  {
  }

  /** "churrascaria" comes first, so it is the default selection. */
  lemma FirstCategoryIsChurrascaria(base: string)
    ensures |MenuCategories(base)| == 6 && MenuCategories(base)[0].id == "churrascaria"
  {
  }

  /** Each category holds exactly one kind of payload: sub-sections or a flat list. */
  lemma OnePayloadPerCategory(base: string)
    ensures forall c :: c in MenuCategories(base) ==> (c.subSections.Some? <==> c.items.None?)
    ensures forall i :: 0 <= i < 6 ==> (MenuCategories(base)[i].subSections.Some? <==> i == 0)
  {
  }

  /** The catalogue's one grid sub-section has exactly two items. */
  lemma GridSubSectionHasTwoItems(base: string)
    ensures var cats := MenuCategories(base);
      forall c, s :: c in cats && c.subSections.Some? && s in c.subSections.value && s.layout == Some(Grid) ==> |s.items| == 2
    ensures MenuCategories(base)[0].subSections == Some([ChurrascariaStarters])
    ensures ChurrascariaStarters.layout == Some(Grid) && |ChurrascariaStarters.items| == 2
  {
  }

  /** The main-course list has twenty-one dishes. */
  lemma MainCourseCount()
    ensures |MainItems| == 21
  {
  }

  /** Every item of every category has an English name, and Hebrew details always come
      with English details of the same length. */
  lemma ItemsCarryEnglish(base: string)
    ensures var cats := MenuCategories(base);
      forall i, k :: 0 <= i < |cats| && 0 <= k < |CategoryItems(cats[i])| ==>
        HasEnglishName(CategoryItems(cats[i])[k]) && DetailsPaired(CategoryItems(cats[i])[k])
  {
    var cats := MenuCategories(base);
    forall i, k | 0 <= i < |cats| && 0 <= k < |CategoryItems(cats[i])|
      ensures HasEnglishName(CategoryItems(cats[i])[k]) && DetailsPaired(CategoryItems(cats[i])[k])
    {
      if i == 0 {
        StartersCarryEnglish(base);
      } else if i == 1 {
        assert CategoryItems(cats[1]) == MainItems;
        MainItemsCarryEnglish();
      }
    }
  }

  lemma StartersCarryEnglish(base: string)
    ensures var items := CategoryItems(MenuCategories(base)[0]);
      forall k :: 0 <= k < |items| ==> HasEnglishName(items[k]) && DetailsPaired(items[k])
  {
    assert [ChurrascariaStarters][1..] == [];
    assert SubSectionItems([ChurrascariaStarters]) == ChurrascariaStarters.items + SubSectionItems([]);
    assert CategoryItems(MenuCategories(base)[0]) == ChurrascariaStarters.items + [];
  }

  lemma MainItemsCarryEnglish()
    ensures forall k :: 0 <= k < |MainItems| ==> HasEnglishName(MainItems[k]) && DetailsPaired(MainItems[k])
  {
  }

  /** The house bread's two descriptions are defined but empty. */
  lemma HouseBreadHasEmptyDescriptions()
    ensures MainItems[20].name == "לחם הבית בליווי מטבלים"
    ensures MainItems[20].description == Some("") && MainItems[20].descriptionEn == Some("")
  {
  }

  /** Every category image but the desserts' is served from below the base URL. */
  lemma ImagesUnderBase(base: string)
    ensures forall i :: 0 <= i < 6 && i != 4 ==> StartsWith(MenuCategories(base)[i].image, base)
    ensures MenuCategories(base)[4].image == "/caipirinha.jpg"
  {
  }
}
