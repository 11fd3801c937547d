# Casa do Brasil site — a Dafny model of its content rules

The Casa do Brasil site is a Hebrew-first, three-language (Hebrew, English, Portuguese) marketing
site for a Brazilian steakhouse. This project models the rules that decide what the pages show:

- The full-menu page's category browser: the selection state, find-or-first, the tabs.
- The per-language field resolvers, the price placeholders and the two sub-section layouts.
- The menu catalogue and the site configuration, as constants with lemmas about them.
- `assetPath`.
- The link classification shared by the hero and the footer, and the language switcher.
- Each home-page section's empty-content guard, icon tables, text directions, e-mail link,
  star rating, tripled carousel list, slide keys and tallest-card measurement.
- The about section's counters and one-shot stats flag.
- The application shell's language state and the document `lang`/`dir`/title it keeps in step.

There is one module per source file: `MenuPage`, `MenuData`, `Config`, `Utils`, `Hero`, `Footer`,
`Testimonials`, `About`, `MenuSection`, `Faq` and `App`. Four modules are shared:

- `I18n`: the language type, the translation record shape and `translations[lang]`.
- `Navigation`: the `http`/`#`/route link rule, which Hero and Footer each write out inline,
  and the hero's two language buttons.
- `Text`: JavaScript's `startsWith` and the decimal text of `${n}`.
- `Wrappers`: `Option`.

Rendered output is modelled as view records. A view holds what the JSX chooses to show, and
`Option` marks an element that may be absent. A function that returns `None` is a section that
returns `null`. State the components keep is modelled by classes:

- `MenuPage.MenuBrowser`
- `Hero.HeroState`
- `Testimonials.CarouselState`
- `About.Counter` and `About.StatsGate`
- `App.AppState`

The menu browser, the scroll handler, the counter and the application state are stated
against the pure functions the views use. The menu toggle, the mobile-link click and the stats
trigger state their flags directly.

A field's translation follows the code's `??`. Outside Hebrew, a defined override is shown even
when it is the empty string. The primary field is used only when the override is undefined.
An empty override does not fall back to the Hebrew text. `MenuPage.EmptyOverrideIsKept` proves
that `??` differs from an empty-skipping fallback exactly when the override is the empty string
and the primary text is not. The shipped catalogue has no such field. Its only empty
override is the house bread's `descriptionEn`, and that item's Hebrew description is empty
too. The guard `description || descriptionEn` is then false, so no description paragraph is
drawn in any language (`MenuPage.HouseBreadShowsNoDescription`). In the shipped data, `??`
therefore makes no visible difference. Reading the rule
as "empty overrides fall back" would not match the code; the model follows the code.

A field in the source called `label` cannot carry that name in Dafny, because it is a reserved
word. It is `labelText` on stats and social links, and `caption` on tabs and language buttons.

## Model

| member | source | states |
|---|---|---|
| MenuPage.InitialSelection | src/pages/MenuPage.tsx:12 | the first category's id, or "" for an empty catalogue |
| MenuPage.FirstIndexWithId | src/pages/MenuPage.tsx:15 | the index `find` stops at: it holds the id, and no earlier category does; `None` iff no category has the id |
| MenuPage.FindCategory | src/pages/MenuPage.tsx:15 | `find` gives a category with the id, taken from the catalogue, and nothing iff no category has that id |
| MenuPage.SelectedCategory | src/pages/MenuPage.tsx:15 | the category shown: one with the selected id when there is one, else the first; absent only for an empty catalogue |
| MenuPage.FindByUniqueId | src/pages/MenuPage.tsx:15 | with pairwise distinct ids, selecting category i's id finds and shows exactly category i |
| MenuPage.MenuBrowser.constructor | src/pages/MenuPage.tsx:12-15 | the selection starts at the first id, so the first category is displayed |
| MenuPage.MenuBrowser.SelectTab | src/pages/MenuPage.tsx:101 | a tab click sets the selection to that category's id, and with unique ids that category is displayed |
| MenuPage.RenderTabs | src/pages/MenuPage.tsx:98-106 | one tab per category, in order, with its name, selected iff its id is the selection |
| MenuPage.AtMostOneTabSelected | src/pages/MenuPage.tsx:103-106 | with unique ids no two tabs are selected |
| MenuPage.SelectingDesserts | src/pages/MenuPage.tsx:101-106 | in the shipped catalogue, selecting "desserts" shows desserts and marks only the fifth tab |
| MenuPage.GetCategoryName | src/pages/MenuPage.tsx:17-19 | `nameHe` in Hebrew, `nameEn` in English and in Portuguese |
| MenuPage.Resolve | src/pages/MenuPage.tsx:21-34 | the shared resolver rule: primary in Hebrew; otherwise a defined override, else the primary |
| MenuPage.ResolveOptional | src/pages/MenuPage.tsx:23-34 | the resolver rule for optional fields: primary in Hebrew; otherwise the override when defined, else the primary |
| MenuPage.GetItemName | src/pages/MenuPage.tsx:21-22 | `name` in Hebrew, otherwise `nameEn ?? name` |
| MenuPage.GetItemDesc | src/pages/MenuPage.tsx:23-24 | `description` in Hebrew, otherwise `descriptionEn` when defined, else `description` |
| MenuPage.GetItemSubtitle | src/pages/MenuPage.tsx:25-26 | `subtitle` in Hebrew, otherwise `subtitleEn` when defined, else `subtitle` |
| MenuPage.GetItemDetails | src/pages/MenuPage.tsx:27-28 | `details` in Hebrew, otherwise `detailsEn` when defined, else `details` |
| MenuPage.GetSubTitle | src/pages/MenuPage.tsx:29-30 | `title` in Hebrew, otherwise `titleEn ?? title` |
| MenuPage.GetSubDesc | src/pages/MenuPage.tsx:31-32 | `description` in Hebrew, otherwise `descriptionEn` when defined, else `description` |
| MenuPage.GetSubCta | src/pages/MenuPage.tsx:33-34 | `ctaText` in Hebrew, otherwise `ctaTextEn` when defined, else `ctaText` |
| MenuPage.HebrewIgnoresOverrides | src/pages/MenuPage.tsx:21-34 | all seven getters return the primary field in Hebrew, whatever the overrides hold |
| MenuPage.OverridesWinOutsideHebrew | src/pages/MenuPage.tsx:21-34 | outside Hebrew all seven getters return the override when defined and the primary only when it is undefined |
| MenuPage.EmptyOverrideIsKept | src/pages/MenuPage.tsx:21-34 | `??` differs from an empty-skipping fallback iff the override is a defined "" outside Hebrew and the primary is non-empty |
| MenuPage.ResolvedComesFromAField | src/pages/MenuPage.tsx:21-34 | a resolved value is always the primary or the override |
| MenuPage.GetPriceDisplay | src/pages/MenuPage.tsx:35-39 | the per-item placeholder maps to `pricePerItem`, the per-weight one to `pricePerWeight`, any other price to itself |
| MenuPage.SentinelPricesOnlyInThreeCategories | src/data/menu.ts:122-158 | placeholder prices occur in the kids, meat and business categories and in no other |
| MenuPage.Block | src/pages/MenuPage.tsx:140-147 | an optional paragraph is present iff its guard holds, and then shows the resolved text, or nothing when that is undefined |
| MenuPage.RenderListItem | src/pages/MenuPage.tsx:200-221 | a listed item shows its resolved name and translated price, with a description iff `description` or `descriptionEn` is truthy, holding the resolved description |
| MenuPage.RenderCard | src/pages/MenuPage.tsx:151-197 | a comparison card shows the resolved name and translated price; a subtitle iff either subtitle is truthy, holding the resolved subtitle; details iff either list is defined, holding the resolved list |
| MenuPage.RenderItems | src/pages/MenuPage.tsx:200 | one listed entry per item, in order |
| MenuPage.RenderSubSection | src/pages/MenuPage.tsx:135-224 | the two-card "or" layout iff `layout == 'grid'` with exactly two items, else every item listed in order; description and CTA iff their guards hold, each holding its resolved text |
| MenuPage.RenderSubSections | src/pages/MenuPage.tsx:135 | one view per sub-section, in order |
| MenuPage.RenderCategory | src/pages/MenuPage.tsx:133-229 | defined sub-sections win and are rendered one by one, `items` ignored; otherwise the flat list, and nothing when it is undefined |
| MenuPage.RenderMenuPage | src/pages/MenuPage.tsx:41-46 | the page is `rtl` exactly in Hebrew, always draws the tabs, and draws content iff the catalogue is non-empty; that content is the selected category (find-or-first) |
| MenuPage.ShippedGridUsesComparison | src/data/menu.ts:52-88 | the shipped grid sub-section takes the comparison layout |
| MenuData.CategoryIdsAreUnique | src/data/menu.ts:38-158 | the six category ids are pairwise distinct |
| MenuData.FirstCategoryIsChurrascaria | src/data/menu.ts:39-40 | there are six categories and the first is "churrascaria" |
| MenuData.OnePayloadPerCategory | src/data/menu.ts:42-158 | each category defines exactly one of `subSections` and `items`; only the first uses sub-sections |
| MenuData.GridSubSectionHasTwoItems | src/data/menu.ts:44-88 | every grid sub-section has exactly two items |
| MenuData.MainCourseCount | src/data/menu.ts:97-118 | the main-course list has 21 dishes |
| MenuData.ItemsCarryEnglish | src/data/menu.ts:53-158 | every item defines `nameEn`, and `details` always comes with `detailsEn` of the same length |
| MenuPage.HouseBreadShowsNoDescription | src/pages/MenuPage.tsx:239-243 | the house bread resolves to an empty description in every language, and its list entry has no description paragraph |
| MenuData.HouseBreadHasEmptyDescriptions | src/data/menu.ts:118 | the house bread's `description` and `descriptionEn` are both "" |
| MenuData.ImagesUnderBase | src/data/menu.ts:38-158 | every category image except the desserts' goes through `assetPath` and starts with the base URL |
| MenuData.SubSectionItems | src/data/menu.ts:20-27 | an item is among a sub-section list's items iff it belongs to one of the sub-sections |
| Utils.AssetPath | src/lib/utils.ts:9-12 | the result starts with the base, has length base + path - 1 when the path starts with '/' and base + path otherwise, and ends with the unchanged path when there is no leading '/' |
| Utils.AssetPathStripsAtMostOneSlash | src/lib/utils.ts:10 | one leading slash is removed, so "//a" keeps one |
| Utils.AssetPathIgnoresLeadingSlash | src/lib/utils.ts:10-11 | `assetPath("/" + p) == assetPath(p)` when `p` has no leading slash |
| Utils.AssetPathSuffix | src/lib/utils.ts:10-11 | what follows the base is the path, or the path without its one leading slash |
| Config.Https | src/config.ts:40 | a URL built with the `https://` scheme starts with "http" |
| Config.WithoutKey | src/config.ts:186-190 | the result holds no link with the key, only links of the input, and every input link without the key; a list without the key is unchanged |
| Config.WithoutKeyAppend | src/config.ts:186-190 | removing a key from a concatenation is removing it from each part, so the remaining links keep their order |
| Config.ReservationUrlIsShared | src/config.ts:40-52 | the hero reservations link, `heroConfig.ctaHref`, `faqCtaHref` and the footer reservations link are one URL |
| Config.FooterLinksAreHeroLinksWithoutContact | src/config.ts:37-50 | `footerNavLinks` is `heroNavLinks` without the contact entry, in order, and the hero uses `heroNavLinks` |
| Config.DefaultLanguageIsHebrew | src/config.ts:17-22 | the default language is Hebrew and `siteConfig.language` is its code "he" |
| Config.StatsValues | src/config.ts:160-165 | four stats with non-negative values 2001, 25, 5000 and 2 |
| I18n.SupportedLanguagesAreAllLanguages | src/i18n/index.ts:19 | the supported list holds every language once, and the codes tell them apart |
| I18n.TextDir | src/App.tsx:17 | `rtl` iff the language is Hebrew; the same choice recurs at src/pages/MenuPage.tsx:46, src/sections/FAQ.tsx:122 and src/sections/Testimonials.tsx:166 |
| I18n.BundleFor | src/i18n/index.ts:13-17 | `translations[lang]` is the bundle for that language |
| Navigation.Classify | src/sections/Hero.tsx:156-182 | `http...` is external, else `#...` is in-page, else a router link; each case is an iff |
| Navigation.NavLabel | src/sections/Hero.tsx:155 | `t.nav[key]`: each key takes its own nav label |
| Navigation.RenderLink | src/sections/Hero.tsx:154-182 | a link keeps its href, takes the label `t.nav[key]` and opens a new tab iff it is external |
| Navigation.RenderLinks | src/sections/Hero.tsx:154 | one rendered link per configured link, in order |
| Navigation.HeroLinkKinds | src/config.ts:38-41 | `#about` and `#contact` are in-page, `/menu` is a route, the reservation link is external |
| Navigation.LanguageButtons | src/sections/Hero.tsx:190-201 | two buttons setting Hebrew then English, each active iff it names the current language |
| Navigation.AfterClicks | src/sections/Hero.tsx:190-201 | no clicks leave the language as it was; any click leaves it at Hebrew or English |
| Navigation.ClicksNeverReachPortuguese | src/sections/Hero.tsx:190-201 | from Hebrew or English, any run of switcher clicks ends in the last button's language and never in Portuguese |
| Hero.RenderHero | src/sections/Hero.tsx:22-270 | absent iff background text, image and links are all empty; the mobile menu is shown iff open and repeats the desktop links and the desktop language buttons |
| Hero.ShippedHeroRenders | src/sections/Hero.tsx:22 | the configured hero renders four links labelled from the nav translations |
| Hero.MobileMenuFollowsFlag | src/sections/Hero.tsx:217-270 | with the menu open the configured links and a second Hebrew/English switcher appear in the mobile menu; closing it removes only the mobile menu |
| Hero.HeroState.constructor | src/sections/Hero.tsx:19-20 | both flags start false |
| Hero.ScrolledPast | src/sections/Hero.tsx:25 | true iff `scrollY > 30` |
| Hero.HeroState.HandleScroll | src/sections/Hero.tsx:25 | `hasScrolled` becomes the threshold test; the menu flag is unchanged |
| Hero.HeroState.ToggleMenu | src/sections/Hero.tsx:206 | flips `isMenuOpen` |
| Hero.HeroState.ClickMobileLink | src/sections/Hero.tsx:228-246 | any mobile link closes the menu |
| Footer.IconFor | src/sections/Footer.tsx:23-28 | the named icon for Instagram, Twitter, Facebook and TikTok, and Facebook for any other name |
| Footer.IconStrokeWidth | src/sections/Footer.tsx:203-207 | no stroke width iff the name is TikTok, otherwise 1.5 |
| Footer.MailtoHref | src/sections/Footer.tsx:121 | the href is "mailto:" followed by exactly the address |
| Footer.MailtoIsInjective | src/sections/Footer.tsx:121 | different addresses give different links |
| Footer.RenderSocial | src/sections/Footer.tsx:193-207 | a social button's icon comes from the table, its stroke from the TikTok rule, its href, label and key from the link |
| Footer.RenderSocials | src/sections/Footer.tsx:192-210 | one social button per link, in config order, with its icon, stroke and href |
| Footer.RenderFooter | src/sections/Footer.tsx:39-212 | absent iff logo, e-mail and nav links are all empty; logo, e-mail, nav column and social row each shown iff non-empty; the logo shows `logoText`, the e-mail its mailto link, and the nav and social parts the rendered links |
| Footer.SocialIconNamesAreKnown | src/config.ts:202-204 | every configured social icon name is a key of the icon map, so none falls back |
| Footer.ShippedFooterRenders | src/sections/Footer.tsx:145-180 | the configured footer shows every part, and its three links are in-page, route and external |
| Testimonials.StarFillAt | src/sections/Testimonials.tsx:19-21 | full iff i <= rating; half iff not full, i is 5 and the rating is 4.5; faint otherwise |
| Testimonials.Stars | src/sections/Testimonials.tsx:16-24 | five stars, star k drawn by the rule for k + 1 |
| Testimonials.ShippedRatings | src/sections/Testimonials.tsx:13-27 | rating 5 gives five full stars; 4.5 gives four full and a half |
| Testimonials.FullStarsArePrefix | src/sections/Testimonials.tsx:16-22 | full stars always come before the others |
| Testimonials.HalfStarOnlyForFourAndAHalf | src/sections/Testimonials.tsx:20 | a half star appears iff it is the fifth star and the rating is 4.5 |
| Testimonials.FullStarCount | src/sections/Testimonials.tsx:20 | for a rating in [0, 5] exactly its whole part of stars are full |
| Testimonials.LoopItems | src/sections/Testimonials.tsx:43 | the loop list is three times as long as the items |
| Testimonials.LoopItemsAt | src/sections/Testimonials.tsx:43 | loop slide k is item k mod n |
| Testimonials.SlideKey | src/sections/Testimonials.tsx:161 | the key is the id, a dash and the index's decimal text, with that dash right before the index digits |
| Testimonials.SlideKeysDistinct | src/sections/Testimonials.tsx:161 | `${id}-${idx}` keys of different slides differ, whatever the ids |
| Testimonials.DigitSuffixesAgree | src/sections/Testimonials.tsx:161 | two equal keys have the same index text after their last dash |
| Text.DecimalRoundTrip | src/sections/Testimonials.tsx:161 | the decimal text of an index reads back as that index |
| Text.DecimalInjective | src/sections/Testimonials.tsx:161 | different indices print differently |
| Testimonials.CardStyleHeight | src/sections/Testimonials.tsx:165 | a height is set iff the measured height is defined and non-zero |
| Testimonials.RenderSlide | src/sections/Testimonials.tsx:161-190 | a slide keyed `${id}-${idx}`, with the measured height rule, the language's direction, the item's stars, quote, name and role |
| Testimonials.RenderSlides | src/sections/Testimonials.tsx:160 | one slide per loop entry from a given index on, each numbered by its index |
| Testimonials.RenderTestimonials | src/sections/Testimonials.tsx:43-193 | absent iff the regular title is empty and there are no items; otherwise the bundle's subtitle (iff non-empty) and both title parts, one slide per loop entry, `rtl` exactly in Hebrew |
| Testimonials.RenderedSlides | src/sections/Testimonials.tsx:160-166 | slide k quotes testimonial k mod n, and no two rendered slides share a key |
| Testimonials.TallestCard | src/sections/Testimonials.tsx:52-56 | the result is at least every card's height and equals one of them, 0 when there are no cards |
| Testimonials.CarouselState.constructor | src/sections/Testimonials.tsx:37 | `cardHeight` starts null |
| Testimonials.CarouselState.Measure | src/sections/Testimonials.tsx:49-58 | no cards leaves `cardHeight` unchanged; otherwise it becomes the tallest card's height |
| About.StatLabel | src/sections/AboutSection.tsx:207 | index 0 is `fromYear`, 1 is `years`, 2 is `reviews`, any later index is `customers` |
| About.PortfolioAlt | src/sections/AboutSection.tsx:228 | the translated alt at that index when present, even "", else the image's own alt |
| About.AnimConfigAt | src/sections/AboutSection.tsx:35-48 | a config exists iff the grid index is below 6 |
| About.RenderStats | src/sections/AboutSection.tsx:197-210 | one stat per configured stat, in order, carrying its `end` value, suffix and label by index |
| About.RenderImages | src/sections/AboutSection.tsx:94-97 | one image per portfolio entry, in order, with its alt fallback and its animation present iff the index has a config |
| About.RenderAbout | src/sections/AboutSection.tsx:61-252 | absent iff both title lines are empty and there are no images; stats iff non-empty, accent iff non-empty |
| About.ShippedAboutRenders | src/sections/AboutSection.tsx:96-97 | the configured section shows four stats labelled in order, and all six images animate; a seventh would not |
| About.DurationMs | src/sections/AboutSection.tsx:15 | the window is `duration` seconds in milliseconds, and a zero duration means two seconds |
| About.StartCounter | src/sections/AboutSection.tsx:12-15 | nothing happens while `shouldAnimate` is false; otherwise a frame is scheduled over the window [now, now + duration] |
| About.CounterFrame | src/sections/AboutSection.tsx:16-27 | a frame stores a new count only when the floored value differs from the last stored one, and sets the count to `end` once the end time is reached |
| About.RunFrames | src/sections/AboutSection.tsx:16-28 | a run of scheduled frames: no frames change nothing, and frames never move the animation window |
| About.RepeatedValueKeepsCount | src/sections/AboutSection.tsx:21-24 | before the end time, a frame that repeats the stored value changes nothing |
| About.CountStaysInRange | src/sections/AboutSection.tsx:20-26 | while each frame's floored value is within [0, end], so is the shown count |
| About.CounterFinishesOnEnd | src/sections/AboutSection.tsx:25-26 | once a frame reaches the end time the counter stops on exactly `end` |
| About.StoppedStaysStopped | src/sections/AboutSection.tsx:25-26 | after it stops, no frame changes the counter |
| About.Counter.constructor | src/sections/AboutSection.tsx:8-10 | `count` and `countRef` start at 0 with nothing scheduled, and `duration` is the given one |
| About.Counter.Start | src/sections/AboutSection.tsx:12-15 | the effect's new state is `StartCounter` of the old one |
| About.Counter.Frame | src/sections/AboutSection.tsx:16-27 | a frame's new state is `CounterFrame` of the old one |
| About.StatsGate.constructor | src/sections/AboutSection.tsx:59 | `shouldAnimateStats` starts false |
| About.StatsGate.OnEnter | src/sections/AboutSection.tsx:86 | the trigger only ever sets it to true |
| MenuSection.IconFor | src/sections/MenuSection.tsx:5-10 | the named icon for Flame, Beef, Salad and Wine, and Flame for any other name |
| MenuSection.IconDir | src/sections/MenuSection.tsx:20-23 | the icon direction is the opposite of the text direction, `ltr` iff Hebrew |
| MenuSection.RenderCards | src/sections/MenuSection.tsx:64-87 | one card per service, in order, each linking to `/menu` |
| MenuSection.RenderMenuSection | src/sections/MenuSection.tsx:19-87 | absent iff the first title line is empty and there are no services; otherwise the heading texts come from the bundle, the section and every card text run in the language's direction, every icon against it, and the cards are exactly `RenderCards` of the services |
| Faq.CtaHref | src/sections/FAQ.tsx:142 | `faqCtaHref`, or "#contact" when it is empty |
| Faq.RenderItems | src/sections/FAQ.tsx:107-128 | one accordion item per FAQ, in order, keyed by id, answers `rtl` exactly in Hebrew |
| Faq.RenderCta | src/sections/FAQ.tsx:133-152 | the CTA is shown iff either text is non-empty, and each part iff its own text is |
| Faq.RenderFaq | src/sections/FAQ.tsx:27-152 | absent iff the regular title is empty and there are no FAQs; otherwise the bundle's subtitle (iff non-empty) and both title parts, the rendered questions and the CTA |
| Faq.ShippedCtaGoesToReservations | src/config.ts:183 | with the configured href the button goes to the reservation URL, never to the fallback |
| App.DocumentLang | src/App.tsx:16 | "he" iff the language is Hebrew, otherwise "en", so Portuguese becomes "en" |
| App.ApplyLanguage | src/App.tsx:11-18 | the title and meta description are replaced only by non-empty texts, the description only when its element exists; `lang` and `dir` follow the language |
| App.ApplyLanguageIsIdempotent | src/App.tsx:11-18 | running the effect twice for one language is the same as once |
| App.PortugueseLooksEnglishToTheDocument | src/App.tsx:16-17 | Portuguese and English give the same `lang` "en" and `dir` `ltr` |
| App.LastChangeWins | src/App.tsx:11-18 | when the new bundle's title and description are non-empty, earlier language changes leave no trace |
| App.Route | src/App.tsx:22-33 | exactly `/` and `/menu` route, to the home and menu pages, each given the current language |
| App.RoutesShareTheLanguage | src/App.tsx:22-33 | both routes receive the same language |
| App.AppState.constructor | src/App.tsx:9-18 | the language starts as Hebrew and the document is updated for it |
| App.AppState.SetCurrentLang | src/App.tsx:9-18 | the new language is stored and the document becomes `ApplyLanguage` of the old one |

## Left out

- GSAP scroll reveals, parallax, overlay fades and their timing (Hero, About, Footer, FAQ and Testimonials): third-party, float-valued animation driven by frames.
- The Counter's easing `1 - (1 - p)^3`, `Date.now` and `requestAnimationFrame`: each frame takes the time and the floored eased value as parameters. A frame fires only while one is scheduled. Loops left running by an earlier effect run are not modelled.
- About.CounterFrame: does not tie a frame's value to the easing curve, so "the count rises to `end` over the duration" is stated only as the final value and the range bound.
- Swiper options, the Radix accordion's open state, `ResizeObserver` and the 100 ms `setTimeout` before `measure`: UI widgets and timers. `measure` is modelled on the list of card heights it reads.
- DOM writes and queries, the React router, the Lenis hook and `main.tsx`. The document is a value, `App.DocumentState`, and the meta element's presence is part of it.
- `cn`: a wrapper over class-name libraries.
- The translation bundles `he`, `en` and `pt`: they are not part of this model. Every rendering function takes the bundle as a parameter, and `App.AppState` takes all three.
- `servicesConfig` and `whyChooseMeConfig.featureCards`: no modelled section reads them.
- `encodeURI` on portfolio image sources: the views keep the configured source text.
- The icon tables' lookup of `Object.prototype` names such as "constructor" (a JavaScript property-lookup quirk): the model treats every name outside the table as missing.
- An empty menu catalogue: the page would read a field of `undefined`. The model returns no content view instead.
- Tailwind classes, styling and `HomePage`'s fixed section order.
