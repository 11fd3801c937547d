/** The testimonials carousel (src/sections/Testimonials.tsx): the star rating, the tripled loop
    list, the slide keys, the empty-content guard and the tallest-card measurement. */
module Testimonials {
  import opened Wrappers
  import opened Text
  import opened I18n

  datatype StarFill = Full | Half | Faint

  /** The fill of star `i` (counted from 1) for a rating. */
  function StarFillAt(i: nat, rating: real): (f: StarFill)
    ensures f == Full <==> i as real <= rating
    ensures f == Half <==> i as real > rating && i == 5 && rating == 4.5
  {
    if i as real <= rating then Full
    else if i == 5 && rating == 4.5 then Half
    else Faint
  }

  /** The five stars `[1, 2, 3, 4, 5].map(...)` draws, left to right. */
  function Stars(rating: real): (r: seq<StarFill>)
    ensures |r| == 5
    ensures forall k :: 0 <= k < 5 ==> r[k] == StarFillAt(k + 1, rating)
  {
    [StarFillAt(1, rating), StarFillAt(2, rating), StarFillAt(3, rating),
     StarFillAt(4, rating), StarFillAt(5, rating)]
  }

  /** The two ratings the site shows: five full stars, or four full and one half. */
  lemma ShippedRatings()
    ensures Stars(5.0) == [Full, Full, Full, Full, Full]
    ensures Stars(4.5) == [Full, Full, Full, Full, Half]
  {
  }

  /** Full stars always come first. */
  lemma FullStarsArePrefix(rating: real, j: nat, k: nat)
    requires j <= k < 5 && Stars(rating)[k] == Full
    ensures Stars(rating)[j] == Full
  {
  }

  /** The half star appears only in the last place and only for a rating of 4.5. */
  lemma HalfStarOnlyForFourAndAHalf(rating: real, k: nat)
    requires k < 5
    ensures Stars(rating)[k] == Half <==> k == 4 && rating == 4.5
  {
  }

  /** For a rating between 0 and 5 the number of full stars is its whole part. */
  lemma FullStarCount(rating: real, k: nat)
    requires 0.0 <= rating <= 5.0 && k < 5
    ensures Stars(rating)[k] == Full <==> k < rating.Floor
  {
  }

  /** `[...items, ...items, ...items]`. */
  function LoopItems<T>(items: seq<T>): (r: seq<T>)
    ensures |r| == 3 * |items|
  {
    items + items + items
  }

  /** Slide k of the loop shows item k mod n. */
  lemma {:induction false} LoopItemsAt<T>(items: seq<T>, k: nat)
    requires k < 3 * |items|
    ensures LoopItems(items)[k] == items[k % |items|]
  {
    var n := |items|;
    if k < n {
      assert k % n == k;
    } else if k < 2 * n {
      assert (items + items)[k] == items[k - n];
      assert k % n == k - n;
    } else {
      assert k % n == k - 2 * n;
    }
  }

  /** The React key `${item.id}-${idx}`. */
  function SlideKey(id: string, idx: nat): (key: string)
    ensures key == id + "-" + NatToDecimal(idx)
    ensures key[|key| - |NatToDecimal(idx)| - 1] == '-'
  {
    id + "-" + NatToDecimal(idx)
  }

  /** In `a + "-" + d` with `d` all digits, the dash before `d` is the last one. */
  lemma LastDash(a: string, d: string)
    requires AllDigits(d)
    ensures var key := a + "-" + d; key[|key| - |d| - 1] == '-'
    ensures var key := a + "-" + d; forall m :: |key| - |d| <= m < |key| ==> key[m] != '-'
  {
    var key := a + "-" + d;
    forall m | |key| - |d| <= m < |key|
      ensures key[m] != '-'
    {
      assert key[m] == d[m - (|key| - |d|)];
    }
  }

  /** The text after the last dash is the same in two equal keys. */
  lemma {:induction false} DigitSuffixesAgree(a: string, da: string, b: string, db: string)
    requires AllDigits(da) && AllDigits(db)
    requires a + "-" + da == b + "-" + db
    ensures da == db
  {
    var key := a + "-" + da;
    LastDash(a, da);
    LastDash(b, db);
    assert |da| == |db|;
    assert da == key[|key| - |da|..];
    assert db == key[|key| - |db|..];
  }

  /** Keys of different slides differ, whatever the ids are. */
  lemma SlideKeysDistinct(ids: seq<string>, i: nat, j: nat)
    requires i < |ids| && j < |ids| && i != j
    ensures SlideKey(ids[i], i) != SlideKey(ids[j], j)
  {
    if SlideKey(ids[i], i) == SlideKey(ids[j], j) {
      DigitSuffixesAgree(ids[i], NatToDecimal(i), ids[j], NatToDecimal(j));
      DecimalInjective(i, j);
    }
  }

  /** `cardHeight ? { height: cardHeight } : undefined`: null and 0 set no height. */
  function CardStyleHeight(cardHeight: Option<int>): (h: Option<int>)
    ensures h.Some? <==> cardHeight.Some? && cardHeight.value != 0
    ensures h.Some? ==> h == cardHeight
  {
    if cardHeight.Some? && cardHeight.value != 0 then cardHeight else None
  }

  datatype SlideView = SlideView(
    key: string, height: Option<int>, dir: Dir, quote: string, stars: seq<StarFill>, name: string, role: string)

  datatype TestimonialsView = TestimonialsView(
    subtitle: Option<string>, titleRegular: string, titleItalic: string, slides: seq<SlideView>)

  function RenderSlide(item: TestimonialItem, idx: nat, lang: Language, cardHeight: Option<int>): (v: SlideView)
    ensures v.key == SlideKey(item.id, idx) && v.height == CardStyleHeight(cardHeight)
    ensures v.dir == TextDir(lang) && v.stars == Stars(item.rating)
    ensures v.quote == item.quote && v.name == item.name && v.role == item.role
  {
    SlideView(SlideKey(item.id, idx), CardStyleHeight(cardHeight), TextDir(lang),
      item.quote, Stars(item.rating), item.name, item.role)
  }

  /** The slides for `loop[from..]`, numbered from `from`. */
  function RenderSlides(loop: seq<TestimonialItem>, from: nat, lang: Language, cardHeight: Option<int>): (r: seq<SlideView>)
    requires from <= |loop|
    ensures |r| == |loop| - from
    ensures forall k :: 0 <= k < |r| ==> r[k] == RenderSlide(loop[from + k], from + k, lang, cardHeight)
    decreases |loop| - from
  {
    if from == |loop| then []
    else [RenderSlide(loop[from], from, lang, cardHeight)] + RenderSlides(loop, from + 1, lang, cardHeight)
  }

  /** Absent iff the regular title is empty and there are no items; otherwise one slide per
      entry of the tripled list, `rtl` exactly in Hebrew, with pairwise distinct keys. */
  function RenderTestimonials(t: TestimonialsTranslations, lang: Language, cardHeight: Option<int>): (r: Option<TestimonialsView>)
    ensures r.None? <==> t.titleRegular == "" && |t.items| == 0
    ensures r.Some? ==> (r.value.subtitle.Some? <==> t.subtitle != "")
    ensures r.Some? && t.subtitle != "" ==> r.value.subtitle == Some(t.subtitle)
    ensures r.Some? ==> r.value.titleRegular == t.titleRegular && r.value.titleItalic == t.titleItalic
    ensures r.Some? ==> |r.value.slides| == 3 * |t.items|
    ensures r.Some? ==> forall k :: 0 <= k < |r.value.slides| ==>
      r.value.slides[k] == RenderSlide(LoopItems(t.items)[k], k, lang, cardHeight)
    ensures r.Some? ==> forall k :: 0 <= k < |r.value.slides| ==> (r.value.slides[k].dir == Rtl <==> lang == He)
  {
    if t.titleRegular == "" && |t.items| == 0 then None
    else Some(TestimonialsView(
      if t.subtitle != "" then Some(t.subtitle) else None,
      t.titleRegular, t.titleItalic,
      RenderSlides(LoopItems(t.items), 0, lang, cardHeight)))
  }

  /** Slide k of a rendered carousel shows testimonial k mod n, and no two slides share a key. */
  lemma RenderedSlides(t: TestimonialsTranslations, lang: Language, cardHeight: Option<int>, i: nat, j: nat)
    requires RenderTestimonials(t, lang, cardHeight).Some?
    requires i < 3 * |t.items| && j < 3 * |t.items| && i != j
    ensures RenderTestimonials(t, lang, cardHeight).value.slides[i].quote == t.items[i % |t.items|].quote
    ensures RenderTestimonials(t, lang, cardHeight).value.slides[i].key != RenderTestimonials(t, lang, cardHeight).value.slides[j].key
  {
    var loop := LoopItems(t.items);
    LoopItemsAt(t.items, i);
    var ids := seq(|loop|, k requires 0 <= k < |loop| => loop[k].id);
    SlideKeysDistinct(ids, i, j);
  }

  /** `measure`: the largest scroll height among the cards, starting from 0. */
  method TallestCard(heights: seq<nat>) returns (maxH: nat)
    ensures heights == [] ==> maxH == 0
    ensures forall k :: 0 <= k < |heights| ==> heights[k] <= maxH
    ensures heights != [] ==> exists k :: 0 <= k < |heights| && heights[k] == maxH
  {
    maxH := 0;
    var i := 0;
    while i < |heights|
      invariant 0 <= i <= |heights|
      invariant forall k :: 0 <= k < i ==> heights[k] <= maxH
      invariant i == 0 ==> maxH == 0
      invariant i > 0 ==> exists k :: 0 <= k < i && heights[k] == maxH
    {
      if heights[i] > maxH {
        maxH := heights[i];
      }
      i := i + 1;
    }
  }

  /** The carousel's measured `cardHeight` state. */
  class CarouselState {
    var cardHeight: Option<int>

    constructor()
      ensures cardHeight == None
    {
      cardHeight := None;
    }

    /** With no cards nothing changes; otherwise the height becomes the tallest card's. */
    method Measure(heights: seq<nat>)
      modifies this
      ensures heights == [] ==> cardHeight == old(cardHeight)
      ensures heights != [] ==> cardHeight.Some?
      ensures heights != [] ==> forall k :: 0 <= k < |heights| ==> heights[k] <= cardHeight.value
      ensures heights != [] ==> exists k :: 0 <= k < |heights| && heights[k] == cardHeight.value
    {
      if |heights| == 0 {
        return;
      }
      var maxH := TallestCard(heights);
      cardHeight := Some(maxH);
    }
  }
}
