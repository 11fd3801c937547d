/** The questions section (src/sections/FAQ.tsx): the empty-content guard, the accordion items
    and the call to action with its link fallback. The accordion's open/close state belongs to
    the UI component and is not modelled. */
module Faq {
  import opened Wrappers
  import opened I18n
  import opened Config

  /** `faqCtaHref || '#contact'`. */
  function CtaHref(href: string): (r: string)
    ensures href != "" ==> r == href
    ensures href == "" ==> r == "#contact"
  {
    if href != "" then href else "#contact"
  }

  datatype FaqItemView = FaqItemView(key: string, question: string, answer: string, answerDir: Dir)
  datatype CtaButton = CtaButton(href: string, text: string)
  datatype CtaView = CtaView(text: Option<string>, button: Option<CtaButton>)

  datatype FaqView = FaqView(
    subtitle: Option<string>, titleRegular: string, titleItalic: string,
    items: seq<FaqItemView>, cta: Option<CtaView>)

  function RenderItems(faqs: seq<FaqItem>, lang: Language): (r: seq<FaqItemView>)
    ensures |r| == |faqs|
    ensures forall k :: 0 <= k < |faqs| ==>
      r[k] == FaqItemView(faqs[k].id, faqs[k].question, faqs[k].answer, TextDir(lang))
  {
    if faqs == [] then []
    else [FaqItemView(faqs[0].id, faqs[0].question, faqs[0].answer, TextDir(lang))] + RenderItems(faqs[1..], lang)
  }

  /** The call to action: present iff either text is non-empty, each part iff its own text is. */
  function RenderCta(f: FaqTranslations, href: string): (r: Option<CtaView>)
    ensures r.Some? <==> f.ctaText != "" || f.ctaButtonText != ""
    ensures r.Some? ==> (r.value.text.Some? <==> f.ctaText != "")
    ensures r.Some? && f.ctaText != "" ==> r.value.text.value == f.ctaText
    ensures r.Some? ==> (r.value.button.Some? <==> f.ctaButtonText != "")
    ensures r.Some? && f.ctaButtonText != "" ==> r.value.button.value == CtaButton(CtaHref(href), f.ctaButtonText)
  {
    if f.ctaText == "" && f.ctaButtonText == "" then None
    else Some(CtaView(
      if f.ctaText != "" then Some(f.ctaText) else None,
      if f.ctaButtonText != "" then Some(CtaButton(CtaHref(href), f.ctaButtonText)) else None))
  }

  /** Absent iff the regular title is empty and there are no questions; otherwise the
      questions keep their order and ids, with answers `rtl` exactly in Hebrew. */
  function RenderFaq(f: FaqTranslations, lang: Language, href: string): (r: Option<FaqView>)
    ensures r.None? <==> f.titleRegular == "" && |f.faqs| == 0
    ensures r.Some? ==> (r.value.subtitle.Some? <==> f.subtitle != "")
    ensures r.Some? && f.subtitle != "" ==> r.value.subtitle == Some(f.subtitle)
    ensures r.Some? ==> r.value.titleRegular == f.titleRegular && r.value.titleItalic == f.titleItalic
    ensures r.Some? ==> r.value.items == RenderItems(f.faqs, lang) && r.value.cta == RenderCta(f, href)
    ensures r.Some? ==> forall k :: 0 <= k < |r.value.items| ==> (r.value.items[k].answerDir == Rtl <==> lang == He)
  {
    if f.titleRegular == "" && |f.faqs| == 0 then None
    else Some(FaqView(
      if f.subtitle != "" then Some(f.subtitle) else None,
      f.titleRegular, f.titleItalic, RenderItems(f.faqs, lang), RenderCta(f, href)))
  }

  /** With the configured link the button goes to the reservation page, never to the fallback. */
  lemma ShippedCtaGoesToReservations(f: FaqTranslations)
    requires f.ctaButtonText != ""
    ensures RenderCta(f, faqCtaHref).value.button.value.href == reservationUrl
  {
    ReservationUrlIsShared();
  }
}
