/**
 * The rule evaluator and score aggregator of the popup: fifteen fixed rules,
 * evaluated in a fixed order, each yielding one check (the lazy-loading rule
 * may yield none), and a score that is the sum of the earned points capped at
 * 100.
 */
module Rules {
  import opened Wrappers
  import S = Signals

  datatype Status = Ok | Warn | Fail | Info

  /** The stable identity of each rule, used by the tip generator as a join key. */
  datatype RuleId =
    | Title | Desc | H1 | Https | Img | Canonical | Og | Viewport
    | Lang | Schema | Content | Favicon | H2 | Twitter | Lazy

  /** One evaluated rule: earned points `pts` out of `max`, and an impact weight. */
  datatype Check = Check(id: RuleId, status: Status, pts: int, max: nat, impact: nat)

  /** The order in which the rules are evaluated and displayed. */
  const RuleOrder: seq<RuleId> :=
    [Title, Desc, H1, Https, Img, Canonical, Og, Viewport,
     Lang, Schema, Content, Favicon, H2, Twitter, Lazy]

  /** Earned points lie between 0 and the maximum, and the impact weight is at most 100. */
  predicate InBounds(c: Check)
  {
    0 <= c.pts <= c.max && c.impact <= 100
  }

  /**
   * `Math.round(n / d)` for a positive `d`: the nearest integer, halves
   * rounded towards positive infinity.
   */
  function RoundHalfUp(n: int, d: int): int
    requires d > 0
  {
    (2 * n + d) / (2 * d)
  }

  /** The rounded quotient is within one half of `n / d`, a half rounding up. */
  lemma RoundHalfUpNearest(n: int, d: int)
    requires d > 0
    ensures var r := RoundHalfUp(n, d); d * (2 * r - 1) <= 2 * n < d * (2 * r + 1)
  {
    var q := (2 * n + d) / (2 * d);
    assert 2 * n + d == 2 * d * q + (2 * n + d) % (2 * d);
  }

  // ---------------------------------------------------------------- the rules

  function TitleRule(title: S.TitleTag): (c: Check)
    ensures c.id == Title && c.max == 15 && InBounds(c)
  {
    if title.text == "" then Check(Title, Fail, 0, 15, 95)
    else if title.length < 30 then Check(Title, Warn, 8, 15, 70)
    else if title.length > 60 then Check(Title, Warn, 9, 15, 60)
    else Check(Title, Ok, 15, 15, 95)
  }

  lemma TitleRuleCatalogue(seo: S.PageSignals)
    ensures var c := TitleRule(seo.title);
      && (c.status == Fail <==> seo.title.text == "")
      && (c.pts == 0 <==> seo.title.text == "")
      && (c.pts == 8 <==> seo.title.text != "" && seo.title.length < 30)
      && (c.pts == 9 <==> seo.title.text != "" && seo.title.length > 60)
      && (c.status == Ok <==> seo.title.text != "" && 30 <= seo.title.length <= 60)
      && (c.pts == 15 <==> seo.title.text != "" && 30 <= seo.title.length <= 60)
      && (c.status in {Ok, Warn, Fail} && c.pts in {0, 8, 9, 15})
  {
  }

  function DescRule(metaDescription: S.MetaDescription): (c: Check)
    ensures c.id == Desc && c.max == 12 && InBounds(c)
  {
    if !metaDescription.present then Check(Desc, Fail, 0, 12, 85)
    else if metaDescription.length < 70 then Check(Desc, Warn, 6, 12, 65)
    else if metaDescription.length > 160 then Check(Desc, Warn, 7, 12, 55)
    else Check(Desc, Ok, 12, 12, 85)
  }

  lemma DescRuleCatalogue(seo: S.PageSignals)
    ensures var c := DescRule(seo.metaDescription);
      && (c.status == Fail <==> !seo.metaDescription.present)
      && (c.pts == 0 <==> !seo.metaDescription.present)
      && (c.pts == 6 <==> seo.metaDescription.present && seo.metaDescription.length < 70)
      && (c.pts == 7 <==> seo.metaDescription.present && seo.metaDescription.length > 160)
      && (c.status == Ok <==> seo.metaDescription.present && 70 <= seo.metaDescription.length <= 160)
      && (c.pts == 12 <==> seo.metaDescription.present && 70 <= seo.metaDescription.length <= 160)
      && (c.status in {Ok, Warn, Fail} && c.pts in {0, 6, 7, 12})
  {
  }

  function H1Rule(headings: S.Headings): (c: Check)
    ensures c.id == H1 && c.max == 10 && InBounds(c)
  {
    if |headings.h1| == 0 then Check(H1, Fail, 0, 10, 80)
    else if |headings.h1| > 1 then Check(H1, Warn, 6, 10, 60)
    else Check(H1, Ok, 10, 10, 80)
  }

  lemma H1RuleCatalogue(seo: S.PageSignals)
    ensures var c := H1Rule(seo.headings);
      && (c.status == Fail <==> |seo.headings.h1| == 0)
      && (c.pts == 0 <==> |seo.headings.h1| == 0)
      && (c.status == Warn <==> |seo.headings.h1| > 1)
      && (c.pts == 6 <==> |seo.headings.h1| > 1)
      && (c.status == Ok <==> |seo.headings.h1| == 1)
      && (c.pts == 10 <==> |seo.headings.h1| == 1)
  {
  }

  function HttpsRule(https: S.Https): (c: Check)
    ensures c.id == Https && c.max == 10 && InBounds(c)
  {
    if https.secure then Check(Https, Ok, 10, 10, 90)
    else Check(Https, Fail, 0, 10, 90)
  }

  lemma HttpsRuleCatalogue(seo: S.PageSignals)
    ensures var c := HttpsRule(seo.https);
      && (c.status == Ok <==> seo.https.secure)
      && (c.pts == 10 <==> seo.https.secure)
      && (c.status == Fail <==> !seo.https.secure)
      && (c.pts == 0 <==> !seo.https.secure)
  {
  }

  /**
   * Images without alt text: full marks when there are no images or none lacks
   * alt text; otherwise the share of images with alt text, scaled to 8 and
   * rounded, failing once more than half of the images lack it.
   */
  function ImgRule(images: S.Images): (c: Check)
    ensures c.id == Img && c.max == 8
    ensures images.withoutAlt <= images.total ==> InBounds(c)
  {
    var t, w := images.total, images.withoutAlt;
    if t == 0 then Check(Img, Info, 8, 8, 30)
    else if w == 0 then Check(Img, Ok, 8, 8, 65)
    else
      RoundHalfUpWithin(8 * (t - w), t, 8);
      Check(Img, if 2 * w > t then Fail else Warn, RoundHalfUp(8 * (t - w), t), 8, 65)
  }

  lemma ImgRuleCatalogue(seo: S.PageSignals)
    ensures var c := ImgRule(seo.images);
      && (seo.images.total == 0 ==> c.status == Info && c.pts == 8)
      && (seo.images.total > 0 && seo.images.withoutAlt == 0 ==> c.status == Ok && c.pts == 8)
      && (seo.images.total > 0 && seo.images.withoutAlt > 0 ==>
         var t, w := seo.images.total, seo.images.withoutAlt;
         && (c.status == Fail <==> 2 * w > t)
         && (c.status == Warn <==> 2 * w <= t)
         && t * (2 * c.pts - 1) <= 16 * (t - w) < t * (2 * c.pts + 1))
  {
    var t: int, w: int := seo.images.total, seo.images.withoutAlt;
    if t > 0 && w > 0 {
      RoundHalfUpNearest(8 * (t - w), t);
    }
  }

  /** Rounding a quotient that lies in `0..k` gives an integer in `0..k`. */
  lemma RoundHalfUpWithin(n: int, d: int, k: int)
    requires d > 0
    ensures 0 <= n <= k * d ==> 0 <= RoundHalfUp(n, d) <= k
  {
    var r := RoundHalfUp(n, d);
    RoundHalfUpNearest(n, d);
    if 0 <= n <= k * d {
      if r > k {
        MulMonotone(d, 2 * k + 1, 2 * r - 1);
        assert false;
      }
      if r < 0 {
        MulMonotone(d, 2 * r + 1, -1);
        assert false;
      }
    }
  }

  /** Rounding preserves order. */
  lemma RoundHalfUpMonotone(n1: int, n2: int, d: int)
    requires d > 0 && n1 <= n2
    ensures RoundHalfUp(n1, d) <= RoundHalfUp(n2, d)
  {
    var r1, r2 := RoundHalfUp(n1, d), RoundHalfUp(n2, d);
    RoundHalfUpNearest(n1, d);
    RoundHalfUpNearest(n2, d);
    if r1 > r2 {
      MulMonotone(d, 2 * r2 + 1, 2 * r1 - 1);
      assert false;
    }
  }

  /** Among pages with as many images, more images without alt text never earn more points. */
  lemma ImgMonotone(seo1: S.PageSignals, seo2: S.PageSignals)
    requires seo1.images.total == seo2.images.total
    requires seo1.images.withoutAlt <= seo2.images.withoutAlt <= seo2.images.total
    ensures ImgRule(seo2.images).pts <= ImgRule(seo1.images).pts
  {
    var t: int, w1: int, w2: int := seo1.images.total, seo1.images.withoutAlt, seo2.images.withoutAlt;
    if t > 0 && w1 > 0 {
      RoundHalfUpMonotone(8 * (t - w2), 8 * (t - w1), t);
    }
  }

  lemma MulMonotone(t: nat, a: int, b: int)
    requires a <= b
    ensures t * a <= t * b
  {
  }

  function CanonicalRule(canonical: S.CanonicalLink): (c: Check)
    ensures c.id == Canonical && c.max == 7 && InBounds(c)
  {
    if canonical.present then Check(Canonical, Ok, 7, 7, 70)
    else Check(Canonical, Warn, 0, 7, 70)
  }

  lemma CanonicalRuleCatalogue(seo: S.PageSignals)
    ensures var c := CanonicalRule(seo.canonical);
      && (c.status == Ok <==> seo.canonical.present)
      && (c.pts == 7 <==> seo.canonical.present)
      && (c.status == Warn <==> !seo.canonical.present)
      && (c.pts == 0 <==> !seo.canonical.present)
  {
  }

  /** Open Graph: full marks from three flags on, two points per flag below that. */
  function OgRule(openGraph: S.OpenGraph): (c: Check)
    ensures c.id == Og && c.max == 6 && InBounds(c)
  {
    var n := S.OgCount(openGraph);
    if n >= 3 then Check(Og, Ok, 6, 6, 50)
    else if n > 0 then Check(Og, Warn, n * 2, 6, 50)
    else Check(Og, Fail, 0, 6, 50)
  }

  lemma OgRuleCatalogue(seo: S.PageSignals)
    ensures var c := OgRule(seo.openGraph);
      && (var n := S.OgCount(seo.openGraph);
         && (c.status == Ok <==> n >= 3)
         && (n >= 3 ==> c.pts == 6)
         && (c.status == Warn <==> 1 <= n <= 2)
         && (1 <= n <= 2 ==> c.pts == 2 * n)
         && (c.status == Fail <==> n == 0)
         && (n == 0 ==> c.pts == 0))
  {
  }

  function ViewportRule(viewport: S.Viewport): (c: Check)
    ensures c.id == Viewport && c.max == 5 && InBounds(c)
  {
    if viewport.present then Check(Viewport, Ok, 5, 5, 75)
    else Check(Viewport, Fail, 0, 5, 75)
  }

  lemma ViewportRuleCatalogue(seo: S.PageSignals)
    ensures var c := ViewportRule(seo.viewport);
      && (c.status == Ok <==> seo.viewport.present)
      && (c.pts == 5 <==> seo.viewport.present)
      && (c.status == Fail <==> !seo.viewport.present)
      && (c.pts == 0 <==> !seo.viewport.present)
  {
  }

  function LangRule(lang: S.Lang): (c: Check)
    ensures c.id == Lang && c.max == 5 && InBounds(c)
  {
    if lang.present then Check(Lang, Ok, 5, 5, 45)
    else Check(Lang, Warn, 0, 5, 45)
  }

  lemma LangRuleCatalogue(seo: S.PageSignals)
    ensures var c := LangRule(seo.lang);
      && (c.status == Ok <==> seo.lang.present)
      && (c.pts == 5 <==> seo.lang.present)
      && (c.status == Warn <==> !seo.lang.present)
      && (c.pts == 0 <==> !seo.lang.present)
  {
  }

  function SchemaRule(structuredData: S.StructuredData): (c: Check)
    ensures c.id == Schema && c.max == 5 && InBounds(c)
  {
    if structuredData.count > 0 then Check(Schema, Ok, 5, 5, 60)
    else Check(Schema, Warn, 0, 5, 60)
  }

  lemma SchemaRuleCatalogue(seo: S.PageSignals)
    ensures var c := SchemaRule(seo.structuredData);
      && (c.status == Ok <==> seo.structuredData.count > 0)
      && (c.pts == 5 <==> seo.structuredData.count > 0)
      && (c.status == Warn <==> seo.structuredData.count == 0)
      && (c.pts == 0 <==> seo.structuredData.count == 0)
  {
  }

  function ContentRule(content: S.Content): (c: Check)
    ensures c.id == Content && c.max == 5 && InBounds(c)
  {
    if content.wordCount >= 300 then Check(Content, Ok, 5, 5, 55)
    else if content.wordCount >= 100 then Check(Content, Warn, 2, 5, 55)
    else Check(Content, Fail, 0, 5, 55)
  }

  lemma ContentRuleCatalogue(seo: S.PageSignals)
    ensures var c := ContentRule(seo.content);
      && (c.status == Ok <==> seo.content.wordCount >= 300)
      && (c.pts == 5 <==> seo.content.wordCount >= 300)
      && (c.status == Warn <==> 100 <= seo.content.wordCount < 300)
      && (c.pts == 2 <==> 100 <= seo.content.wordCount < 300)
      && (c.status == Fail <==> seo.content.wordCount < 100)
      && (c.pts == 0 <==> seo.content.wordCount < 100)
  {
  }

  function FaviconRule(favicon: S.Favicon): (c: Check)
    ensures c.id == Favicon && c.max == 4 && InBounds(c)
  {
    if favicon.present then Check(Favicon, Ok, 4, 4, 30)
    else Check(Favicon, Warn, 0, 4, 30)
  }

  lemma FaviconRuleCatalogue(seo: S.PageSignals)
    ensures var c := FaviconRule(seo.favicon);
      && (c.status == Ok <==> seo.favicon.present)
      && (c.pts == 4 <==> seo.favicon.present)
      && (c.status == Warn <==> !seo.favicon.present)
      && (c.pts == 0 <==> !seo.favicon.present)
  {
  }

  /** H2 structure: never fails; one H2 earns a point, two or more earn all three. */
  function H2Rule(headings: S.Headings): (c: Check)
    ensures c.id == H2 && c.max == 3 && InBounds(c)
  {
    if headings.h2 >= 2 then Check(H2, Ok, 3, 3, 40)
    else if headings.h2 == 1 then Check(H2, Warn, 1, 3, 40)
    else Check(H2, Warn, 0, 3, 40)
  }

  lemma H2RuleCatalogue(seo: S.PageSignals)
    ensures var c := H2Rule(seo.headings);
      && (c.status == Ok <==> seo.headings.h2 >= 2)
      && (c.pts == 3 <==> seo.headings.h2 >= 2)
      && (c.status == Warn <==> seo.headings.h2 < 2)
      && (seo.headings.h2 < 2 ==> c.pts == seo.headings.h2)
  {
  }

  function TwitterRule(twitterCard: S.TwitterCard): (c: Check)
    ensures c.id == Twitter && c.max == 3 && InBounds(c)
  {
    if twitterCard.present then Check(Twitter, Ok, 3, 3, 35)
    else Check(Twitter, Warn, 0, 3, 35)
  }

  lemma TwitterRuleCatalogue(seo: S.PageSignals)
    ensures var c := TwitterRule(seo.twitterCard);
      && (c.status == Ok <==> seo.twitterCard.present)
      && (c.pts == 3 <==> seo.twitterCard.present)
      && (c.status == Warn <==> !seo.twitterCard.present)
      && (c.pts == 0 <==> !seo.twitterCard.present)
  {
  }

  /**
   * Lazy loading: the one rule that may stay silent, when the page has at most
   * three images and no lazily loaded one (or no image at all).
   */
  function LazyRule(images: S.Images, performance: S.Performance): (r: Option<Check>)
    ensures r.None? <==> !(images.total > 0 && performance.hasLazyImages) && images.total <= 3
  {
    if images.total > 0 && performance.hasLazyImages then Some(Check(Lazy, Ok, 2, 2, 40))
    else if images.total > 3 then Some(Check(Lazy, Warn, 0, 2, 40))
    else None
  }

  lemma LazyRuleCatalogue(seo: S.PageSignals)
    ensures var r := LazyRule(seo.images, seo.performance);
      && (r.Some? ==> r.value.id == Lazy && r.value.max == 2 && InBounds(r.value))
      && (r.Some? ==> (r.value.status == Ok <==> seo.images.total > 0 && seo.performance.hasLazyImages))
      && (r.Some? ==> (r.value.pts == 2 <==> seo.images.total > 0 && seo.performance.hasLazyImages))
      && (r.Some? && !(seo.images.total > 0 && seo.performance.hasLazyImages) ==>
            r.value.status == Warn && r.value.pts == 0)
      && (r.Some? ==> r.value.status in {Ok, Warn})
  {
  }

  predicate LazyEmitted(seo: S.PageSignals)
  {
    LazyRule(seo.images, seo.performance).Some?
  }

  // ------------------------------------------------------------ monotonicity

  /** More Open Graph flags never earn fewer points. */
  lemma OgMonotone(seo1: S.PageSignals, seo2: S.PageSignals)
    requires S.OgCount(seo1.openGraph) <= S.OgCount(seo2.openGraph)
    ensures OgRule(seo1.openGraph).pts <= OgRule(seo2.openGraph).pts
  {
  }

  /** More words never earn fewer points. */
  lemma ContentMonotone(seo1: S.PageSignals, seo2: S.PageSignals)
    requires seo1.content.wordCount <= seo2.content.wordCount
    ensures ContentRule(seo1.content).pts <= ContentRule(seo2.content).pts
  {
  }

  /** More H2 headings never earn fewer points. */
  lemma H2Monotone(seo1: S.PageSignals, seo2: S.PageSignals)
    requires seo1.headings.h2 <= seo2.headings.h2
    ensures H2Rule(seo1.headings).pts <= H2Rule(seo2.headings).pts
  {
  }

  /** More structured-data blocks never earn fewer points. */
  lemma SchemaMonotone(seo1: S.PageSignals, seo2: S.PageSignals)
    requires seo1.structuredData.count <= seo2.structuredData.count
    ensures SchemaRule(seo1.structuredData).pts <= SchemaRule(seo2.structuredData).pts
  {
  }

  // ------------------------------------------------------------ the evaluator

  /** The checks in evaluation order, the lazy check last when it is emitted. */
  function Evaluate(seo: S.PageSignals): (r: seq<Check>)
  {
    var base :=
      [TitleRule(seo.title), DescRule(seo.metaDescription), H1Rule(seo.headings), HttpsRule(seo.https), ImgRule(seo.images),
       CanonicalRule(seo.canonical), OgRule(seo.openGraph), ViewportRule(seo.viewport), LangRule(seo.lang), SchemaRule(seo.structuredData),
       ContentRule(seo.content), FaviconRule(seo.favicon), H2Rule(seo.headings), TwitterRule(seo.twitterCard)];
    if LazyRule(seo.images, seo.performance).Some? then base + [LazyRule(seo.images, seo.performance).value] else base
  }

  function Ids(checks: seq<Check>): (r: seq<RuleId>)
    ensures |r| == |checks|
    ensures forall i :: 0 <= i < |checks| ==> r[i] == checks[i].id
  {
    seq(|checks|, i requires 0 <= i < |checks| => checks[i].id)
  }

  /** Earned points, summed in the order the checks were pushed. */
  function SumPts(checks: seq<Check>): int
  {
    if checks == [] then 0 else SumPts(checks[..|checks| - 1]) + checks[|checks| - 1].pts
  }

  function SumMax(checks: seq<Check>): int
  {
    if checks == [] then 0 else SumMax(checks[..|checks| - 1]) + checks[|checks| - 1].max
  }

  /** `Math.min(100, total)`: capped above only, as `calculateScore` does. */
  function Score(checks: seq<Check>): (r: int)
    ensures r <= 100
    ensures r == 100 || r == SumPts(checks)
    ensures r == SumPts(checks) <==> SumPts(checks) <= 100
  {
    if SumPts(checks) < 100 then SumPts(checks) else 100
  }

  // ------------------------------------------------ properties of the engine

  /** The position of each rule in the evaluation order. */
  function RuleIndex(id: RuleId): (k: nat)
    ensures k < |RuleOrder| && RuleOrder[k] == id
  {
    match id
    case Title => 0 case Desc => 1 case H1 => 2 case Https => 3 case Img => 4
    case Canonical => 5 case Og => 6 case Viewport => 7 case Lang => 8 case Schema => 9
    case Content => 10 case Favicon => 11 case H2 => 12 case Twitter => 13 case Lazy => 14
  }

  /** The check at position `i` is the one of the `i`-th rule in the evaluation order. */
  lemma EvaluatePositions(seo: S.PageSignals)
    ensures |Evaluate(seo)| == if LazyEmitted(seo) then 15 else 14
    ensures forall i :: 0 <= i < |Evaluate(seo)| ==> Evaluate(seo)[i].id == RuleOrder[i]
  {
    EvaluateElements(seo);
    InRuleOrder(Evaluate(seo));
  }

  /** Each position holds its own rule's check. */
  lemma EvaluateElements(seo: S.PageSignals)
    ensures var r := Evaluate(seo);
      && |r| == (if LazyEmitted(seo) then 15 else 14)
      && r[0] == TitleRule(seo.title) && r[1] == DescRule(seo.metaDescription) && r[2] == H1Rule(seo.headings) && r[3] == HttpsRule(seo.https)
      && r[4] == ImgRule(seo.images) && r[5] == CanonicalRule(seo.canonical) && r[6] == OgRule(seo.openGraph) && r[7] == ViewportRule(seo.viewport)
      && r[8] == LangRule(seo.lang) && r[9] == SchemaRule(seo.structuredData) && r[10] == ContentRule(seo.content) && r[11] == FaviconRule(seo.favicon)
      && r[12] == H2Rule(seo.headings) && r[13] == TwitterRule(seo.twitterCard)
      && (LazyEmitted(seo) ==> r[14] == LazyRule(seo.images, seo.performance).value)
  {
    var lazy := LazyRule(seo.images, seo.performance);
    var tail := if lazy.Some? then [lazy.value] else [];
    FourteenThen(TitleRule(seo.title), DescRule(seo.metaDescription), H1Rule(seo.headings), HttpsRule(seo.https), ImgRule(seo.images),
       CanonicalRule(seo.canonical), OgRule(seo.openGraph), ViewportRule(seo.viewport), LangRule(seo.lang), SchemaRule(seo.structuredData),
       ContentRule(seo.content), FaviconRule(seo.favicon), H2Rule(seo.headings), TwitterRule(seo.twitterCard), tail);
    assert Evaluate(seo) == [TitleRule(seo.title), DescRule(seo.metaDescription), H1Rule(seo.headings), HttpsRule(seo.https), ImgRule(seo.images),
       CanonicalRule(seo.canonical), OgRule(seo.openGraph), ViewportRule(seo.viewport), LangRule(seo.lang), SchemaRule(seo.structuredData),
       ContentRule(seo.content), FaviconRule(seo.favicon), H2Rule(seo.headings), TwitterRule(seo.twitterCard)] + tail;
  }

  lemma FourteenThen(c1: Check, c2: Check, c3: Check, c4: Check, c5: Check, c6: Check, c7: Check,
                      c8: Check, c9: Check, c10: Check, c11: Check, c12: Check, c13: Check, c14: Check, tail: seq<Check>)
    ensures var r := [c1, c2, c3, c4, c5, c6, c7, c8, c9, c10, c11, c12, c13, c14] + tail;
      && |r| == 14 + |tail|
      && r[0] == c1 && r[1] == c2 && r[2] == c3 && r[3] == c4 && r[4] == c5 && r[5] == c6 && r[6] == c7
      && r[7] == c8 && r[8] == c9 && r[9] == c10 && r[10] == c11 && r[11] == c12 && r[12] == c13 && r[13] == c14
      && forall j :: 0 <= j < |tail| ==> r[14 + j] == tail[j]
  {
  }

  /** Fourteen or fifteen checks whose ids are placed as in the rule order follow it. */
  lemma {:induction false} InRuleOrder(r: seq<Check>)
    requires 14 <= |r| <= 15
    requires r[0].id == Title && r[1].id == Desc && r[2].id == H1 && r[3].id == Https && r[4].id == Img
    requires r[5].id == Canonical && r[6].id == Og && r[7].id == Viewport && r[8].id == Lang && r[9].id == Schema
    requires r[10].id == Content && r[11].id == Favicon && r[12].id == H2 && r[13].id == Twitter
    requires |r| == 15 ==> r[14].id == Lazy
    ensures forall i :: 0 <= i < |r| ==> r[i].id == RuleOrder[i]
  {
  }

  /** `RuleIndex` inverts the rule order. */
  lemma RuleIndexAt(i: nat)
    requires i < |RuleOrder|
    ensures RuleIndex(RuleOrder[i]) == i
  {
  }

  /**
   * Every rule but the lazy one yields exactly one check, in the fixed rule
   * order, and the lazy check comes last when it is emitted.
   */
  lemma EvaluateOrder(seo: S.PageSignals)
    ensures Ids(Evaluate(seo)) == if LazyEmitted(seo) then RuleOrder else RuleOrder[..14]
  {
    EvaluatePositions(seo);
    IdsInOrder(Evaluate(seo));
    WholeOrder(Evaluate(seo));
  }

  /** No two checks of a page share an id. */
  lemma EvaluateDistinct(seo: S.PageSignals)
    ensures forall i, j :: 0 <= i < j < |Evaluate(seo)| ==> Evaluate(seo)[i].id != Evaluate(seo)[j].id
  {
    EvaluatePositions(seo);
    DistinctInOrder(Evaluate(seo));
  }

  /** The ids of checks that follow the rule order are a prefix of it. */
  lemma IdsInOrder(checks: seq<Check>)
    requires |checks| <= |RuleOrder|
    requires forall i :: 0 <= i < |checks| ==> checks[i].id == RuleOrder[i]
    ensures Ids(checks) == RuleOrder[..|checks|]
  {
  }

  lemma WholeOrder(checks: seq<Check>)
    requires |checks| == 14 || |checks| == 15
    ensures RuleOrder[..|checks|] == if |checks| == 15 then RuleOrder else RuleOrder[..14]
  {
  }

  /** Checks whose ids follow the rule order never share an id. */
  lemma DistinctInOrder(checks: seq<Check>)
    requires |checks| <= |RuleOrder|
    requires forall i :: 0 <= i < |checks| ==> checks[i].id == RuleOrder[i]
    ensures forall i, j :: 0 <= i < j < |checks| ==> checks[i].id != checks[j].id
  {
    forall i, j | 0 <= i < j < |checks| ensures checks[i].id != checks[j].id {
      RuleIndexAt(i);
      RuleIndexAt(j);
    }
  }

  /** Given the extractor's guarantee, every check earns between 0 and its maximum. */
  lemma EvaluateInBounds(seo: S.PageSignals)
    requires S.WellFormed(seo)
    ensures forall c :: c in Evaluate(seo) ==> InBounds(c)
  {
    InBoundsOfFourteen(TitleRule(seo.title), DescRule(seo.metaDescription), H1Rule(seo.headings), HttpsRule(seo.https), ImgRule(seo.images),
       CanonicalRule(seo.canonical), OgRule(seo.openGraph), ViewportRule(seo.viewport), LangRule(seo.lang), SchemaRule(seo.structuredData),
       ContentRule(seo.content), FaviconRule(seo.favicon), H2Rule(seo.headings), TwitterRule(seo.twitterCard));
  }

  lemma InBoundsOfFourteen(c1: Check, c2: Check, c3: Check, c4: Check, c5: Check, c6: Check, c7: Check,
                           c8: Check, c9: Check, c10: Check, c11: Check, c12: Check, c13: Check, c14: Check)
    requires InBounds(c1) && InBounds(c2) && InBounds(c3) && InBounds(c4) && InBounds(c5)
    requires InBounds(c6) && InBounds(c7) && InBounds(c8) && InBounds(c9) && InBounds(c10)
    requires InBounds(c11) && InBounds(c12) && InBounds(c13) && InBounds(c14)
    ensures forall c :: c in [c1, c2, c3, c4, c5, c6, c7, c8, c9, c10, c11, c12, c13, c14] ==> InBounds(c)
  {
  }

  /** The rule maxima add up to 100, or 98 when the lazy check is not emitted. */
  lemma EvaluateMaxSum(seo: S.PageSignals)
    ensures SumMax(Evaluate(seo)) == if LazyEmitted(seo) then 100 else 98
  {
    var r := Evaluate(seo);
    SumMaxOfFourteen(TitleRule(seo.title), DescRule(seo.metaDescription), H1Rule(seo.headings), HttpsRule(seo.https), ImgRule(seo.images),
                     CanonicalRule(seo.canonical), OgRule(seo.openGraph), ViewportRule(seo.viewport), LangRule(seo.lang), SchemaRule(seo.structuredData),
                     ContentRule(seo.content), FaviconRule(seo.favicon), H2Rule(seo.headings), TwitterRule(seo.twitterCard));
    if LazyEmitted(seo) {
      assert r[..14] + [r[14]] == r;
      SumMaxSnoc(r[..14], r[14]);
    }
  }

  lemma SumMaxOfFourteen(c1: Check, c2: Check, c3: Check, c4: Check, c5: Check, c6: Check, c7: Check,
                         c8: Check, c9: Check, c10: Check, c11: Check, c12: Check, c13: Check, c14: Check)
    ensures SumMax([c1, c2, c3, c4, c5, c6, c7, c8, c9, c10, c11, c12, c13, c14])
         == c1.max + c2.max + c3.max + c4.max + c5.max + c6.max + c7.max
          + c8.max + c9.max + c10.max + c11.max + c12.max + c13.max + c14.max
  {
    AppendSingletons(c1, c2, c3, c4, c5, c6, c7, c8, c9, c10, c11, c12, c13, c14);
    forall cs: seq<Check>, c: Check ensures SumMax(cs + [c]) == SumMax(cs) + c.max {
      SumMaxSnoc(cs, c);
    }
  }

  lemma {:induction false} SumMaxSnoc(checks: seq<Check>, c: Check)
    ensures SumMax(checks + [c]) == SumMax(checks) + c.max
  {
    assert (checks + [c])[..|checks|] == checks;
  }

  /** Points within bounds add up to at least 0 and at most the summed maxima. */
  lemma {:induction false} SumPtsWithin(checks: seq<Check>)
    requires forall c :: c in checks ==> InBounds(c)
    ensures 0 <= SumPts(checks) <= SumMax(checks)
  {
    if checks != [] {
      var init := checks[..|checks| - 1];
      assert checks[|checks| - 1] in checks;
      assert forall c :: c in init ==> c in checks;
      SumPtsWithin(init);
    }
  }

  /**
   * The score lies in 0..100, and because the maxima add up to at most 100 the
   * cap never changes it: the score is the plain sum of the earned points.
   */
  lemma ScoreIsPointSum(seo: S.PageSignals)
    requires S.WellFormed(seo)
    ensures Score(Evaluate(seo)) == SumPts(Evaluate(seo))
    ensures 0 <= Score(Evaluate(seo)) <= 100
  {
    EvaluateInBounds(seo);
    SumPtsWithin(Evaluate(seo));
    EvaluateMaxSum(seo);
  }

  /** A page without the lazy check can score at most 98. */
  lemma ScoreWithoutLazy(seo: S.PageSignals)
    requires S.WellFormed(seo)
    requires !LazyEmitted(seo)
    ensures Score(Evaluate(seo)) <= 98
  {
    ScoreIsPointSum(seo);
    EvaluatePointSum(seo);
  }

  /** The image rule gives full marks exactly when at most one image in sixteen lacks alt text. */
  lemma ImgFullMarks(seo: S.PageSignals)
    requires seo.images.withoutAlt <= seo.images.total
    ensures ImgRule(seo.images).pts == 8 <==> 16 * seo.images.withoutAlt <= seo.images.total
  {
    var t: int, w: int := seo.images.total, seo.images.withoutAlt;
    if t > 0 && w > 0 {
      var p := ImgRule(seo.images).pts;
      assert p == RoundHalfUp(8 * (t - w), t);
      RoundHalfUpNearest(8 * (t - w), t);
      if p == 8 {
        assert t * 15 <= 16 * (t - w);
      } else if 16 * w <= t {
        assert p <= 7;
        MulMonotone(t, 2 * p + 1, 15);
        assert false;
      }
    }
  }

  /** The signals of a page that earns every available point, the lazy check included. */
  predicate FullMarks(seo: S.PageSignals)
  {
    && seo.title.text != "" && 30 <= seo.title.length <= 60
    && seo.metaDescription.present && 70 <= seo.metaDescription.length <= 160
    && |seo.headings.h1| == 1
    && seo.https.secure
    && 16 * seo.images.withoutAlt <= seo.images.total
    && seo.canonical.present
    && S.OgCount(seo.openGraph) >= 3
    && seo.viewport.present
    && seo.lang.present
    && seo.structuredData.count > 0
    && seo.content.wordCount >= 300
    && seo.favicon.present
    && seo.headings.h2 >= 2
    && seo.twitterCard.present
    && seo.images.total > 0 && seo.performance.hasLazyImages
  }

  /** The lazy rule's contribution to the total: its points when emitted, nothing otherwise. */
  function LazyPts(images: S.Images, performance: S.Performance): (p: int)
    ensures 0 <= p <= 2
    ensures p == 2 <==> images.total > 0 && performance.hasLazyImages
  {
    match LazyRule(images, performance)
    case Some(c) => c.pts
    case None => 0
  }

  /** Full marks on the page's signals are full marks on every one of the fifteen rules. */
  lemma FullMarksByRule(seo: S.PageSignals)
    requires seo.images.withoutAlt <= seo.images.total
    ensures FullMarks(seo) <==>
      && TitleRule(seo.title).pts == 15 && DescRule(seo.metaDescription).pts == 12 && H1Rule(seo.headings).pts == 10
      && HttpsRule(seo.https).pts == 10 && ImgRule(seo.images).pts == 8 && CanonicalRule(seo.canonical).pts == 7
      && OgRule(seo.openGraph).pts == 6 && ViewportRule(seo.viewport).pts == 5 && LangRule(seo.lang).pts == 5
      && SchemaRule(seo.structuredData).pts == 5 && ContentRule(seo.content).pts == 5 && FaviconRule(seo.favicon).pts == 4
      && H2Rule(seo.headings).pts == 3 && TwitterRule(seo.twitterCard).pts == 3 && LazyPts(seo.images, seo.performance) == 2
  {
    TitleRuleCatalogue(seo);
    DescRuleCatalogue(seo);
    H1RuleCatalogue(seo);
    HttpsRuleCatalogue(seo);
    ImgFullMarks(seo);
    CanonicalRuleCatalogue(seo);
    OgRuleCatalogue(seo);
    ViewportRuleCatalogue(seo);
    LangRuleCatalogue(seo);
    SchemaRuleCatalogue(seo);
    ContentRuleCatalogue(seo);
    FaviconRuleCatalogue(seo);
    H2RuleCatalogue(seo);
    TwitterRuleCatalogue(seo);
  }

  /** Fifteen bounded parts add up to the sum of their bounds exactly when each is at its bound. */
  lemma SumAtMaxima(p1: int, p2: int, p3: int, p4: int, p5: int, p6: int, p7: int, p8: int,
                    p9: int, p10: int, p11: int, p12: int, p13: int, p14: int, p15: int)
    requires 0 <= p1 <= 15 && 0 <= p2 <= 12 && 0 <= p3 <= 10 && 0 <= p4 <= 10 && 0 <= p5 <= 8
    requires 0 <= p6 <= 7 && 0 <= p7 <= 6 && 0 <= p8 <= 5 && 0 <= p9 <= 5 && 0 <= p10 <= 5
    requires 0 <= p11 <= 5 && 0 <= p12 <= 4 && 0 <= p13 <= 3 && 0 <= p14 <= 3 && 0 <= p15 <= 2
    ensures p1 + p2 + p3 + p4 + p5 + p6 + p7 + p8 + p9 + p10 + p11 + p12 + p13 + p14 + p15 == 100 <==>
      && p1 == 15 && p2 == 12 && p3 == 10 && p4 == 10 && p5 == 8 && p6 == 7 && p7 == 6 && p8 == 5
      && p9 == 5 && p10 == 5 && p11 == 5 && p12 == 4 && p13 == 3 && p14 == 3 && p15 == 2
  {
  }

  /** A page scores 100 exactly when it earns full marks on every rule, the lazy one included. */
  lemma ScoreHundredIff(seo: S.PageSignals)
    requires S.WellFormed(seo)
    ensures Score(Evaluate(seo)) == 100 <==> FullMarks(seo)
  {
    ScoreIsPointSum(seo);
    EvaluatePointSum(seo);
    FullMarksByRule(seo);
    SumAtMaxima(TitleRule(seo.title).pts, DescRule(seo.metaDescription).pts, H1Rule(seo.headings).pts, HttpsRule(seo.https).pts,
      ImgRule(seo.images).pts, CanonicalRule(seo.canonical).pts, OgRule(seo.openGraph).pts, ViewportRule(seo.viewport).pts,
      LangRule(seo.lang).pts, SchemaRule(seo.structuredData).pts, ContentRule(seo.content).pts, FaviconRule(seo.favicon).pts,
      H2Rule(seo.headings).pts, TwitterRule(seo.twitterCard).pts, LazyPts(seo.images, seo.performance));
  }

  /** Page `b` earns at least as many points as page `a` on every one of the fifteen rules. */
  predicate Dominates(a: S.PageSignals, b: S.PageSignals)
  {
    && TitleRule(a.title).pts <= TitleRule(b.title).pts && DescRule(a.metaDescription).pts <= DescRule(b.metaDescription).pts
    && H1Rule(a.headings).pts <= H1Rule(b.headings).pts && HttpsRule(a.https).pts <= HttpsRule(b.https).pts
    && ImgRule(a.images).pts <= ImgRule(b.images).pts && CanonicalRule(a.canonical).pts <= CanonicalRule(b.canonical).pts
    && OgRule(a.openGraph).pts <= OgRule(b.openGraph).pts && ViewportRule(a.viewport).pts <= ViewportRule(b.viewport).pts
    && LangRule(a.lang).pts <= LangRule(b.lang).pts && SchemaRule(a.structuredData).pts <= SchemaRule(b.structuredData).pts
    && ContentRule(a.content).pts <= ContentRule(b.content).pts && FaviconRule(a.favicon).pts <= FaviconRule(b.favicon).pts
    && H2Rule(a.headings).pts <= H2Rule(b.headings).pts && TwitterRule(a.twitterCard).pts <= TwitterRule(b.twitterCard).pts
    && LazyPts(a.images, a.performance) <= LazyPts(b.images, b.performance)
  }

  /** A page that earns at least as many points on every rule never scores less. */
  lemma ScoreMonotoneByRule(a: S.PageSignals, b: S.PageSignals)
    requires S.WellFormed(a) && S.WellFormed(b) && Dominates(a, b)
    ensures Score(Evaluate(a)) <= Score(Evaluate(b))
  {
    ScoreIsPointSum(a);
    ScoreIsPointSum(b);
    EvaluatePointSum(a);
    EvaluatePointSum(b);
  }

  /** More Open Graph flags never lower the score. */
  lemma ScoreMoreOpenGraph(seo: S.PageSignals, og: S.OpenGraph)
    requires S.WellFormed(seo) && S.OgCount(seo.openGraph) <= S.OgCount(og)
    ensures Score(Evaluate(seo)) <= Score(Evaluate(seo.(openGraph := og)))
  {
    OgMonotone(seo, seo.(openGraph := og));
    ScoreMonotoneByRule(seo, seo.(openGraph := og));
  }

  /** More words never lower the score. */
  lemma ScoreMoreWords(seo: S.PageSignals, wordCount: nat)
    requires S.WellFormed(seo) && seo.content.wordCount <= wordCount
    ensures Score(Evaluate(seo)) <= Score(Evaluate(seo.(content := S.Content(wordCount))))
  {
    ContentMonotone(seo, seo.(content := S.Content(wordCount)));
    ScoreMonotoneByRule(seo, seo.(content := S.Content(wordCount)));
  }

  /** More H2 headings never lower the score. */
  lemma ScoreMoreH2(seo: S.PageSignals, h2: nat)
    requires S.WellFormed(seo) && seo.headings.h2 <= h2
    ensures Score(Evaluate(seo)) <= Score(Evaluate(seo.(headings := seo.headings.(h2 := h2))))
  {
    H2Monotone(seo, seo.(headings := seo.headings.(h2 := h2)));
    ScoreMonotoneByRule(seo, seo.(headings := seo.headings.(h2 := h2)));
  }

  /** More structured-data blocks never lower the score. */
  lemma ScoreMoreSchema(seo: S.PageSignals, sd: S.StructuredData)
    requires S.WellFormed(seo) && seo.structuredData.count <= sd.count
    ensures Score(Evaluate(seo)) <= Score(Evaluate(seo.(structuredData := sd)))
  {
    SchemaMonotone(seo, seo.(structuredData := sd));
    ScoreMonotoneByRule(seo, seo.(structuredData := sd));
  }

  /** Adding a missing meta description, of any length, never lowers the score. */
  lemma ScoreAddDescription(seo: S.PageSignals, desc: S.MetaDescription)
    requires S.WellFormed(seo) && !seo.metaDescription.present && desc.present
    ensures Score(Evaluate(seo)) <= Score(Evaluate(seo.(metaDescription := desc)))
  {
    ScoreMonotoneByRule(seo, seo.(metaDescription := desc));
  }

  /** Serving the page over HTTPS never lowers the score. */
  lemma ScoreAddHttps(seo: S.PageSignals)
    requires S.WellFormed(seo)
    ensures Score(Evaluate(seo)) <= Score(Evaluate(seo.(https := S.Https(true))))
  {
    ScoreMonotoneByRule(seo, seo.(https := S.Https(true)));
  }

  /** Adding a canonical link never lowers the score. */
  lemma ScoreAddCanonical(seo: S.PageSignals, canonical: S.CanonicalLink)
    requires S.WellFormed(seo) && canonical.present
    ensures Score(Evaluate(seo)) <= Score(Evaluate(seo.(canonical := canonical)))
  {
    ScoreMonotoneByRule(seo, seo.(canonical := canonical));
  }

  /** Adding a viewport tag never lowers the score. */
  lemma ScoreAddViewport(seo: S.PageSignals, viewport: S.Viewport)
    requires S.WellFormed(seo) && viewport.present
    ensures Score(Evaluate(seo)) <= Score(Evaluate(seo.(viewport := viewport)))
  {
    ScoreMonotoneByRule(seo, seo.(viewport := viewport));
  }

  /** Declaring the page language never lowers the score. */
  lemma ScoreAddLang(seo: S.PageSignals, lang: S.Lang)
    requires S.WellFormed(seo) && lang.present
    ensures Score(Evaluate(seo)) <= Score(Evaluate(seo.(lang := lang)))
  {
    ScoreMonotoneByRule(seo, seo.(lang := lang));
  }

  /** Adding a favicon never lowers the score. */
  lemma ScoreAddFavicon(seo: S.PageSignals)
    requires S.WellFormed(seo)
    ensures Score(Evaluate(seo)) <= Score(Evaluate(seo.(favicon := S.Favicon(true))))
  {
    ScoreMonotoneByRule(seo, seo.(favicon := S.Favicon(true)));
  }

  /** Adding a Twitter card never lowers the score. */
  lemma ScoreAddTwitterCard(seo: S.PageSignals, card: S.TwitterCard)
    requires S.WellFormed(seo) && card.present
    ensures Score(Evaluate(seo)) <= Score(Evaluate(seo.(twitterCard := card)))
  {
    ScoreMonotoneByRule(seo, seo.(twitterCard := card));
  }

  /** Lazily loading images never lowers the score. */
  lemma ScoreAddLazyLoading(seo: S.PageSignals)
    requires S.WellFormed(seo)
    ensures Score(Evaluate(seo)) <= Score(Evaluate(seo.(performance := S.Performance(true))))
  {
    ScoreMonotoneByRule(seo, seo.(performance := S.Performance(true)));
  }

  /**
   * Giving alt text to more of the same images never lowers the score: only the
   * image rule reads the alt-text counts, and it is monotone.
   */
  lemma ScoreAltTextMonotone(seo: S.PageSignals, withAlt: nat, withoutAlt: nat)
    requires S.WellFormed(seo)
    requires withAlt + withoutAlt == seo.images.total && withoutAlt <= seo.images.withoutAlt
    ensures Score(Evaluate(seo)) <= Score(Evaluate(seo.(images := seo.images.(withAlt := withAlt, withoutAlt := withoutAlt))))
  {
    var better := seo.(images := seo.images.(withAlt := withAlt, withoutAlt := withoutAlt));
    ScoreIsPointSum(seo);
    ScoreIsPointSum(better);
    EvaluatePointSum(seo);
    EvaluatePointSum(better);
    ImgMonotone(better, seo);
    OthersUnchanged(seo, better);
  }

  /** Every rule but the image rule ignores the alt-text counts. */
  lemma OthersUnchanged(seo: S.PageSignals, better: S.PageSignals)
    requires better.images.total == seo.images.total
    requires better == seo.(images := better.images)
    ensures TitleRule(seo.title) == TitleRule(better.title) && DescRule(seo.metaDescription) == DescRule(better.metaDescription)
    ensures H1Rule(seo.headings) == H1Rule(better.headings) && HttpsRule(seo.https) == HttpsRule(better.https)
    ensures CanonicalRule(seo.canonical) == CanonicalRule(better.canonical) && OgRule(seo.openGraph) == OgRule(better.openGraph)
    ensures ViewportRule(seo.viewport) == ViewportRule(better.viewport) && LangRule(seo.lang) == LangRule(better.lang)
    ensures SchemaRule(seo.structuredData) == SchemaRule(better.structuredData) && ContentRule(seo.content) == ContentRule(better.content)
    ensures FaviconRule(seo.favicon) == FaviconRule(better.favicon) && H2Rule(seo.headings) == H2Rule(better.headings)
    ensures TwitterRule(seo.twitterCard) == TwitterRule(better.twitterCard) && LazyRule(seo.images, seo.performance) == LazyRule(better.images, better.performance)
  {
  }

  /** The earned points of a page, rule by rule. */
  lemma EvaluatePointSum(seo: S.PageSignals)
    ensures SumPts(Evaluate(seo))
         == TitleRule(seo.title).pts + DescRule(seo.metaDescription).pts + H1Rule(seo.headings).pts + HttpsRule(seo.https).pts + ImgRule(seo.images).pts
          + CanonicalRule(seo.canonical).pts + OgRule(seo.openGraph).pts + ViewportRule(seo.viewport).pts + LangRule(seo.lang).pts
          + SchemaRule(seo.structuredData).pts + ContentRule(seo.content).pts + FaviconRule(seo.favicon).pts + H2Rule(seo.headings).pts
          + TwitterRule(seo.twitterCard).pts + LazyPts(seo.images, seo.performance)
  {
    var r := Evaluate(seo);
    SumPtsOfFourteen(TitleRule(seo.title), DescRule(seo.metaDescription), H1Rule(seo.headings), HttpsRule(seo.https), ImgRule(seo.images),
        CanonicalRule(seo.canonical), OgRule(seo.openGraph), ViewportRule(seo.viewport), LangRule(seo.lang), SchemaRule(seo.structuredData),
        ContentRule(seo.content), FaviconRule(seo.favicon), H2Rule(seo.headings), TwitterRule(seo.twitterCard));
    if LazyEmitted(seo) {
      assert r[..14] + [r[14]] == r;
      SumPtsSnoc(r[..14], r[14]);
    }
  }

  lemma SumPtsOfFourteen(c1: Check, c2: Check, c3: Check, c4: Check, c5: Check, c6: Check, c7: Check,
                         c8: Check, c9: Check, c10: Check, c11: Check, c12: Check, c13: Check, c14: Check)
    ensures SumPts([c1, c2, c3, c4, c5, c6, c7, c8, c9, c10, c11, c12, c13, c14])
         == c1.pts + c2.pts + c3.pts + c4.pts + c5.pts + c6.pts + c7.pts
          + c8.pts + c9.pts + c10.pts + c11.pts + c12.pts + c13.pts + c14.pts
  {
    AppendSingletons(c1, c2, c3, c4, c5, c6, c7, c8, c9, c10, c11, c12, c13, c14);
    forall cs: seq<Check>, c: Check ensures SumPts(cs + [c]) == SumPts(cs) + c.pts {
      SumPtsSnoc(cs, c);
    }
  }

  // ----------------------------------------------------- the imperative engine

  /** Fourteen pushes onto an empty list build the list of the fourteen values. */
  lemma AppendSingletons(c1: Check, c2: Check, c3: Check, c4: Check, c5: Check, c6: Check, c7: Check,
                         c8: Check, c9: Check, c10: Check, c11: Check, c12: Check, c13: Check, c14: Check)
    ensures [] + [c1] + [c2] + [c3] + [c4] + [c5] + [c6] + [c7] + [c8] + [c9] + [c10] + [c11] + [c12] + [c13] + [c14]
         == [c1, c2, c3, c4, c5, c6, c7, c8, c9, c10, c11, c12, c13, c14]
  {
  }

  lemma {:induction false} SumPtsSnoc(checks: seq<Check>, c: Check)
    ensures SumPts(checks + [c]) == SumPts(checks) + c.pts
  {
    assert (checks + [c])[..|checks|] == checks;
  }

  /** The `add` step: push one check and keep the running total equal to its points. */
  method Add(checks: seq<Check>, total: int, c: Check) returns (checks': seq<Check>, total': int)
    requires total == SumPts(checks)
    ensures checks' == checks + [c]
    ensures total' == SumPts(checks')
  {
    SumPtsSnoc(checks, c);
    checks', total' := checks + [c], total + c.pts;
  }

  /**
   * `calculateScore`: runs the rules in order, adding each result to the check
   * list and the running total, and caps the total at 100.
   */
  method CalculateScore(seo: S.PageSignals) returns (score: int, checks: seq<Check>)
    ensures checks == Evaluate(seo)
    ensures score == Score(checks)
  {
    checks := [];
    var total := 0;
    checks, total := Add(checks, total, TitleRule(seo.title));
    checks, total := Add(checks, total, DescRule(seo.metaDescription));
    checks, total := Add(checks, total, H1Rule(seo.headings));
    checks, total := Add(checks, total, HttpsRule(seo.https));
    checks, total := Add(checks, total, ImgRule(seo.images));
    checks, total := Add(checks, total, CanonicalRule(seo.canonical));
    checks, total := Add(checks, total, OgRule(seo.openGraph));
    checks, total := Add(checks, total, ViewportRule(seo.viewport));
    checks, total := Add(checks, total, LangRule(seo.lang));
    checks, total := Add(checks, total, SchemaRule(seo.structuredData));
    checks, total := Add(checks, total, ContentRule(seo.content));
    checks, total := Add(checks, total, FaviconRule(seo.favicon));
    checks, total := Add(checks, total, H2Rule(seo.headings));
    checks, total := Add(checks, total, TwitterRule(seo.twitterCard));
    AppendSingletons(TitleRule(seo.title), DescRule(seo.metaDescription), H1Rule(seo.headings), HttpsRule(seo.https), ImgRule(seo.images),
                     CanonicalRule(seo.canonical), OgRule(seo.openGraph), ViewportRule(seo.viewport), LangRule(seo.lang), SchemaRule(seo.structuredData),
                     ContentRule(seo.content), FaviconRule(seo.favicon), H2Rule(seo.headings), TwitterRule(seo.twitterCard));
    var lazy := LazyRule(seo.images, seo.performance);
    if lazy.Some? {
      checks, total := Add(checks, total, lazy.value);
    }
    score := if total < 100 then total else 100;
  }
}
