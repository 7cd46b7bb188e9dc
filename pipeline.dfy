/**
 * The popup's analysis pipeline: score the page, derive the tips from its
 * checks and classify the score. The lemmas here state what the three stages
 * promise together, in terms of the extracted page signals.
 */
module Pipeline {
  import opened Wrappers
  import opened Rules
  import opened Tips
  import opened Verdicts
  import S = Signals

  /** `renderResults`, without the drawing: the score, the checks, the tips and the verdict. */
  method Analyze(seo: S.PageSignals) returns (score: int, checks: seq<Check>, tips: seq<Tip>, verdict: Verdict)
    ensures checks == Evaluate(seo) && score == Score(checks)
    ensures tips == TipsFor(seo, checks) && |tips| >= 1
    ensures verdict == GetVerdict(score)
  {
    score, checks := CalculateScore(seo);
    tips := GenerateTips(seo, checks);
    verdict := GetVerdict(score);
  }

  // ------------------------------------------------------ indexing the checks

  /**
   * In checks that follow the evaluation order, the lookup finds the check at
   * the rule's position, and nothing when the list stops before it.
   */
  lemma {:induction false} LookupInOrder(checks: seq<Check>, id: RuleId)
    requires |checks| <= |RuleOrder|
    requires forall i :: 0 <= i < |checks| ==> checks[i].id == RuleOrder[i]
    ensures var k := RuleIndex(id);
      Lookup(checks, id) == if k < |checks| then Some(checks[k]) else None
  {
    if checks != [] {
      var last, k := |checks| - 1, RuleIndex(id);
      var init := checks[..last];
      assert forall i :: 0 <= i < |init| ==> init[i].id == RuleOrder[i];
      LookupInOrder(init, id);
      if checks[last].id == id {
        RuleIndexAt(last);
        assert Lookup(checks, id) == Some(checks[last]);
      } else {
        assert Lookup(checks, id) == Lookup(init, id);
        if k < last {
          assert init[k] == checks[k];
        }
      }
    }
  }

  /**
   * Fourteen checks in rule order, then at most the lazy one: the lookup of
   * each rule id finds the check at that rule's position.
   */
  lemma {:induction false} LookupsByPosition(r: seq<Check>)
    requires 14 <= |r| <= 15
    requires r[0].id == Title && r[1].id == Desc && r[2].id == H1 && r[3].id == Https && r[4].id == Img
    requires r[5].id == Canonical && r[6].id == Og && r[7].id == Viewport && r[8].id == Lang && r[9].id == Schema
    requires r[10].id == Content && r[11].id == Favicon && r[12].id == H2 && r[13].id == Twitter
    requires |r| == 15 ==> r[14].id == Lazy
    ensures Lookup(r, Title) == Some(r[0])
    ensures Lookup(r, Desc) == Some(r[1])
    ensures Lookup(r, H1) == Some(r[2])
    ensures Lookup(r, Https) == Some(r[3])
    ensures Lookup(r, Img) == Some(r[4])
    ensures Lookup(r, Canonical) == Some(r[5])
    ensures Lookup(r, Og) == Some(r[6])
    ensures Lookup(r, Viewport) == Some(r[7])
    ensures Lookup(r, Lang) == Some(r[8])
    ensures Lookup(r, Schema) == Some(r[9])
    ensures Lookup(r, Content) == Some(r[10])
    ensures Lookup(r, Favicon) == Some(r[11])
    ensures Lookup(r, H2) == Some(r[12])
    ensures Lookup(r, Twitter) == Some(r[13])
    ensures Lookup(r, Lazy) == if |r| == 15 then Some(r[14]) else None
  {
    InRuleOrder(r);
    LookupInOrder(r, Title);
    LookupInOrder(r, Desc);
    LookupInOrder(r, H1);
    LookupInOrder(r, Https);
    LookupInOrder(r, Img);
    LookupInOrder(r, Canonical);
    LookupInOrder(r, Og);
    LookupInOrder(r, Viewport);
    LookupInOrder(r, Lang);
    LookupInOrder(r, Schema);
    LookupInOrder(r, Content);
    LookupInOrder(r, Favicon);
    LookupInOrder(r, H2);
    LookupInOrder(r, Twitter);
    LookupInOrder(r, Lazy);
  }

  /** The check the tip generator finds for each rule id is that rule's check. */
  lemma EvaluateLookups(seo: S.PageSignals)
    ensures var r := Evaluate(seo);
      && Lookup(r, Title) == Some(TitleRule(seo.title))
      && Lookup(r, Desc) == Some(DescRule(seo.metaDescription))
      && Lookup(r, H1) == Some(H1Rule(seo.headings))
      && Lookup(r, Https) == Some(HttpsRule(seo.https))
      && Lookup(r, Img) == Some(ImgRule(seo.images))
      && Lookup(r, Canonical) == Some(CanonicalRule(seo.canonical))
      && Lookup(r, Og) == Some(OgRule(seo.openGraph))
      && Lookup(r, Viewport) == Some(ViewportRule(seo.viewport))
      && Lookup(r, Lang) == Some(LangRule(seo.lang))
      && Lookup(r, Schema) == Some(SchemaRule(seo.structuredData))
      && Lookup(r, Content) == Some(ContentRule(seo.content))
      && Lookup(r, Favicon) == Some(FaviconRule(seo.favicon))
      && Lookup(r, H2) == Some(H2Rule(seo.headings))
      && Lookup(r, Twitter) == Some(TwitterRule(seo.twitterCard))
      && Lookup(r, Lazy) == LazyRule(seo.images, seo.performance)
  {
    EvaluateElements(seo);
    LookupsByPosition(Evaluate(seo));
  }

  // ------------------------------------------------- tips in terms of signals

  /** The critical tips, stated on the page signals the checks came from. */
  lemma CritTipsOnSignals(seo: S.PageSignals, checks: seq<Check>)
    requires Lookup(checks, Https) == Some(HttpsRule(seo.https))
    requires Lookup(checks, Title) == Some(TitleRule(seo.title))
    requires Lookup(checks, Desc) == Some(DescRule(seo.metaDescription))
    requires Lookup(checks, H1) == Some(H1Rule(seo.headings))
    ensures var tips := TipsFor(seo, checks);
      && (Tip(Crit, EnableHttps, 95) in tips <==> !seo.https.secure)
      && (Tip(Crit, AddTitle, 95) in tips <==> seo.title.text == "")
      && (Tip(Crit, WriteDescription, 85) in tips <==> !seo.metaDescription.present)
      && (Tip(Crit, AddH1, 80) in tips <==> |seo.headings.h1| == 0)
  {
    CritTipsIff(seo, checks);
    HttpsRuleCatalogue(seo);
    TitleRuleCatalogue(seo);
    DescRuleCatalogue(seo);
    H1RuleCatalogue(seo);
  }

  /** The high tips on the signals: the image tip needs images some of which lack alt text. */
  lemma HighTipsOnSignals(seo: S.PageSignals, checks: seq<Check>)
    requires Lookup(checks, Viewport) == Some(ViewportRule(seo.viewport))
    requires Lookup(checks, Canonical) == Some(CanonicalRule(seo.canonical))
    requires Lookup(checks, Og) == Some(OgRule(seo.openGraph))
    requires Lookup(checks, Img) == Some(ImgRule(seo.images))
    ensures var tips := TipsFor(seo, checks);
      && (Tip(High, AddViewport, 75) in tips <==> !seo.viewport.present)
      && (Tip(High, CanonicalUrls, 70) in tips <==> !seo.canonical.present)
      && (Tip(High, CompleteOpenGraph, 65) in tips <==> S.OgCount(seo.openGraph) < 3)
      && (Tip(High, FixAltTexts(seo.images.withoutAlt), 65) in tips
          <==> seo.images.total > 0 && seo.images.withoutAlt > 0)
  {
    HighTipsIff(seo, checks);
    ViewportRuleCatalogue(seo);
    CanonicalRuleCatalogue(seo);
    OgRuleCatalogue(seo);
    ImgRuleCatalogue(seo);
  }

  /** The medium tips on the signals. */
  lemma MedTipsOnSignals(seo: S.PageSignals, checks: seq<Check>)
    requires Lookup(checks, Schema) == Some(SchemaRule(seo.structuredData))
    requires Lookup(checks, Twitter) == Some(TwitterRule(seo.twitterCard))
    requires Lookup(checks, Content) == Some(ContentRule(seo.content))
    ensures var tips := TipsFor(seo, checks);
      && (Tip(Med, AddStructuredData, 60) in tips <==> seo.structuredData.count == 0)
      && (Tip(Med, AddTwitterCard, 35) in tips <==> !seo.twitterCard.present)
      && (Tip(Med, ExpandContent(seo.content.wordCount), 55) in tips <==> seo.content.wordCount < 300)
  {
    MedTipsIff(seo, checks);
    SchemaRuleCatalogue(seo);
    TwitterRuleCatalogue(seo);
    ContentRuleCatalogue(seo);
  }

  /** The low tips on the signals: lazy loading is advised only for more than three images. */
  lemma LowTipsOnSignals(seo: S.PageSignals, checks: seq<Check>)
    requires Lookup(checks, H2) == Some(H2Rule(seo.headings))
    requires Lookup(checks, Lang) == Some(LangRule(seo.lang))
    requires Lookup(checks, Lazy) == LazyRule(seo.images, seo.performance)
    ensures var tips := TipsFor(seo, checks);
      && (Tip(Low, ImproveHeadings, 40) in tips <==> seo.headings.h2 < 2)
      && (Tip(Low, DeclareLanguage, 45) in tips <==> !seo.lang.present)
      && (Tip(Low, AddLazyLoading, 40) in tips <==> seo.images.total > 3 && !seo.performance.hasLazyImages)
  {
    LowTipsIff(seo, checks);
    H2RuleCatalogue(seo);
    LangRuleCatalogue(seo);
    LazyRuleCatalogue(seo);
  }

  /** Every tip of an analysed page, stated on its signals. */
  lemma PageTips(seo: S.PageSignals)
    ensures var tips := TipsFor(seo, Evaluate(seo));
      && (Tip(Crit, EnableHttps, 95) in tips <==> !seo.https.secure)
      && (Tip(Crit, AddTitle, 95) in tips <==> seo.title.text == "")
      && (Tip(Crit, WriteDescription, 85) in tips <==> !seo.metaDescription.present)
      && (Tip(Crit, AddH1, 80) in tips <==> |seo.headings.h1| == 0)
      && (Tip(High, AddViewport, 75) in tips <==> !seo.viewport.present)
      && (Tip(High, CanonicalUrls, 70) in tips <==> !seo.canonical.present)
      && (Tip(High, CompleteOpenGraph, 65) in tips <==> S.OgCount(seo.openGraph) < 3)
      && (Tip(High, FixAltTexts(seo.images.withoutAlt), 65) in tips
          <==> seo.images.total > 0 && seo.images.withoutAlt > 0)
      && (Tip(Med, AddStructuredData, 60) in tips <==> seo.structuredData.count == 0)
      && (Tip(Med, AddTwitterCard, 35) in tips <==> !seo.twitterCard.present)
      && (Tip(Med, ExpandContent(seo.content.wordCount), 55) in tips <==> seo.content.wordCount < 300)
      && (Tip(Low, ImproveHeadings, 40) in tips <==> seo.headings.h2 < 2)
      && (Tip(Low, DeclareLanguage, 45) in tips <==> !seo.lang.present)
      && (Tip(Low, AddLazyLoading, 40) in tips <==> seo.images.total > 3 && !seo.performance.hasLazyImages)
  {
    EvaluateLookups(seo);
    CritTipsOnSignals(seo, Evaluate(seo));
    HighTipsOnSignals(seo, Evaluate(seo));
    MedTipsOnSignals(seo, Evaluate(seo));
    LowTipsOnSignals(seo, Evaluate(seo));
  }

  // ------------------------------------------------------------- whole pages

  /**
   * A page that earns every point and lacks no alt text scores 100, is rated
   * excellent and gets only the congratulatory tip.
   */
  lemma SpotlessPage(seo: S.PageSignals)
    requires S.WellFormed(seo)
    requires FullMarks(seo) && seo.images.withoutAlt == 0
    ensures Score(Evaluate(seo)) == 100
    ensures GetVerdict(Score(Evaluate(seo))) == Excellent
    ensures TipsFor(seo, Evaluate(seo)) == [Congratulations]
  {
    ScoreHundredIff(seo);
    EvaluateLookups(seo);
    HttpsRuleCatalogue(seo);
    TitleRuleCatalogue(seo);
    DescRuleCatalogue(seo);
    H1RuleCatalogue(seo);
    ViewportRuleCatalogue(seo);
    CanonicalRuleCatalogue(seo);
    OgRuleCatalogue(seo);
    ImgRuleCatalogue(seo);
    SchemaRuleCatalogue(seo);
    TwitterRuleCatalogue(seo);
    ContentRuleCatalogue(seo);
    H2RuleCatalogue(seo);
    LangRuleCatalogue(seo);
    LazyRuleCatalogue(seo);
    QuietChecks(seo, Evaluate(seo));
  }

  /**
   * Rounding lets a page with a few images lacking alt text still score 100,
   * and the alt-text tip is then given all the same.
   */
  lemma FullScoreStillAdvised(seo: S.PageSignals)
    requires S.WellFormed(seo)
    requires FullMarks(seo) && seo.images.withoutAlt > 0
    ensures Score(Evaluate(seo)) == 100
    ensures Tip(High, FixAltTexts(seo.images.withoutAlt), 65) in TipsFor(seo, Evaluate(seo))
    ensures Congratulations !in TipsFor(seo, Evaluate(seo))
  {
    ScoreHundredIff(seo);
    PageTips(seo);
    FallbackIff(seo, Evaluate(seo));
  }

  /**
   * A page served over plain HTTP with no title, no description and no H1
   * gets those four critical tips first, and scores at most 53.
   */
  lemma BrokenEssentials(seo: S.PageSignals)
    requires S.WellFormed(seo)
    requires !seo.https.secure && seo.title.text == "" && !seo.metaDescription.present && |seo.headings.h1| == 0
    ensures var tips := TipsFor(seo, Evaluate(seo));
      && |tips| >= 4
      && tips[..4] == [Tip(Crit, EnableHttps, 95), Tip(Crit, AddTitle, 95),
                       Tip(Crit, WriteDescription, 85), Tip(Crit, AddH1, 80)]
      && forall i :: 4 <= i < |tips| ==> tips[i].priority != Crit
    ensures Score(Evaluate(seo)) <= 53
  {
    EvaluateLookups(seo);
    HttpsRuleCatalogue(seo);
    TitleRuleCatalogue(seo);
    DescRuleCatalogue(seo);
    H1RuleCatalogue(seo);
    FailingEssentials(seo, Evaluate(seo));
    ScoreIsPointSum(seo);
    EvaluatePointSum(seo);
  }
}
