/**
 * The page-signals record that the content script extracts from a page and
 * hands to the scoring engine. Only the groups and fields that the engine reads
 * are modelled; every count is a `nat`, as the extractor never produces a
 * negative count.
 */
module Signals {

  datatype TitleTag = TitleTag(text: string, length: nat)

  datatype MetaDescription = MetaDescription(text: string, length: nat, present: bool)

  /** `h1` holds the text of every H1 element; the other levels are counts. */
  datatype Headings = Headings(h1: seq<string>, h2: nat, h3: nat, h4: nat)

  datatype Images = Images(total: nat, withAlt: nat, withoutAlt: nat)

  datatype CanonicalLink = CanonicalLink(present: bool, url: string)

  /** One flag per Open Graph property the extractor looks for. */
  datatype OpenGraph = OpenGraph(title: bool, description: bool, image: bool, url: bool)

  datatype TwitterCard = TwitterCard(present: bool, cardType: string)

  datatype Viewport = Viewport(present: bool, content: string)

  datatype StructuredData = StructuredData(count: nat, types: seq<string>)

  datatype Content = Content(wordCount: nat)

  datatype Https = Https(secure: bool)

  datatype Lang = Lang(present: bool, value: string)

  datatype Favicon = Favicon(present: bool)

  datatype Performance = Performance(hasLazyImages: bool)

  datatype PageSignals = PageSignals(
    title: TitleTag,
    metaDescription: MetaDescription,
    headings: Headings,
    images: Images,
    canonical: CanonicalLink,
    openGraph: OpenGraph,
    twitterCard: TwitterCard,
    viewport: Viewport,
    structuredData: StructuredData,
    content: Content,
    https: Https,
    lang: Lang,
    favicon: Favicon,
    performance: Performance)

  /**
   * What the extractor guarantees by construction: every image is counted
   * either with or without alt text. The engine relies on it and does not
   * check it.
   */
  predicate WellFormed(seo: PageSignals)
  {
    seo.images.withAlt + seo.images.withoutAlt == seo.images.total
  }

  /** The number of Open Graph flags that are set. */
  function OgCount(og: OpenGraph): (n: nat)
    ensures n <= 4
    ensures n == 0 <==> !(og.title || og.description || og.image || og.url)
    ensures n == 4 <==> og.title && og.description && og.image && og.url
  {
    (if og.title then 1 else 0) + (if og.description then 1 else 0)
    + (if og.image then 1 else 0) + (if og.url then 1 else 0)
  }

  /** Setting more flags never lowers the count. */
  lemma OgCountMonotone(a: OpenGraph, b: OpenGraph)
    requires (a.title ==> b.title) && (a.description ==> b.description)
    requires (a.image ==> b.image) && (a.url ==> b.url)
    ensures OgCount(a) <= OgCount(b)
  {
  }
}
