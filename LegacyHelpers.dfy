/**
 * The request helpers of the earlier crawler, which requested every
 * follow-up page at Scrapy's default priority. Its record extraction is the
 * same code as the rewritten crawler's and is `Helpers.ExtractServerItems`.
 *
 * The helpers read `page_iterator_prefix`, `base_url` (the prefix followed by
 * Disboard's origin) and `language_postfix` from the spider; a
 * `Helpers.LinkContext` carries the three, with `base_url` split into the
 * prefix and the origin.
 */
module LegacyHelpers {
  import opened Wrappers
  import opened Http
  import opened Seqs
  import opened Helpers
  import Constants

  /** Scrapy's default request priority, which every request here keeps. */
  const DefaultPriority: int := 0

  /** The spider's `base_url`. */
  function BaseUrl(ctx: LinkContext): string {
    ctx.prefix + ctx.baseUrl
  }

  /**
   * `request_next_url`: the next link resolved against the page's own URL,
   * between the prefix and the language postfix; none without a next link.
   */
  function RequestNextUrl(ctx: LinkContext, urljoin: (string, string) -> string, page: Page): (rs: seq<Request>)
    ensures |rs| == if HasPaginationLinks(page) then 1 else 0
    ensures forall r :: r in rs ==>
      r == NewRequest(ctx.prefix + urljoin(page.url, page.nextHref.value) + ctx.languagePostfix, DefaultPriority)
  {
    match page.nextHref
    case None => []
    case Some(href) => [NewRequest(ctx.prefix + urljoin(page.url, href) + ctx.languagePostfix, DefaultPriority)]
  }

  /** The tag pages hang under `<base_url>/servers/tag/`, named by the tag's title. */
  function TagContext(ctx: LinkContext): LinkContext {
    LinkContext(ctx.prefix, ctx.baseUrl + "/servers/tag/", ctx.languagePostfix)
  }

  /** The URL of the tag page for `title`. */
  function TagUrl(ctx: LinkContext, title: string): (u: string)
    ensures u == BaseUrl(ctx) + "/servers/tag/" + title + ctx.languagePostfix
  {
    LinkUrl(TagContext(ctx), title)
  }

  /**
   * `request_all_tag_urls`: exactly one request per distinct tag title on
   * the page, all at the default priority.
   */
  function RequestAllTagUrls(ctx: LinkContext, page: Page): (rs: seq<Request>)
    ensures |rs| == |Elements(page.tagTitles)|
    ensures forall i :: 0 <= i < |rs| ==> rs[i] == NewRequest(rs[i].url, DefaultPriority)
    ensures forall i, j :: 0 <= i < j < |rs| ==> rs[i].url != rs[j].url
  {
    var titles := Distinct(page.tagTitles);
    DistinctCount(page.tagTitles);
    LinkRequestsDistinct(TagContext(ctx), titles, DefaultPriority);
    LinkRequests(TagContext(ctx), titles, DefaultPriority)
  }

  /** A tag title is on the page exactly when some tag request asks for its tag page. */
  lemma TagRequestsCoverTitles(ctx: LinkContext, page: Page)
    ensures var rs := RequestAllTagUrls(ctx, page);
      forall t :: t in page.tagTitles <==> exists i :: 0 <= i < |rs| && rs[i].url == TagUrl(ctx, t)
  {
    var titles := Distinct(page.tagTitles);
    var rs := RequestAllTagUrls(ctx, page);
    assert rs == LinkRequests(TagContext(ctx), titles, DefaultPriority);
    LinkRequestsDistinct(TagContext(ctx), titles, DefaultPriority);
    assert forall t :: t in page.tagTitles <==> t in titles;
    assert forall t :: TagUrl(ctx, t) == LinkUrl(TagContext(ctx), t);
  }

  /** Every tag request asks for the page of some tag title on the page. */
  lemma TagRequestsNameTitles(ctx: LinkContext, page: Page)
    ensures var rs := RequestAllTagUrls(ctx, page);
      forall i :: 0 <= i < |rs| ==> exists t :: t in page.tagTitles && rs[i].url == TagUrl(ctx, t)
  {
    var titles := Distinct(page.tagTitles);
    var rs := RequestAllTagUrls(ctx, page);
    assert rs == LinkRequests(TagContext(ctx), titles, DefaultPriority);
    forall i | 0 <= i < |rs| ensures exists t :: t in page.tagTitles && rs[i].url == TagUrl(ctx, t) {
      assert titles[i] in titles;
      assert rs[i].url == TagUrl(ctx, titles[i]);
    }
  }

  // ---------------------------------------------------------------------
  // Category links

  /**
   * `request_all_category_urls` as written: each category link is resolved
   * against the page's URL, which already yields an absolute URL, and then
   * prefixed with `base_url` once more.
   */
  function RequestAllCategoryUrlsAsWritten(ctx: LinkContext, urljoin: (string, string) -> string, page: Page): (rs: seq<Request>)
    ensures |rs| == |page.categoryHrefs|
    ensures forall i :: 0 <= i < |rs| ==>
      rs[i] == NewRequest(BaseUrl(ctx) + urljoin(page.url, page.categoryHrefs[i]) + ctx.languagePostfix, DefaultPriority)
  {
    seq(|page.categoryHrefs|, i requires 0 <= i < |page.categoryHrefs| =>
      NewRequest(BaseUrl(ctx) + urljoin(page.url, page.categoryHrefs[i]) + ctx.languagePostfix, DefaultPriority))
  }

  /**
   * On a Disboard page, `urljoin` turns a root-relative category link into
   * Disboard's origin followed by the link; the request as written then
   * names the origin twice and is not the category page at all.
   */
  lemma CategoryUrlDoublesOrigin(ctx: LinkContext, urljoin: (string, string) -> string, page: Page, i: int)
    requires 0 <= i < |page.categoryHrefs|
    requires urljoin(page.url, page.categoryHrefs[i]) == Constants.DISBOARD_URL + page.categoryHrefs[i]
    ensures var url := RequestAllCategoryUrlsAsWritten(ctx, urljoin, page)[i].url;
      && url == BaseUrl(ctx) + Constants.DISBOARD_URL + page.categoryHrefs[i] + ctx.languagePostfix
      && url != RequestAllCategoryUrls(ctx, page)[i].url
  {
    var href := page.categoryHrefs[i];
    var url := RequestAllCategoryUrlsAsWritten(ctx, urljoin, page)[i].url;
    assert url == BaseUrl(ctx) + (Constants.DISBOARD_URL + href) + ctx.languagePostfix;
    assert |url| == |RequestAllCategoryUrls(ctx, page)[i].url| + |Constants.DISBOARD_URL|;
  }

  /** The listing's "Gaming" category link, on the first listing page. */
  lemma CategoryUrlDoublesOriginExample(ctx: LinkContext)
    requires ctx.prefix == "" && ctx.baseUrl == Constants.DISBOARD_URL && ctx.languagePostfix == ""
    ensures var page := Page(Constants.DISBOARD_URL + "/servers", NewRequest(Constants.DISBOARD_URL + "/servers", 0),
                             [], [], [], None, None, ["/servers/category/gaming"], [], [], false);
            var urljoin := (base: string, href: string) => Constants.DISBOARD_URL + href;
      RequestAllCategoryUrlsAsWritten(ctx, urljoin, page)[0].url
        == Constants.DISBOARD_URL + Constants.DISBOARD_URL + "/servers/category/gaming"
  {
    var page := Page(Constants.DISBOARD_URL + "/servers", NewRequest(Constants.DISBOARD_URL + "/servers", 0),
                     [], [], [], None, None, ["/servers/category/gaming"], [], [], false);
    var urljoin := (base: string, href: string) => Constants.DISBOARD_URL + href;
    CategoryUrlDoublesOrigin(ctx, urljoin, page, 0);
  }

  /**
   * `request_all_category_urls` as evidently intended, and as the rewritten
   * crawler does it: `base_url` followed by the root-relative link, one
   * request per category link, in page order, duplicates kept.
   */
  function RequestAllCategoryUrls(ctx: LinkContext, page: Page): (rs: seq<Request>)
    ensures |rs| == |page.categoryHrefs|
    ensures forall i :: 0 <= i < |rs| ==>
      rs[i] == NewRequest(BaseUrl(ctx) + page.categoryHrefs[i] + ctx.languagePostfix, DefaultPriority)
  {
    LinkRequests(ctx, page.categoryHrefs, DefaultPriority)
  }

  /**
   * The corrected category requests ask for the same pages as the rewritten
   * crawler's, differing only in priority, and distinct links ask for
   * distinct pages.
   */
  lemma CategoryUrlsAsRewritten(ctx: LinkContext, page: Page)
    ensures var legacy := RequestAllCategoryUrls(ctx, page);
            var current := Helpers.RequestAllCategoryUrls(ctx, page);
      && |legacy| == |current|
      && forall i :: 0 <= i < |legacy| ==>
           legacy[i] == current[i].(priority := DefaultPriority)
    ensures forall i, j :: 0 <= i < j < |page.categoryHrefs| && page.categoryHrefs[i] != page.categoryHrefs[j] ==>
      RequestAllCategoryUrls(ctx, page)[i].url != RequestAllCategoryUrls(ctx, page)[j].url
  {
    var legacy := RequestAllCategoryUrls(ctx, page);
    forall i, j | 0 <= i < j < |page.categoryHrefs| && page.categoryHrefs[i] != page.categoryHrefs[j]
      ensures legacy[i].url != legacy[j].url
    {
      if legacy[i].url == legacy[j].url {
        LinkUrlInjective(ctx, page.categoryHrefs[i], page.categoryHrefs[j]);
      }
    }
  }
}
