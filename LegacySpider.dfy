/**
 * The earlier crawler's `ServersSpider.parse`: the records of the page
 * first, then the follow-up requests, each kind switched on by its own
 * setting, all at the default priority.
 */
module LegacySpider {
  import opened Wrappers
  import opened Http
  import opened Seqs
  import opened Helpers
  import opened ServersSpider
  import LegacyHelpers
  import Constants

  /** The settings `parse` reads, by their truth value. */
  datatype LegacySettings = LegacySettings(
    useWebCache: bool,
    followPaginationLinks: bool,
    followTagLinks: bool,
    followCategoryLinks: bool,
    filterByLanguage: bool)

  /** The spider: its settings and the language postfix the helpers append. */
  datatype LegacyServersSpider = LegacyServersSpider(settings: LegacySettings, languagePostfix: string)

  /** `page_iterator_prefix`: the web cache's prefix when `USE_WEB_CACHE` is set. */
  function PageIteratorPrefix(settings: LegacySettings): (p: string)
    ensures p == Constants.WEBCACHE_URL || p == ""
    ensures p == Constants.WEBCACHE_URL <==> settings.useWebCache
  {
    if settings.useWebCache then Constants.WEBCACHE_URL else ""
  }

  /** What the helpers read from the spider; `base_url` is the prefix followed by Disboard's origin. */
  function Context(spider: LegacyServersSpider): (ctx: LinkContext)
    ensures LegacyHelpers.BaseUrl(ctx) == PageIteratorPrefix(spider.settings) + Constants.DISBOARD_URL
  {
    LinkContext(PageIteratorPrefix(spider.settings), Constants.DISBOARD_URL, spider.languagePostfix)
  }

  /** A page `parse` could not read: its `Date` header is missing or does not parse. */
  datatype ParseError = UnreadableDate

  /** `request_next_url`'s request, when pagination links are followed. */
  function NextRequests(spider: LegacyServersSpider, urljoin: (string, string) -> string, page: Page): (rs: seq<Request>)
    ensures |rs| == if spider.settings.followPaginationLinks && HasPaginationLinks(page) then 1 else 0
    ensures forall i :: 0 <= i < |rs| ==>
      rs[i] == NewRequest(Context(spider).prefix + urljoin(page.url, page.nextHref.value) + spider.languagePostfix,
                          LegacyHelpers.DefaultPriority)
  {
    if spider.settings.followPaginationLinks then LegacyHelpers.RequestNextUrl(Context(spider), urljoin, page) else []
  }

  /**
   * `request_all_tag_urls`'s requests, when tag links are followed: the i-th
   * asks for the page of the i-th distinct tag title.
   */
  function TagRequests(spider: LegacyServersSpider, page: Page): (rs: seq<Request>)
    ensures |rs| == if spider.settings.followTagLinks then |Distinct(page.tagTitles)| else 0
    ensures forall i :: 0 <= i < |rs| ==>
      && Distinct(page.tagTitles)[i] in page.tagTitles
      && rs[i] == NewRequest(LegacyHelpers.TagUrl(Context(spider), Distinct(page.tagTitles)[i]),
                             LegacyHelpers.DefaultPriority)
  {
    var titles := Distinct(page.tagTitles);
    assert forall i :: 0 <= i < |titles| ==> titles[i] in titles;
    if spider.settings.followTagLinks then LegacyHelpers.RequestAllTagUrls(Context(spider), page) else []
  }

  /** `request_all_category_urls`'s requests, when category links are followed. */
  function CategoryRequests(spider: LegacyServersSpider, page: Page): (rs: seq<Request>)
    ensures |rs| == if spider.settings.followCategoryLinks then |page.categoryHrefs| else 0
    ensures forall i :: 0 <= i < |rs| ==>
      rs[i] == NewRequest(LegacyHelpers.BaseUrl(Context(spider)) + page.categoryHrefs[i] + spider.languagePostfix,
                          LegacyHelpers.DefaultPriority)
  {
    if spider.settings.followCategoryLinks then LegacyHelpers.RequestAllCategoryUrls(Context(spider), page) else []
  }

  /** The requests `parse` yields after the records, in order, each kind under its flag. */
  function FollowUps(spider: LegacyServersSpider, urljoin: (string, string) -> string, page: Page,
                     languageRequests: seq<Request>): (rs: seq<Request>)
    ensures var s := spider.settings;
      |rs| == (if s.followPaginationLinks && HasPaginationLinks(page) then 1 else 0)
            + (if s.followTagLinks then |Elements(page.tagTitles)| else 0)
            + (if s.followCategoryLinks then |page.categoryHrefs| else 0)
            + (if s.filterByLanguage then |languageRequests| else 0)
  {
    DistinctCount(page.tagTitles);
    NextRequests(spider, urljoin, page)
    + TagRequests(spider, page)
    + CategoryRequests(spider, page)
    + (if spider.settings.filterByLanguage then languageRequests else [])
  }

  /**
   * The follow-up requests by position: the next page, then one request per
   * distinct tag title (in first-occurrence order), then one per category
   * link in page order, then the language-filter requests, each part only
   * under its own setting.
   */
  lemma FollowUpsOrder(spider: LegacyServersSpider, urljoin: (string, string) -> string, page: Page,
                       languageRequests: seq<Request>)
    ensures var rs := FollowUps(spider, urljoin, page, languageRequests);
            var k0 := |NextRequests(spider, urljoin, page)|;
            var k1 := k0 + |TagRequests(spider, page)|;
            var k2 := k1 + |CategoryRequests(spider, page)|;
      && k2 <= |rs|
      && rs[..k0] == NextRequests(spider, urljoin, page)
      && rs[k0..k1] == TagRequests(spider, page)
      && rs[k1..k2] == CategoryRequests(spider, page)
      && rs[k2..] == if spider.settings.filterByLanguage then languageRequests else []
  {
    var next, tags, cats := NextRequests(spider, urljoin, page), TagRequests(spider, page), CategoryRequests(spider, page);
    var lang := if spider.settings.filterByLanguage then languageRequests else [];
    assert FollowUps(spider, urljoin, page, languageRequests) == next + tags + cats + lang;
    FourSlices(next, tags, cats, lang);
  }

  /**
   * `ServersSpider.parse`. The records are extracted first; a page whose
   * `Date` header cannot be read raises before anything is yielded, whether
   * or not it lists servers. The language-filter requests are an input:
   * their helper is not part of this model.
   */
  function Parse(spider: LegacyServersSpider, urljoin: (string, string) -> string, page: Page,
                 languageRequests: seq<Request>): (r: Result<seq<Output>, ParseError>)
    ensures r.Err? <==> page.date.None?
    ensures r.Ok? ==>
      var items := ExtractServerItems(page).value;
      var rs := FollowUps(spider, urljoin, page, languageRequests);
      && |r.value| == |items| + |rs|
      && (forall i :: 0 <= i < |items| ==> r.value[i] == ItemOut(items[i]))
      && (forall i :: |items| <= i < |r.value| ==> r.value[i] == RequestOut(rs[i - |items|]))
  {
    match ExtractServerItems(page)
    case None => Err(UnreadableDate)
    case Some(items) =>
      var rs := FollowUps(spider, urljoin, page, languageRequests);
      var out := ItemOutputs(items) + RequestOutputs(rs);
      assert |out| == |items| + |rs|;
      Ok(out)
  }

  /** With every follow-up setting off, `parse` yields exactly the page's records. */
  lemma ParseOnlyItems(spider: LegacyServersSpider, urljoin: (string, string) -> string, page: Page,
                       languageRequests: seq<Request>)
    requires page.date.Some?
    requires var s := spider.settings;
      !s.followPaginationLinks && !s.followTagLinks && !s.followCategoryLinks && !s.filterByLanguage
    ensures Parse(spider, urljoin, page, languageRequests) == Ok(ItemOutputs(ExtractServerItems(page).value))
  {
    var items := ExtractServerItems(page).value;
    assert FollowUps(spider, urljoin, page, languageRequests) == [];
    assert ItemOutputs(items) + RequestOutputs([]) == ItemOutputs(items);
  }

  /**
   * Without the language filter, every request `parse` yields keeps
   * Scrapy's defaults: the default priority, and no exemption from the
   * duplicate filter.
   */
  lemma DefaultPriorityOnly(spider: LegacyServersSpider, urljoin: (string, string) -> string,
                            page: Page, languageRequests: seq<Request>)
    requires page.date.Some? && !spider.settings.filterByLanguage
    ensures forall o :: o in Parse(spider, urljoin, page, languageRequests).value && o.RequestOut? ==>
      o.request == NewRequest(o.request.url, LegacyHelpers.DefaultPriority)
  {
    var rs := FollowUps(spider, urljoin, page, languageRequests);
    FollowUpsDefault(spider, urljoin, page, languageRequests);
    var items := ExtractServerItems(page).value;
    var out := Parse(spider, urljoin, page, languageRequests).value;
    forall o | o in out && o.RequestOut? ensures o.request == NewRequest(o.request.url, LegacyHelpers.DefaultPriority) {
      var k :| 0 <= k < |out| && out[k] == o;
      assert |items| <= k;
      assert o.request == rs[k - |items|];
    }
  }

  /** Every follow-up request but the language-filter ones is a plain `Request(url=...)`. */
  lemma FollowUpsDefault(spider: LegacyServersSpider, urljoin: (string, string) -> string,
                         page: Page, languageRequests: seq<Request>)
    requires !spider.settings.filterByLanguage
    ensures forall r :: r in FollowUps(spider, urljoin, page, languageRequests) ==>
      r == NewRequest(r.url, LegacyHelpers.DefaultPriority)
  {
    var rs := FollowUps(spider, urljoin, page, languageRequests);
    var next := NextRequests(spider, urljoin, page);
    var tags := TagRequests(spider, page);
    var cats := CategoryRequests(spider, page);
    assert rs == next + tags + cats + [];
    forall r | r in rs ensures r == NewRequest(r.url, LegacyHelpers.DefaultPriority) {
      if r in next {
        var i :| 0 <= i < |next| && next[i] == r;
      } else if r in tags {
        var i :| 0 <= i < |tags| && tags[i] == r;
      } else {
        var i :| 0 <= i < |cats| && cats[i] == r;
      }
    }
  }
}
