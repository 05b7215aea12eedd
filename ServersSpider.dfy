/**
 * `ServersSpider.parse`: how one fetched listing page turns into records and
 * follow-up requests, gated by the item count and the settings flags.
 */
module ServersSpider {
  import opened Wrappers
  import opened Http
  import opened Items
  import opened Seqs
  import opened Helpers
  import Constants

  /** The settings the spider reads, as `settings.getbool` returns them. */
  datatype Settings = Settings(
    useWebCache: bool,
    followPaginationLinks: bool,
    followCategoryLinks: bool,
    followTagLinks: bool)

  /** The spider: its settings and the language postfix its links carry. */
  datatype Spider = Spider(settings: Settings, languagePostfix: string)

  /** `ServersSpider.url_prefix`. */
  function UrlPrefix(settings: Settings): (p: string)
    ensures p == Constants.WEBCACHE_URL || p == ""
    ensures p == Constants.WEBCACHE_URL <==> settings.useWebCache
  {
    if settings.useWebCache then Constants.WEBCACHE_URL else ""
  }

  /** What the link helpers read from the spider. */
  function Context(spider: Spider): LinkContext {
    LinkContext(UrlPrefix(spider.settings), Constants.DISBOARD_URL, spider.languagePostfix)
  }

  /** One value yielded by `parse`. */
  datatype Output = ItemOut(item: ServerItem) | RequestOut(request: Request)

  function RequestOutputs(rs: seq<Request>): (out: seq<Output>)
    ensures |out| == |rs|
    ensures forall i :: 0 <= i < |out| ==> out[i] == RequestOut(rs[i])
  {
    seq(|rs|, i requires 0 <= i < |rs| => RequestOut(rs[i]))
  }

  function ItemOutputs(items: seq<ServerItem>): (out: seq<Output>)
    ensures |out| == |items|
    ensures forall i :: 0 <= i < |out| ==> out[i] == ItemOut(items[i])
  {
    seq(|items|, i requires 0 <= i < |items| => ItemOut(items[i]))
  }

  /** The same request again, past the duplicate filter, ten priority points lower. */
  function BlockedRetry(page: Page): Request {
    page.request.(dontFilter := true, priority := page.request.priority - 10)
  }

  /** `_handle_0_server_items`: a blocked page is requested once more. */
  function Handle0ServerItems(page: Page): (out: seq<Output>)
    ensures |out| == if page.blocked then 1 else 0
    ensures forall o :: o in out ==>
      && o.RequestOut? && o.request.dontFilter
      && o.request.priority == page.request.priority - 10
      && o.request == page.request.(dontFilter := true, priority := o.request.priority)
  {
    if page.blocked then [RequestOut(BlockedRetry(page))] else []
  }

  /**
   * `_handle_pagination_links`: the next page is requested only from a page
   * with at least five servers, a next link, and pagination switched on.
   */
  function HandlePaginationLinks(spider: Spider, urljoin: (string, string) -> string, n: int, page: Page): (out: seq<Output>)
    requires n == CountServerItems(page)
    ensures |out| == if n >= 5 && HasPaginationLinks(page) && spider.settings.followPaginationLinks then 1 else 0
    ensures forall o :: o in out ==> o.RequestOut? && o.request.priority == n + 50 && !o.request.dontFilter
  {
    if n >= 5 && HasPaginationLinks(page) && spider.settings.followPaginationLinks then
      RequestOutputs(RequestNextUrl(Context(spider), urljoin, page))
    else []
  }

  /** `_handle_category_links`. */
  function HandleCategoryLinks(spider: Spider, page: Page): (out: seq<Output>)
    ensures |out| == if spider.settings.followCategoryLinks then |page.categoryHrefs| else 0
    ensures forall o :: o in out ==>
      o.RequestOut? && o.request.priority == CountServerItems(page) + 25 && !o.request.dontFilter
  {
    if spider.settings.followCategoryLinks then
      RequestOutputs(RequestAllCategoryUrls(Context(spider), page))
    else []
  }

  /** `_handle_tag_links`. */
  function HandleTagLinks(spider: Spider, page: Page): (out: seq<Output>)
    ensures |out| == if spider.settings.followTagLinks then |Elements(page.tagHrefs)| else 0
    ensures forall o :: o in out ==>
      o.RequestOut? && o.request.priority == CountServerItems(page) + 1 && !o.request.dontFilter
  {
    if spider.settings.followTagLinks then
      RequestOutputs(RequestAllTagUrls(Context(spider), page))
    else []
  }

  /** The part of `parse` that runs on a page without servers. */
  function RetrySegment(page: Page): seq<Output> {
    if CountServerItems(page) == 0 then Handle0ServerItems(page) else []
  }

  /** The records of a page that lists servers. */
  function ItemSegment(page: Page): seq<Output>
    requires !(CountServerItems(page) > 0 && page.date.None?)
  {
    if CountServerItems(page) > 0 then ItemOutputs(ExtractServerItems(page).value) else []
  }

  /** The next-page request of a page that lists servers. */
  function PaginationSegment(spider: Spider, urljoin: (string, string) -> string, page: Page): seq<Output> {
    var n := CountServerItems(page);
    if n > 0 then HandlePaginationLinks(spider, urljoin, n, page) else []
  }

  lemma RetrySegmentCounts(page: Page, p: int)
    ensures var out := RetrySegment(page);
      && CountItems(out) == 0
      && CountUnfiltered(out) == (if CountServerItems(page) == 0 && page.blocked then 1 else 0)
      && CountAtPriority(out, p)
           == if CountServerItems(page) == 0 && page.blocked && page.request.priority - 10 == p then 1 else 0
  {
    var out := RetrySegment(page);
    assert out != [] ==> out[..0] == [];
  }

  lemma ItemSegmentCounts(page: Page, p: int)
    requires !(CountServerItems(page) > 0 && page.date.None?)
    ensures var out := ItemSegment(page);
      && CountItems(out) == (if CountServerItems(page) > 0 then Min(|page.serverInfos|, |page.serverBodies|) else 0)
      && CountUnfiltered(out) == 0 && CountAtPriority(out, p) == 0
  {
    if CountServerItems(page) > 0 {
      CountsOfItems(ExtractServerItems(page).value);
    }
  }

  lemma PaginationSegmentCounts(spider: Spider, urljoin: (string, string) -> string, page: Page, p: int)
    ensures var out := PaginationSegment(spider, urljoin, page);
            var n := CountServerItems(page);
      && CountItems(out) == 0 && CountUnfiltered(out) == 0
      && CountAtPriority(out, p)
           == if p == n + 50 && n >= 5 && HasPaginationLinks(page) && spider.settings.followPaginationLinks
              then 1 else 0
  {
    var n := CountServerItems(page);
    if n > 0 {
      CountsOfBand(HandlePaginationLinks(spider, urljoin, n, page), n + 50);
    }
  }

  /**
   * `ServersSpider.parse`. The blocked-page retry comes first, then the
   * records and the next page (only from a page that lists servers), then
   * the category and the tag links. A ValueError (the `Date` header does not
   * parse) ends the output; it is raised before anything has been yielded.
   */
  function Parse(spider: Spider, urljoin: (string, string) -> string, page: Page): (out: seq<Output>)
    ensures CountServerItems(page) > 0 && page.date.None? ==> out == []
  {
    if CountServerItems(page) > 0 && page.date.None? then []
    else
      RetrySegment(page)
      + (ItemSegment(page) + PaginationSegment(spider, urljoin, page))
      + HandleCategoryLinks(spider, page)
      + HandleTagLinks(spider, page)
  }

  // ---------------------------------------------------------------------
  // What parse yields

  /** Number of records in an output. */
  function CountItems(out: seq<Output>): nat {
    if out == [] then 0 else CountItems(out[..|out| - 1]) + (if out[|out| - 1].ItemOut? then 1 else 0)
  }

  /** Number of requests that bypass the duplicate filter. */
  function CountUnfiltered(out: seq<Output>): nat {
    if out == [] then 0
    else CountUnfiltered(out[..|out| - 1])
         + (if out[|out| - 1].RequestOut? && out[|out| - 1].request.dontFilter then 1 else 0)
  }

  /** Number of requests at priority `p`. */
  function CountAtPriority(out: seq<Output>, p: int): nat {
    if out == [] then 0
    else CountAtPriority(out[..|out| - 1], p)
         + (if out[|out| - 1].RequestOut? && out[|out| - 1].request.priority == p then 1 else 0)
  }

  lemma {:induction false} CountsOfConcat(a: seq<Output>, b: seq<Output>, p: int)
    ensures CountItems(a + b) == CountItems(a) + CountItems(b)
    ensures CountUnfiltered(a + b) == CountUnfiltered(a) + CountUnfiltered(b)
    ensures CountAtPriority(a + b, p) == CountAtPriority(a, p) + CountAtPriority(b, p)
    decreases |b|
  {
    if b != [] {
      CountsOfConcat(a, b[..|b| - 1], p);
      assert (a + b)[..|a + b| - 1] == a + b[..|b| - 1];
    } else {
      assert a + b == a;
    }
  }

  /** An output whose every element is a filtered request at priority `q`. */
  lemma {:induction false} CountsOfBand(out: seq<Output>, q: int)
    requires forall o :: o in out ==> o.RequestOut? && o.request.priority == q && !o.request.dontFilter
    ensures CountItems(out) == 0 && CountUnfiltered(out) == 0
    ensures forall p :: CountAtPriority(out, p) == if p == q then |out| else 0
  {
    if out != [] {
      var init := out[..|out| - 1];
      assert forall o :: o in init ==> o in out;
      assert out[|out| - 1] in out;
      CountsOfBand(init, q);
    }
  }

  lemma {:induction false} CountsOfItems(items: seq<ServerItem>)
    ensures CountItems(ItemOutputs(items)) == |items|
    ensures CountUnfiltered(ItemOutputs(items)) == 0 && forall p :: CountAtPriority(ItemOutputs(items), p) == 0
  {
    if items != [] {
      CountsOfItems(items[..|items| - 1]);
      assert ItemOutputs(items)[..|items| - 1] == ItemOutputs(items[..|items| - 1]);
    }
  }

  /**
   * A page whose `Date` header does not parse while it lists servers yields
   * nothing: the ValueError is swallowed by `parse`.
   */
  lemma ParseValueError(spider: Spider, urljoin: (string, string) -> string, page: Page)
    requires CountServerItems(page) > 0 && page.date.None?
    ensures Parse(spider, urljoin, page) == []
  {
  }

  /**
   * What one page yields, counted: the records only from a page that lists
   * servers; exactly one unfiltered re-request, only from an empty blocked
   * page; and, at each priority `p`, the next page (band n+50) only past
   * five servers with a next link and the flag on, one request per category
   * link (band n+25) and one per distinct tag link (band n+1), whatever the
   * count, each under its own flag; nothing else but the re-request.
   */
  lemma {:induction false} ParseCounts(spider: Spider, urljoin: (string, string) -> string, page: Page, p: int)
    requires !(CountServerItems(page) > 0 && page.date.None?)
    ensures var out := Parse(spider, urljoin, page);
            var n := CountServerItems(page);
            var s := spider.settings;
      && CountItems(out) == (if n > 0 then Min(|page.serverInfos|, |page.serverBodies|) else 0)
      && CountUnfiltered(out) == (if n == 0 && page.blocked then 1 else 0)
      && CountAtPriority(out, p)
           == (if p == n + 50 && n >= 5 && HasPaginationLinks(page) && s.followPaginationLinks then 1 else 0)
           + (if p == n + 25 && s.followCategoryLinks then |page.categoryHrefs| else 0)
           + (if p == n + 1 && s.followTagLinks then |Elements(page.tagHrefs)| else 0)
           + (if n == 0 && page.blocked && page.request.priority - 10 == p then 1 else 0)
  {
    var n := CountServerItems(page);
    var a := RetrySegment(page);
    var items := ItemSegment(page);
    var pg := PaginationSegment(spider, urljoin, page);
    var c := HandleCategoryLinks(spider, page);
    var t := HandleTagLinks(spider, page);
    RetrySegmentCounts(page, p);
    ItemSegmentCounts(page, p);
    PaginationSegmentCounts(spider, urljoin, page, p);
    CountsOfBand(c, n + 25);
    CountsOfBand(t, n + 1);
    CountsOfConcat(items, pg, p);
    CountsOfConcat(a, items + pg, p);
    CountsOfConcat(a + (items + pg), c, p);
    CountsOfConcat(a + (items + pg) + c, t, p);
    var out := Parse(spider, urljoin, page);
    assert out == a + (items + pg) + c + t;
    assert CountAtPriority(out, p)
      == CountAtPriority(a, p) + CountAtPriority(items, p) + CountAtPriority(pg, p)
       + CountAtPriority(c, p) + CountAtPriority(t, p);
  }

  /**
   * The blocked-page retry, when there is one, is the first thing yielded
   * and asks for the very same request.
   */
  lemma BlockedRetryFirst(spider: Spider, urljoin: (string, string) -> string, page: Page)
    requires CountServerItems(page) == 0 && page.blocked
    ensures var out := Parse(spider, urljoin, page);
      |out| > 0 && out[0] == RequestOut(page.request.(dontFilter := true, priority := page.request.priority - 10))
  {
  }

  /** The second segment of four, after an empty first one, is a prefix. */
  lemma LeadingSegment(b: seq<Output>, pg: seq<Output>, c: seq<Output>, t: seq<Output>)
    ensures var out := [] + (b + pg) + c + t;
      |out| >= |b| && forall i :: 0 <= i < |b| ==> out[i] == b[i]
  {
  }

  /** Records come right after the (absent) retry, in page order, before any request. */
  lemma ItemsFirst(spider: Spider, urljoin: (string, string) -> string, page: Page)
    requires CountServerItems(page) > 0 && page.date.Some?
    ensures var out := Parse(spider, urljoin, page);
            var items := ExtractServerItems(page).value;
      |out| >= |items| && forall i :: 0 <= i < |items| ==> out[i] == ItemOut(items[i])
  {
    var b := ItemSegment(page);
    var pg := PaginationSegment(spider, urljoin, page);
    var c := HandleCategoryLinks(spider, page);
    var t := HandleTagLinks(spider, page);
    assert RetrySegment(page) == [];
    assert Parse(spider, urljoin, page) == [] + (b + pg) + c + t;
    LeadingSegment(b, pg, c, t);
  }

  /** Where the follow-up requests begin: after the retry and the records. */
  function RequestsStart(page: Page): nat {
    var n := CountServerItems(page);
    (if n == 0 && page.blocked then 1 else 0) + (if n > 0 then Min(|page.serverInfos|, |page.serverBodies|) else 0)
  }

  /** Where the category requests begin: after the next-page request, if any. */
  function CategoriesStart(spider: Spider, page: Page): nat {
    var n := CountServerItems(page);
    RequestsStart(page) + (if n >= 5 && HasPaginationLinks(page) && spider.settings.followPaginationLinks then 1 else 0)
  }

  /** Where the tag requests begin: after the category requests. */
  function TagsStart(spider: Spider, page: Page): nat {
    CategoriesStart(spider, page) + (if spider.settings.followCategoryLinks then |page.categoryHrefs| else 0)
  }

  /**
   * The order of what `parse` yields once the records are out: the
   * next-page request (if any), then the category requests, then the tag
   * requests, each segment at its offset and nothing after the tags.
   */
  lemma ParseSegments(spider: Spider, urljoin: (string, string) -> string, page: Page)
    requires !(CountServerItems(page) > 0 && page.date.None?)
    ensures var out := Parse(spider, urljoin, page);
      && RequestsStart(page) <= CategoriesStart(spider, page) <= TagsStart(spider, page) <= |out|
      && out[RequestsStart(page)..CategoriesStart(spider, page)] == PaginationSegment(spider, urljoin, page)
      && out[CategoriesStart(spider, page)..TagsStart(spider, page)] == HandleCategoryLinks(spider, page)
      && out[TagsStart(spider, page)..] == HandleTagLinks(spider, page)
  {
    var a := RetrySegment(page);
    var b := ItemSegment(page);
    var pg := PaginationSegment(spider, urljoin, page);
    var c := HandleCategoryLinks(spider, page);
    var t := HandleTagLinks(spider, page);
    SegmentsAt(Parse(spider, urljoin, page), a, b, pg, c, t);
    LeadingSegmentLengths(page);
    PaginationSegmentAt(spider, urljoin, page);
    assert RequestsStart(page) == |a| + |b|;
    assert CategoriesStart(spider, page) == |a| + |b| + |pg|;
    assert TagsStart(spider, page) == |a| + |b| + |pg| + |c|;
  }

  /** Where the next-page, category and tag segments sit in what `parse` yields. */
  lemma SegmentsAt(out: seq<Output>, a: seq<Output>, b: seq<Output>, pg: seq<Output>, c: seq<Output>, t: seq<Output>)
    requires out == a + (b + pg) + c + t
    ensures |out| == |a| + |b| + |pg| + |c| + |t|
    ensures out[|a| + |b|..|a| + |b| + |pg|] == pg
    ensures out[|a| + |b| + |pg|..|a| + |b| + |pg| + |c|] == c
    ensures out[|a| + |b| + |pg| + |c|..] == t
  {
    FourParts(a, b + pg, c, t);
    assert out[|a| + |b|..|a| + |b| + |pg|] == pg;
    assert out[|a| + |b| + |pg|..|a| + |b| + |pg| + |c|] == c;
    assert out[|a| + |b| + |pg| + |c|..] == t;
  }

  /** How many outputs the retry and the records contribute. */
  lemma LeadingSegmentLengths(page: Page)
    requires !(CountServerItems(page) > 0 && page.date.None?)
    ensures |RetrySegment(page)| == if CountServerItems(page) == 0 && page.blocked then 1 else 0
    ensures |ItemSegment(page)| == if CountServerItems(page) > 0 then Min(|page.serverInfos|, |page.serverBodies|) else 0
  {
  }

  /** Every request of the pagination segment is the next-page request. */
  lemma PaginationSegmentAt(spider: Spider, urljoin: (string, string) -> string, page: Page)
    ensures var pg := PaginationSegment(spider, urljoin, page);
            var n := CountServerItems(page);
      && |pg| == (if n >= 5 && HasPaginationLinks(page) && spider.settings.followPaginationLinks then 1 else 0)
      && forall i :: 0 <= i < |pg| ==>
           pg[i] == RequestOut(NewRequest(Context(spider).prefix + urljoin(Context(spider).baseUrl, page.nextHref.value),
                                          NextPriority(n)))
  {
    var pg := PaginationSegment(spider, urljoin, page);
    if pg != [] {
      var next := RequestNextUrl(Context(spider), urljoin, page);
      assert pg == RequestOutputs(next);
      assert next[0] in next;
    }
  }

  /** The category segment holds the category links' requests in page order. */
  lemma CategorySegmentAt(spider: Spider, page: Page)
    ensures var c := HandleCategoryLinks(spider, page);
      && |c| == (if spider.settings.followCategoryLinks then |page.categoryHrefs| else 0)
      && forall i :: 0 <= i < |c| ==>
        c[i] == RequestOut(NewRequest(LinkUrl(Context(spider), page.categoryHrefs[i]), CategoryPriority(CountServerItems(page))))
  {
  }

  /** The tag segment holds one request per distinct tag link, in first-occurrence order. */
  lemma TagSegmentAt(spider: Spider, page: Page)
    ensures var t := HandleTagLinks(spider, page);
            var hrefs := Distinct(page.tagHrefs);
      && |t| == (if spider.settings.followTagLinks then |hrefs| else 0)
      && (forall i :: 0 <= i < |hrefs| ==> hrefs[i] in page.tagHrefs)
      && forall i :: 0 <= i < |t| ==>
           t[i] == RequestOut(NewRequest(LinkUrl(Context(spider), hrefs[i]), TagPriority(CountServerItems(page))))
  {
    var hrefs := Distinct(page.tagHrefs);
    assert forall i :: 0 <= i < |hrefs| ==> hrefs[i] in hrefs;
  }
}
