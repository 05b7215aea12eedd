/**
 * The page helpers of the spider: counting the servers on a listing page,
 * deriving one record per server, and the follow-up requests for the next
 * page, the category pages and the tag pages, each in its priority band.
 */
module Helpers {
  import opened Wrappers
  import opened Http
  import opened Items
  import opened Text
  import opened Seqs

  /** What the selectors read from one `.server-info` element. */
  datatype ServerInfo = ServerInfo(
    platformLink: string,   // `.server-name a::attr(href)`
    nameText: string,       // `.server-name a::text`
    categoryText: string)   // `.server-category::text`

  /** What the selectors read from one `.server-body` element. */
  datatype ServerBody = ServerBody(
    descriptionTexts: seq<string>,  // `.server-description::text`, all of them
    tagDataIds: seq<string>,        // `.tag::attr(data-id)`
    tagTitles: seq<string>)         // `.tag::attr(title)`

  /** A fetched listing page, as the crawler's CSS selectors see it. */
  datatype Page = Page(
    url: string,
    request: Request,              // the request that fetched the page
    serverNameTexts: seq<string>,  // `.server-name a::text`
    serverInfos: seq<ServerInfo>,  // `.server-info`
    serverBodies: seq<ServerBody>, // `.server-body`
    date: Option<Timestamp>,       // the `Date` header; None when `strptime` raises ValueError
    nextHref: Option<string>,      // the first `.next a::attr(href)`
    categoryHrefs: seq<string>,    // `.category::attr(href)`
    tagHrefs: seq<string>,         // `.tag::attr(href)`
    tagTitles: seq<string>,        // `.tag::attr(title)`
    blocked: bool)                 // the page is Cloudflare's block page

  /** The spider attributes the request helpers read. */
  datatype LinkContext = LinkContext(prefix: string, baseUrl: string, languagePostfix: string)

  /** `count_disboard_server_items`: the number of server-name anchor texts. */
  function CountServerItems(page: Page): (n: nat)
    ensures n == |page.serverNameTexts|
    ensures n == 0 <==> page.serverNameTexts == []
  {
    |page.serverNameTexts|
  }

  /** `has_pagination_links`. */
  predicate HasPaginationLinks(page: Page): (b: bool)
    ensures b <==> page.nextHref.Some?
  {
    page.nextHref.Some?
  }

  // ---------------------------------------------------------------------
  // Records

  /** `platform_link.split("/")[-1]`: the text after the last "/". */
  function GuildId(link: string): (g: string)
    ensures |g| <= |link| && g == link[|link| - |g|..]
    ensures '/' !in g
    ensures |g| == |link| || link[|link| - |g| - 1] == '/'
  {
    if link == [] then []
    else if link[|link| - 1] == '/' then []
    else GuildId(link[..|link| - 1]) + [link[|link| - 1]]
  }

  /** The guild id of "<path>/<id>" is `id`, whatever the path. */
  lemma GuildIdOfLink(path: string, id: string)
    requires '/' !in id
    ensures GuildId(path + "/" + id) == id
  {
    var link := path + "/" + id;
    assert link[|link| - |id| - 1] == '/';
  }

  /** `[{key: value} for key, value in zip(data_ids, titles)]`. */
  function PairTags(ids: seq<string>, titles: seq<string>): (tags: seq<Tag>)
    ensures |tags| == Min(|ids|, |titles|)
    ensures forall i :: 0 <= i < |tags| ==> tags[i].dataId == ids[i] && tags[i].title == titles[i]
  {
    seq(Min(|ids|, |titles|), i requires 0 <= i < Min(|ids|, |titles|) => Tag(ids[i], titles[i]))
  }

  /** The record for one server card. */
  function MakeItem(time: Timestamp, info: ServerInfo, body: ServerBody): (item: ServerItem)
    ensures item.scrapeTime == time && item.platformLink == info.platformLink
    ensures item.guildId == GuildId(info.platformLink)
    ensures '/' !in item.guildId && |item.guildId| <= |info.platformLink|
    ensures |item.serverName| <= |info.nameText| && |item.category| <= |info.categoryText|
    ensures item.serverName == Strip(info.nameText) && item.category == Strip(info.categoryText)
    ensures item.serverDescription == Strip(Concat(body.descriptionTexts))
    ensures |item.tags| == Min(|body.tagDataIds|, |body.tagTitles|)
    ensures forall i :: 0 <= i < |item.tags| ==>
      item.tags[i].dataId == body.tagDataIds[i] && item.tags[i].title == body.tagTitles[i]
  {
    ServerItem(
      time,
      info.platformLink,
      GuildId(info.platformLink),
      Strip(info.nameText),
      Strip(Concat(body.descriptionTexts)),
      PairTags(body.tagDataIds, body.tagTitles),
      Strip(info.categoryText))
  }

  /**
   * `extract_disboard_server_items`: one record per (info, body) pair, in
   * page order, all stamped with the page's date; `None` when the date does
   * not parse, which raises ValueError before any record is produced.
   */
  function ExtractServerItems(page: Page): (r: Option<seq<ServerItem>>)
    ensures r.None? <==> page.date.None?
    ensures r.Some? ==>
      && |r.value| == Min(|page.serverInfos|, |page.serverBodies|)
      && forall i :: 0 <= i < |r.value| ==>
           var item := r.value[i];
           var info := page.serverInfos[i];
           var body := page.serverBodies[i];
           && item.scrapeTime == page.date.value
           && item.platformLink == info.platformLink
           && item.guildId == GuildId(info.platformLink)
           && item.serverName == Strip(info.nameText)
           && item.category == Strip(info.categoryText)
           && item.serverDescription == Strip(Concat(body.descriptionTexts))
           && item.tags == PairTags(body.tagDataIds, body.tagTitles)
  {
    match page.date
    case None => None
    case Some(time) =>
      var n := Min(|page.serverInfos|, |page.serverBodies|);
      Some(seq(n, i requires 0 <= i < n => MakeItem(time, page.serverInfos[i], page.serverBodies[i])))
  }

  // ---------------------------------------------------------------------
  // Follow-up requests

  /** Priority of the next-page request. */
  function NextPriority(n: int): int { n + 50 }
  /** Priority of a category request. */
  function CategoryPriority(n: int): int { n + 25 }
  /** Priority of a tag request. */
  function TagPriority(n: int): int { n + 1 }

  /**
   * `request_next_url`: one request for the next page when there is a next
   * link, none otherwise.
   */
  function RequestNextUrl(ctx: LinkContext, urljoin: (string, string) -> string, page: Page): (rs: seq<Request>)
    ensures |rs| == if HasPaginationLinks(page) then 1 else 0
    ensures forall r :: r in rs ==>
      r == NewRequest(ctx.prefix + urljoin(ctx.baseUrl, page.nextHref.value),
                      NextPriority(CountServerItems(page)))
  {
    match page.nextHref
    case None => []
    case Some(href) =>
      [NewRequest(ctx.prefix + urljoin(ctx.baseUrl, href), NextPriority(CountServerItems(page)))]
  }

  /** The URL of the page an in-site link points at, in the configured language. */
  function LinkUrl(ctx: LinkContext, href: string): string {
    ctx.prefix + ctx.baseUrl + href + ctx.languagePostfix
  }

  /** `request_all_category_urls`: one request per category link, in page order, duplicates kept. */
  function RequestAllCategoryUrls(ctx: LinkContext, page: Page): (rs: seq<Request>)
    ensures |rs| == |page.categoryHrefs|
    ensures forall i :: 0 <= i < |rs| ==>
      rs[i] == NewRequest(LinkUrl(ctx, page.categoryHrefs[i]), CategoryPriority(CountServerItems(page)))
  {
    LinkRequests(ctx, page.categoryHrefs, CategoryPriority(CountServerItems(page)))
  }

  /** Links with the same context are equal only for equal hrefs. */
  lemma LinkUrlInjective(ctx: LinkContext, a: string, b: string)
    requires LinkUrl(ctx, a) == LinkUrl(ctx, b)
    ensures a == b
  {
    var pre := ctx.prefix + ctx.baseUrl;
    assert |a| == |b|;
    assert a == LinkUrl(ctx, a)[|pre|..|pre| + |a|];
    assert b == LinkUrl(ctx, b)[|pre|..|pre| + |b|];
  }

  /** One request per href, all at priority `p`. */
  function LinkRequests(ctx: LinkContext, hrefs: seq<string>, p: int): (rs: seq<Request>)
    ensures |rs| == |hrefs|
    ensures forall i :: 0 <= i < |rs| ==> rs[i] == NewRequest(LinkUrl(ctx, hrefs[i]), p)
  {
    seq(|hrefs|, i requires 0 <= i < |hrefs| => NewRequest(LinkUrl(ctx, hrefs[i]), p))
  }

  /** Requests for distinct hrefs have distinct URLs, one for each href. */
  lemma LinkRequestsDistinct(ctx: LinkContext, hrefs: seq<string>, p: int)
    requires NoDuplicates(hrefs)
    ensures var rs := LinkRequests(ctx, hrefs, p);
      && (forall h :: h in hrefs <==> exists i :: 0 <= i < |rs| && rs[i].url == LinkUrl(ctx, h))
      && (forall i, j :: 0 <= i < j < |rs| ==> rs[i].url != rs[j].url)
  {
    var rs := LinkRequests(ctx, hrefs, p);
    forall i, j | 0 <= i < j < |rs| ensures rs[i].url != rs[j].url {
      if rs[i].url == rs[j].url {
        LinkUrlInjective(ctx, hrefs[i], hrefs[j]);
      }
    }
    forall h | h in hrefs ensures exists i :: 0 <= i < |rs| && rs[i].url == LinkUrl(ctx, h) {
      var i :| 0 <= i < |hrefs| && hrefs[i] == h;
      assert rs[i].url == LinkUrl(ctx, h);
    }
    forall h | exists i :: 0 <= i < |rs| && rs[i].url == LinkUrl(ctx, h) ensures h in hrefs {
      var i :| 0 <= i < |rs| && rs[i].url == LinkUrl(ctx, h);
      LinkUrlInjective(ctx, hrefs[i], h);
    }
  }

  /**
   * `request_all_tag_urls`: exactly one request per distinct tag link on
   * the page, each in the tag band.
   */
  function RequestAllTagUrls(ctx: LinkContext, page: Page): (rs: seq<Request>)
    ensures |rs| == |Elements(page.tagHrefs)|
    ensures forall i :: 0 <= i < |rs| ==>
      rs[i].priority == TagPriority(CountServerItems(page)) && rs[i] == NewRequest(rs[i].url, rs[i].priority)
    ensures forall i, j :: 0 <= i < j < |rs| ==> rs[i].url != rs[j].url
  {
    var hrefs := Distinct(page.tagHrefs);
    DistinctCount(page.tagHrefs);
    LinkRequestsDistinct(ctx, hrefs, TagPriority(CountServerItems(page)));
    LinkRequests(ctx, hrefs, TagPriority(CountServerItems(page)))
  }

  /** A tag link is on the page exactly when some tag request asks for its URL. */
  lemma TagRequestsCoverLinks(ctx: LinkContext, page: Page)
    ensures var rs := RequestAllTagUrls(ctx, page);
      forall h :: h in page.tagHrefs <==> exists i :: 0 <= i < |rs| && rs[i].url == LinkUrl(ctx, h)
  {
    LinkRequestsDistinct(ctx, Distinct(page.tagHrefs), TagPriority(CountServerItems(page)));
  }

  /**
   * The priority bands never overlap: on any page, the next-page request
   * outranks every category request, which outranks every tag request.
   */
  lemma PriorityBands(ctx: LinkContext, urljoin: (string, string) -> string, page: Page)
    ensures forall p, c :: p in RequestNextUrl(ctx, urljoin, page) && c in RequestAllCategoryUrls(ctx, page)
              ==> p.priority > c.priority
    ensures forall c, t :: c in RequestAllCategoryUrls(ctx, page) && t in RequestAllTagUrls(ctx, page)
              ==> c.priority > t.priority
  {
    var n := CountServerItems(page);
    forall c | c in RequestAllCategoryUrls(ctx, page) ensures c.priority == CategoryPriority(n) {
      var cs := RequestAllCategoryUrls(ctx, page);
      var i :| 0 <= i < |cs| && cs[i] == c;
    }
    forall t | t in RequestAllTagUrls(ctx, page) ensures t.priority == TagPriority(n) {
      var ts := RequestAllTagUrls(ctx, page);
      var i :| 0 <= i < |ts| && ts[i] == t;
    }
  }
}
