# Disboard crawl coordination, modelled in Dafny

This project models the crawl-coordination logic of the Disboard scraper, a
Scrapy project that crawls Disboard's server listings through the
FlareSolverr proxy and stores one row per Discord server in Postgres. It
covers five parts:

- **`Middlewares`**: the FlareSolverr proxy retry state machine and the
  middleware that turns an error title into an HTTP status.
  - `FlareSolverrProxyMiddleware.process_request` rewrites a request into a
    POST to the proxy.
  - `process_response` passes the answer through, retries, ignores, or
    unwraps the proxy's solution.
  - The retry budget is proved over any sequence of proxy answers.
- **`Helpers` and `ServersSpider`**: the listing-page helpers of the current
  crawler and its `parse`.
  - Records are derived from the page: the guild id and the tag pairing.
  - Follow-up requests fall in fixed priority bands: next page n+50,
    categories n+25, tags n+1, where n is the number of servers on the page.
  - Tag links are de-duplicated; category links are not.
  - `parse` gates each part on the server count and on the settings flags.
- **`Pipelines`**: `PostgresPipeline.process_item`. It is a class whose table
  is a map from guild id to row, and each item is an upsert that keeps the
  stored platform link.
- **`Entrypoint`**: the container's start URLs, and
  `restart_or_continue_job`. The restart is a method on a Redis store,
  modelled as a map from key to list. It deletes three keys and pushes the
  start URLs one by one.
- **`LegacyHelpers` and `LegacySpider`**: the earlier crawler under
  `scrapy/`. Every follow-up request there has the default priority, and
  `parse` gates each kind of request on its own setting.

Supporting modules:

- `Wrappers`: Option and Result.
- `Text`: Python's `str.strip`, `str(int)` and the `in` test on strings.
- `Seqs`: `list(set(xs))`, with elements listed in order of first
  occurrence.
- `Http`: Scrapy's `Request` and `Response`, with the meta keys as named
  fields.
- `Items`: the scraped record.
- `Constants`: Disboard's origin, the web-cache prefix, `RETRY_TIMES` and
  `RETRY_HTTP_CODES`.

Some inputs are taken as they come, not computed:

- The CSS selector results of a page are fields of `Helpers.Page`.
- The page title and whether the proxy's body decodes as JSON are inputs.
- `urljoin` is a function parameter that the model does not interpret.
- The `Date` header is an opaque timestamp. When it is missing or does not
  parse, the page carries no timestamp.

Points where the model follows the code closely:

- **Blocked-page retry**: the re-request lowers the request's priority by 10
  (disboard/spiders/servers.py lines 90-92).
- **Category links**: they are not de-duplicated, unlike tag links
  (disboard/commons/helpers.py lines 110-113).
- **Language postfix**: each link carries the single postfix the spider
  supplies. The repository's own tests (tests/test_helpers.py lines 29-31
  and 55-76) expect every link expanded over two postfixes; they target a
  newer helpers API with `get_url_postfixes`, which is not part of this
  model.
- **`dont_filter` in the proxy middleware**: the middleware sets the
  `dont_filter` meta key, not the `Request` attribute. The model keeps the
  two as separate fields.

## Model

| member | source | states |
|---|---|---|
| Middlewares.ProcessRequest | disboard/middlewares.py:70-99 | no rewrite exactly when the request was already sent to the proxy; otherwise a POST to `proxy_url` whose body names the original URL and `request.get`, whose meta holds the original request, `dont_filter`, `dont_redirect`, `handle_httpstatus_all` and the proxy flag, and whose download slot is `proxy_url`; priority and the request's own `dont_filter` are kept |
| Middlewares.ProcessRequestOnce | disboard/middlewares.py:76-78 | a request already rewritten for the proxy is never rewritten again |
| Middlewares.Retried | disboard/middlewares.py:122-136 | the retried request is the original with one more retry counted, ten priority points less, `dont_filter` set, the proxy flag cleared, and every other meta key and field kept |
| Middlewares.ProcessResponseAsWritten | disboard/middlewares.py:101-178 | the code as written: passthrough exactly for requests not sent to the proxy; retry exactly for a retry code within the budget; `IgnoreRequest` for any answer, a 200 included, once the budget is spent |
| Middlewares.ProcessResponse | disboard/middlewares.py:101-178 | the corrected reading: passthrough exactly for requests not sent to the proxy; a missing original request raises; retry exactly for a retry code within the budget; ignored exactly when not retried and the status is not 200 or the body is not JSON; a 200 JSON answer without a solution, when not retried, raises (AttributeError); solved exactly when not retried and a 200 JSON answer carries a solution, giving the solution's URL and page with the proxy's status, answering the original request |
| Middlewares.AsWrittenDiffersOnlyAfterLastRetry | disboard/middlewares.py:146-155 | the two readings differ only on a 200 answer to a request whose retries are used up, which the code as written ignores |
| Middlewares.LastAttemptSuccessIgnoredAsWritten | disboard/middlewares.py:146-155 | with two retries configured, a successful third attempt is ignored as written and solved in the corrected reading |
| Middlewares.Unwrapped | disboard/middlewares.py:169-177 | the new response has the solution's URL and page, the proxy's status and headers, and answers the original request |
| Middlewares.SolvedRoundTrip | disboard/middlewares.py:169-178 | a request sent through the proxy and answered 200 with a solution comes back as the solution's page, with the proxy's headers and status 200, as the response to the spider's own request |
| Middlewares.RetryRoundTrip | disboard/middlewares.py:122-141 | a retry code within the budget gives back the spider's request (same URL, method and body, other meta keys kept), one retry further and ten points lower, which the proxy rewrite accepts again |
| Middlewares.RetryBudget | disboard/middlewares.py:123-141 | whatever the proxy answers, a request is retried at most `retry_times` times; the i-th retry has the same URL, retry count original+i+1, and priority original−10(i+1) |
| Middlewares.RetryBudgetExhausted | disboard/middlewares.py:125-141 | when every answer carries a retry code, the number of retries is exactly the smaller of the number of answers and the remaining budget |
| Middlewares.FirstCodeInTitle | disboard/middlewares.py:42-45 | the index of the first retry code whose decimal form occurs in the title; no earlier code occurs there |
| Middlewares.SolutionStatus | disboard/middlewares.py:35-47 | only the status can change; with no code in the title the response is unchanged; with some code present the new status is a retry code that occurs in the title |
| Middlewares.GetSolutionStatus | disboard/middlewares.py:35-47 | the loop with early return computes exactly `SolutionStatus` |
| Middlewares.ConfiguredCodesThreeDigits | disboard/settings.py:99-101 | every configured retry code is written with three digits |
| Middlewares.TitleWithRetryCode | tests/test_middlewares.py:11-25 | a page titled "<code> Error", for any configured code, gets that code as its status, whatever order the set of codes is iterated in |
| Middlewares.TitleWithoutDigits | tests/test_middlewares.py:27-37 | a title without digits leaves the response unchanged, for any codes, negative ones included |
| Middlewares.NoDigitNoCode | disboard/middlewares.py:42-45 | no code's decimal text, whatever its sign, occurs in a title without digits |
| Helpers.CountServerItems | disboard/commons/helpers.py:8-17 | the number of server-name texts on the page, 0 exactly when there are none |
| Helpers.HasPaginationLinks | disboard/commons/helpers.py:20-27 | true exactly when the page has a next link |
| Helpers.MakeItem | disboard/commons/helpers.py:56-77 | one record: the page's time, the platform link, the guild id that follows its last "/" (no "/" in it, no longer than the link), the stripped name, description and category, and as many tags as the shorter of data-ids and titles, paired by position |
| Helpers.GuildId | disboard/commons/helpers.py:57 | the guild id is a suffix of the platform link, holds no "/", and is the whole link or follows its last "/" |
| Helpers.GuildIdOfLink | disboard/commons/helpers.py:57 | the guild id of "<path>/<id>" is `id`, for any path |
| Helpers.PairTags | disboard/commons/helpers.py:64-66 | as many tags as the shorter of the two lists, the i-th pairing the i-th data-id with the i-th title |
| Helpers.ExtractServerItems | disboard/commons/helpers.py:34-77 | fails (None) exactly when the date does not parse; otherwise one record per (info, body) pair, in page order, with the page's time, the link, its guild id, the stripped name, description and category, and the paired tags; the earlier crawler's extraction, scrapy/disboard/commons/helpers.py lines 7-46, is the same code |
| Helpers.RequestNextUrl | disboard/commons/helpers.py:80-94 | one request exactly when there is a next link, to prefix + urljoin(base_url, href), at priority n+50 |
| Helpers.RequestAllCategoryUrls | disboard/commons/helpers.py:97-113 | one request per category link, in page order with duplicates, to prefix + base_url + href + postfix, at priority n+25 |
| Helpers.RequestAllTagUrls | disboard/commons/helpers.py:116-131 | as many requests as distinct tag links; no two requests share a URL; all at priority n+1 |
| Helpers.TagRequestsCoverLinks | disboard/commons/helpers.py:116-131 | a tag link is on the page exactly when some tag request asks for its URL |
| Helpers.LinkUrlInjective | disboard/commons/helpers.py:109-131 | two links give the same page URL only when they are the same link |
| Helpers.PriorityBands | disboard/commons/helpers.py:90-131 | on any page the next-page request outranks every category request, which outranks every tag request |
| ServersSpider.UrlPrefix | disboard/spiders/servers.py:38-43 | the prefix is the web cache's exactly when `USE_WEB_CACHE` is on, and empty otherwise |
| ServersSpider.Handle0ServerItems | disboard/spiders/servers.py:79-99 | a blocked page gives exactly one request: the same request, with `dont_filter` set and ten priority points less; an unblocked page gives none |
| ServersSpider.HandlePaginationLinks | disboard/spiders/servers.py:101-117 | a next-page request only with at least five servers, a next link and the flag on; priority n+50 |
| ServersSpider.HandleCategoryLinks | disboard/spiders/servers.py:119-127 | one request per category link when the flag is on, none otherwise; priority n+25 |
| ServersSpider.HandleTagLinks | disboard/spiders/servers.py:129-137 | one request per distinct tag link when the flag is on, none otherwise; priority n+1 |
| ServersSpider.Parse | disboard/spiders/servers.py:53-77 | a listing page whose date does not parse yields nothing: the ValueError is raised before the first record and swallowed |
| ServersSpider.ParseSegments | disboard/spiders/servers.py:66-74 | once the retry and the records are out, `parse` yields the next-page request (if any), then the category requests, then the tag requests, each as a whole segment at its offset, and nothing after the tags |
| ServersSpider.PaginationSegmentAt | disboard/spiders/servers.py:71 | the pagination segment has one request exactly with at least five servers, a next link and the flag on, for prefix + urljoin(base_url, href) at priority n+50 |
| ServersSpider.CategorySegmentAt | disboard/spiders/servers.py:73 | the category segment holds, when the flag is on, one request per category link in page order, each for that link's page at priority n+25 |
| ServersSpider.TagSegmentAt | disboard/spiders/servers.py:74 | the tag segment holds, when the flag is on, one request per distinct tag link, each for a link of the page at priority n+1; the segment lists them in first-occurrence order, an order the model chooses and the source's set does not promise |
| ServersSpider.ParseCounts | disboard/spiders/servers.py:53-77 | at each priority, what `parse` yields, counted: records only with servers on the page; one unfiltered re-request only from an empty blocked page; next page, category and tag requests in their bands, each under its own condition, whatever n is for categories and tags |
| ServersSpider.ParseValueError | disboard/spiders/servers.py:62-77 | a listing page whose date does not parse yields nothing, and the ValueError is swallowed |
| ServersSpider.BlockedRetryFirst | disboard/spiders/servers.py:66-93 | from an empty blocked page the re-request comes first |
| ServersSpider.ItemsFirst | disboard/spiders/servers.py:66-71 | from a listing page the records come first, in page order |
| Pipelines.Upsert | disboard/pipelines.py:34-54 | the table gains at most the item's guild id; a new guild id stores the whole record; a stored one takes the new time, name, description, tags and category and keeps its platform link; every other row is unchanged |
| Pipelines.UpsertKeyed | disboard/pipelines.py:35-38 | every row stays stored under its own guild id |
| Pipelines.UpsertIdempotent | disboard/pipelines.py:34-54 | writing the same record twice leaves the table as writing it once |
| Pipelines.UpsertLatestWins | disboard/pipelines.py:39-44 | two records of the same new guild give one row with the latest fields and the first platform link |
| Pipelines.PostgresPipeline.constructor | disboard/pipelines.py:18-19 | the pipeline keeps its database URL, over a table keyed by guild id |
| Pipelines.PostgresPipeline.ProcessItem | disboard/pipelines.py:34-55 | the table becomes the upsert of the item, stays keyed by guild id, leaves other rows alone, and the item is returned unchanged |
| Entrypoint.GetStartUrls | entrypoint.py:16-37 | KeyError for a missing LANGUAGE, then for a missing USE_WEBCACHE; otherwise exactly three URLs: /servers, then filtered by language, then also sorted by member count, all starting with the prefix (the web cache's only for exactly "True"), the origin and /servers |
| Entrypoint.PushAllEffect | entrypoint.py:58-59 | pushing values one by one onto a list's head leaves them in reverse order ahead of the old list, and touches no other key |
| Entrypoint.RedisStore.Delete | entrypoint.py:55-57 | the key is gone and nothing else changes |
| Entrypoint.RedisStore.LPush | entrypoint.py:59 | the value is put at the head of the key's list |
| Entrypoint.StartUrlsKeyKept | entrypoint.py:55-59 | the start-URL key is none of the three keys deleted |
| Entrypoint.RestartClearsAndSeeds | entrypoint.py:54-59 | after a restart the dupefilter, requests and guild-id keys are gone, and the start-URL list is the start URLs, the last first, ahead of what was there |
| Entrypoint.RestartKeepsOthers | entrypoint.py:54-60 | a restart neither creates nor removes any other key, and leaves the value of every other key as it was |
| Entrypoint.Restart | entrypoint.py:53-62 | the deletes and the push loop leave the store exactly as `Restarted` says |
| Entrypoint.RestartOrContinueJob | entrypoint.py:40-62 | KeyError for a missing RESTART_JOB; no change for exactly "False"; otherwise success exactly when REDIS_URL, SPIDER_NAME and the start URLs' variables are set, a failure changes nothing, and success leaves the restarted store |
| LegacyHelpers.RequestNextUrl | scrapy/disboard/commons/helpers.py:49-59 | one request exactly when there is a next link, to page_iterator_prefix + urljoin(page URL, href) + postfix, at the default priority |
| LegacyHelpers.TagUrl | scrapy/disboard/commons/helpers.py:72 | a tag's page is base_url + "/servers/tag/" + title + postfix |
| LegacyHelpers.RequestAllTagUrls | scrapy/disboard/commons/helpers.py:62-73 | as many requests as distinct tag titles; no two requests share a URL; all at the default priority |
| LegacyHelpers.TagRequestsCoverTitles | scrapy/disboard/commons/helpers.py:62-73 | a tag title is on the page exactly when some tag request asks for its tag page |
| LegacyHelpers.TagRequestsNameTitles | scrapy/disboard/commons/helpers.py:62-73 | every tag request asks for the tag page of some title on the page |
| LegacyHelpers.RequestAllCategoryUrlsAsWritten | scrapy/disboard/commons/helpers.py:76-88 | the code as written: one request per category link, in page order, to base_url + urljoin(page URL, href) + postfix |
| LegacyHelpers.CategoryUrlDoublesOrigin | scrapy/disboard/commons/helpers.py:85-88 | when urljoin resolves a root-relative link against a Disboard page, the URL as written holds the origin twice and differs from the intended one |
| LegacyHelpers.CategoryUrlDoublesOriginExample | scrapy/disboard/commons/helpers.py:85-88 | "/servers/category/gaming" on the listing page becomes a request for the origin written twice followed by the path |
| LegacyHelpers.RequestAllCategoryUrls | scrapy/disboard/commons/helpers.py:76-88 | corrected: one request per category link, in page order with duplicates, to base_url + href + postfix, at the default priority |
| LegacyHelpers.CategoryUrlsAsRewritten | scrapy/disboard/commons/helpers.py:76-88 | the corrected requests ask for the same pages as the current crawler's category requests, differing only in priority; different links give different URLs |
| LegacySpider.PageIteratorPrefix | scrapy/disboard/spiders/servers.py:28-33 | the web cache's prefix exactly when `USE_WEB_CACHE` is set, and empty otherwise |
| LegacySpider.Context | scrapy/disboard/spiders/servers.py:35-37 | base_url is page_iterator_prefix followed by Disboard's origin |
| LegacySpider.NextRequests | scrapy/disboard/spiders/servers.py:46-47 | with the flag on and a next link, one request for prefix + urljoin(page URL, href) + postfix at the default priority; none otherwise |
| LegacySpider.TagRequests | scrapy/disboard/spiders/servers.py:49-50 | with the flag on, one request per distinct tag title, each for the tag page of a title of the page, at the default priority; none otherwise; the i-th is for the i-th distinct title in first-occurrence order, an order the model chooses and the source's set does not promise |
| LegacySpider.CategoryRequests | scrapy/disboard/spiders/servers.py:52-53 | corrected: with the flag on, the i-th request asks for base_url + the i-th category link + postfix at the default priority; none otherwise |
| LegacySpider.FollowUps | scrapy/disboard/spiders/servers.py:46-56 | the pagination, tag, category and language-filter requests, each present exactly when its flag is set, counted |
| LegacySpider.FollowUpsOrder | scrapy/disboard/spiders/servers.py:46-56 | the follow-up requests are, in this order and as whole segments, the next-page request, the tag requests, the category requests and the language-filter requests; the order within the tag requests is the model's first-occurrence choice |
| LegacySpider.Parse | scrapy/disboard/spiders/servers.py:39-56 | fails exactly when the date cannot be read, whatever the page lists; otherwise the records first, in page order, then the follow-up requests in order |
| LegacySpider.ParseOnlyItems | scrapy/disboard/spiders/servers.py:44-56 | with every flag off, the output is exactly the records |
| LegacySpider.FollowUpsDefault | scrapy/disboard/spiders/servers.py:46-53 | every pagination, tag and category request is a plain request at the default priority |
| LegacySpider.DefaultPriorityOnly | scrapy/disboard/spiders/servers.py:44-53 | without the language filter, every request `parse` yields has the default priority and no duplicate-filter exemption |

## Left out

- The Redis-backed scheduler, its priority queue and its duplicate filter live in `scrapy_redis`. They are not part of this model. `dont_filter` and the priority are output fields only.
- CSS selection, HTML parsing, JSON decoding and HTTP fetching are not modelled. Selector results, the page title and whether a body is JSON are inputs.
- The timestamp from `strptime(...).timestamp()` is a float. It is opaque here and shared by every record of a page. A missing `Date` header (KeyError) and one that does not parse (ValueError) are the same input: a page without a timestamp.
- `urljoin` is an uninterpreted function parameter. Only the category finding assumes what it returns for a root-relative link.
- Python does not fix the iteration order of a set; for strings it depends on the hash seed. The model lists `list(set(...))` in first-occurrence order. That order is the model's choice: `ServersSpider.TagSegmentAt`, `LegacySpider.TagRequests` and `LegacySpider.FollowUpsOrder` state the tag requests in it, and the source does not promise it. The order-free statements are `Helpers.RequestAllTagUrls`, `Helpers.TagRequestsCoverLinks`, `LegacyHelpers.RequestAllTagUrls`, `LegacyHelpers.TagRequestsCoverTitles` and `LegacyHelpers.TagRequestsNameTitles`: how many requests, distinct URLs, and which links they cover.
- The status middleware's loop over the retry codes takes them in a given sequence; `Middlewares.TitleWithRetryCode` and `Middlewares.TitleWithoutDigits` hold for any order of it.
- `blocked_by_cloudflare` and `is_server_listing` are not part of this model. Whether a page is blocked is an input, and the `is_server_listing` check only logs.
- `request_all_filter_by_language` is not part of this model. Its requests are an input of `LegacySpider.Parse`.
- Logging is left out: `_log_disboard_server_items` and every logger call.
- `settings.getbool` raising ValueError on an unrecognised value is left out. The flags are booleans.
- A page whose title, server name or category selector finds nothing makes `.strip()` or `in` raise. This is not modelled: these values are always strings here.
- The current helpers read `page_iterator_prefix` and `language_postfix`, which the current spider does not define (it has `url_prefix` and `language`). The earlier helpers read `language_postfix`, which the earlier spider does not define. Both are taken as given through `Helpers.LinkContext`. `ServersSpider.Context` puts the spider's `url_prefix` where the helpers read `page_iterator_prefix`. As the source stands, the first helper that builds a URL raises AttributeError. The `except ValueError` of `parse` (disboard/spiders/servers.py line 76) does not catch it, so `parse` stops there, after the records or the blocked-page re-request. The model does not capture that early stop.
- Connecting to Postgres and Redis (`open_spider`, `close_spider`, `redis.Redis.from_url`, `client.close`) is I/O and is left out. The Redis pipeline is modelled as its commands applied in order.
- `Entrypoint.RestartOrContinueJob`: the store is changed by the pushes one at a time, not in one `execute`. The final state is the same.
- `Middlewares.ProcessResponseAsWritten`: the outcome for an answer with status 200 within the budget is stated only through its agreement with `ProcessResponse`, by `AsWrittenDiffersOnlyAfterLastRetry`.
- `FlareSolverrGetSolutionStatusMiddleware` is modelled but is not registered in the project's settings.
- LegacySpider.FollowUps: the category requests are the corrected ones of the second finding below, not the doubled-origin URLs as written.
- LegacySpider.CategoryRequests: carries the corrected URLs, base_url + link + postfix, and so do `LegacySpider.FollowUpsOrder` and `LegacySpider.Parse`. The code as written requests base_url + `urljoin(page URL, link)` + postfix. That half is `LegacyHelpers.RequestAllCategoryUrlsAsWritten`.
- Retrying a blocked page has no budget of its own in the spider. The model states what one call yields, not the chain of re-requests.

## Findings

| source | as written | input that shows it | evidently intended | confidence | as-written member | corrected member |
|---|---|---|---|---|---|---|
| disboard/middlewares.py:146-148 | after the last allowed retry, any answer raises `IgnoreRequest`, a 200 one included, because `retry_count >= retry_times` is tested on its own | a request retried twice (`flaresolverr_retry_count` 2, `RETRY_TIMES` 2) whose third attempt the proxy answers 200 with a solution | only a non-200 answer that is not retried is abandoned, so the last permitted attempt can succeed | high; not executed | Middlewares.ProcessResponseAsWritten, Middlewares.LastAttemptSuccessIgnoredAsWritten | Middlewares.ProcessResponse, Middlewares.SolvedRoundTrip, Middlewares.RetryBudget |
| scrapy/disboard/commons/helpers.py:87 | the category URL is `base_url` followed by `response.urljoin(category)`, which is already absolute | category link "/servers/category/gaming" on https://disboard.org/servers gives https://disboard.orghttps://disboard.org/servers/category/gaming | `base_url` followed by the root-relative link, as the current helpers write it | high; not executed | LegacyHelpers.RequestAllCategoryUrlsAsWritten, LegacyHelpers.CategoryUrlDoublesOrigin | LegacyHelpers.RequestAllCategoryUrls, LegacyHelpers.CategoryUrlsAsRewritten |
