/**
 * Configuration constants of the crawler: the site and cache URLs and the
 * retry settings the downloader middleware reads.
 */
module Constants {

  const DISBOARD_URL: string := "https://disboard.org"
  const WEBCACHE_URL: string := "https://webcache.googleusercontent.com/search?q=cache:"

  /** Maximum number of proxy retries, in addition to the first download. */
  const RETRY_TIMES: int := 2

  /** The status codes eligible for a proxy retry, in the order they are configured. */
  const RETRY_HTTP_CODES: seq<int> := [500, 502, 503, 504, 522, 524, 404, 408, 429]
}
