/**
 * The two downloader middlewares that route requests through the
 * FlareSolverr proxy: the proxy retry state machine and the title-to-status
 * rewrite of a 200 answer.
 */
module Middlewares {
  import opened Wrappers
  import opened Http
  import opened Text
  import Constants
  import Seqs

  /** The settings `FlareSolverrProxyMiddleware.__init__` keeps. */
  datatype ProxyConfig = ProxyConfig(proxyUrl: string, retryTimes: int, retryHttpCodes: set<int>)

  /** The middleware as the project's settings configure it. */
  function ConfiguredProxy(proxyUrl: string): ProxyConfig {
    ProxyConfig(proxyUrl, Constants.RETRY_TIMES, set c | c in Constants.RETRY_HTTP_CODES)
  }

  /** Why an `IgnoreRequest` was raised. */
  datatype IgnoreReason = RequestFailed(retries: int) | UndecodableJson

  /** An exception other than `IgnoreRequest` that escapes `process_response`. */
  datatype Uncaught = MissingOriginalRequest | MissingSolution

  /** What `process_response` does with one answer. */
  datatype ProxyOutcome =
    | Passthrough(response: Response)  // not a proxied request: the response as it came
    | Retry(request: Request)          // the original request, scheduled again
    | Ignore(reason: IgnoreReason)     // `IgnoreRequest` raised
    | Solved(response: Response)       // the page the proxy fetched, as a direct response
    | Raised(error: Uncaught)

  /** The number of proxy retries a request has already had. */
  function RetryCount(r: Request): int {
    r.meta.retryCount.GetOr(0)
  }

  // ---------------------------------------------------------------------
  // process_request

  /**
   * `FlareSolverrProxyMiddleware.process_request`: `None` leaves the request
   * to the downloader as it is; otherwise the request is rewritten into a
   * POST to the proxy that carries the original in its meta.
   */
  function ProcessRequest(cfg: ProxyConfig, r: Request): (p: Option<Request>)
    ensures p.None? <==> r.meta.redirectedToProxy
    ensures p.Some? ==>
      && p.value.url == cfg.proxyUrl
      && p.value.verb == "POST"
      && p.value.headers == map["Content-Type" := "application/json"]
      && p.value.body == ProxyCommand(r.url, "request.get")
      && p.value.priority == r.priority
      && p.value.dontFilter == r.dontFilter
      && p.value.meta.originalRequest == Some(r)
      && p.value.meta.dontFilter && p.value.meta.redirectedToProxy
      && p.value.meta.dontRedirect && p.value.meta.handleHttpStatusAll
      && p.value.meta.downloadSlot == Some(cfg.proxyUrl)
      && p.value.meta.retryCount.None? && p.value.meta.other == map[]
  {
    if r.meta.redirectedToProxy then None
    else
      var meta := Meta(Some(r), true, None, true, true, true, None, map[]);
      var p := r.(url := cfg.proxyUrl, verb := "POST",
                  headers := map["Content-Type" := "application/json"],
                  body := ProxyCommand(r.url, "request.get"), meta := meta);
      Some(p.(meta := p.meta.(downloadSlot := Some(cfg.proxyUrl))))
  }

  // ---------------------------------------------------------------------
  // process_response

  /** The original request scheduled once more: one retry more, ten priority points less. */
  function Retried(original: Request): (r: Request)
    ensures RetryCount(r) == RetryCount(original) + 1
    ensures r.priority == original.priority - 10
    ensures r.meta.dontFilter && !r.meta.redirectedToProxy
    ensures r == original.(priority := r.priority, meta := r.meta)
    ensures r.meta == original.meta.(dontFilter := true, redirectedToProxy := false,
                                     retryCount := Some(RetryCount(original) + 1))
  {
    var meta := original.meta.(dontFilter := true, redirectedToProxy := false,
                               retryCount := Some(RetryCount(original) + 1));
    original.(meta := meta, priority := original.priority - 10)
  }

  /**
   * The response built from the proxy's solution: the solved page at the
   * solved URL, with the proxy's status and headers, answering the original
   * request.
   */
  function Unwrapped(original: Request, proxied: Response, solution: Solution): (r: Response)
    ensures r.url == solution.url && r.body == solution.response
    ensures r.status == proxied.status && r.headers == proxied.headers
    ensures r.request == Some(original)
  {
    Response(solution.url, proxied.status, proxied.headers, solution.response, Some(original))
  }

  /** Whether an answer is retried: a retry code while the budget lasts. */
  predicate Retryable(cfg: ProxyConfig, original: Request, answer: Response) {
    answer.status in cfg.retryHttpCodes && RetryCount(original) < cfg.retryTimes
  }

  /** The parse step shared by both readings of `process_response`. */
  function DecodeSolution(original: Request, answer: Response): ProxyOutcome {
    match answer.body.payload
    case NotJson => Ignore(UndecodableJson)
    case Json(None) => Raised(MissingSolution)
    case Json(Some(solution)) => Solved(Unwrapped(original, answer, solution))
  }

  /**
   * `FlareSolverrProxyMiddleware.process_response` as written: once the
   * retry count has reached `retry_times`, even a 200 answer is ignored.
   */
  function ProcessResponseAsWritten(cfg: ProxyConfig, request: Request, answer: Response): (o: ProxyOutcome)
    ensures o.Passthrough? <==> !request.meta.redirectedToProxy
    ensures o.Passthrough? ==> o.response == answer
    ensures request.meta.redirectedToProxy && request.meta.originalRequest.Some? ==>
      var original := request.meta.originalRequest.value;
      && (o.Retry? <==> Retryable(cfg, original, answer))
      && (o.Retry? ==> o.request == Retried(original))
      && ((!Retryable(cfg, original, answer) && RetryCount(original) >= cfg.retryTimes)
            ==> o == Ignore(RequestFailed(RetryCount(original))))
  {
    if !request.meta.redirectedToProxy then Passthrough(answer)
    else match request.meta.originalRequest
      case None => Raised(MissingOriginalRequest)
      case Some(original) =>
        var count := RetryCount(original);
        if Retryable(cfg, original, answer) then Retry(Retried(original))
        else if (answer.status != 200 && answer.status !in cfg.retryHttpCodes) || count >= cfg.retryTimes then
          Ignore(RequestFailed(count))
        else DecodeSolution(original, answer)
  }

  /**
   * `process_response` as evidently intended: an answer that is not retried
   * is abandoned when its status is not 200, and unwrapped otherwise, however
   * many retries came before it.
   */
  function ProcessResponse(cfg: ProxyConfig, request: Request, answer: Response): (o: ProxyOutcome)
    ensures o.Passthrough? <==> !request.meta.redirectedToProxy
    ensures o.Passthrough? ==> o.response == answer
    ensures request.meta.redirectedToProxy && request.meta.originalRequest.None? ==>
      o == Raised(MissingOriginalRequest)
    ensures request.meta.redirectedToProxy && request.meta.originalRequest.Some? ==>
      var original := request.meta.originalRequest.value;
      && (o.Retry? <==> Retryable(cfg, original, answer))
      && (o.Retry? ==> o.request == Retried(original))
      && (o.Ignore? <==> !Retryable(cfg, original, answer)
                          && (answer.status != 200 || answer.body.payload.NotJson?))
      && (o == Raised(MissingSolution) <==> !Retryable(cfg, original, answer) && answer.status == 200
                                            && answer.body.payload == Json(None))
      && (o.Solved? <==> !Retryable(cfg, original, answer) && answer.status == 200
                         && answer.body.payload.Json? && answer.body.payload.solution.Some?)
      && (o.Solved? ==> o.response.request == Some(original) && o.response.status == 200
                        && answer.body.payload.Json? && answer.body.payload.solution.Some?
                        && o.response.url == answer.body.payload.solution.value.url
                        && o.response.body == answer.body.payload.solution.value.response)
  {
    if !request.meta.redirectedToProxy then Passthrough(answer)
    else match request.meta.originalRequest
      case None => Raised(MissingOriginalRequest)
      case Some(original) =>
        if Retryable(cfg, original, answer) then Retry(Retried(original))
        else if answer.status != 200 then Ignore(RequestFailed(RetryCount(original)))
        else DecodeSolution(original, answer)
  }

  /** The two readings differ only on a 200 answer after the last allowed retry. */
  lemma AsWrittenDiffersOnlyAfterLastRetry(cfg: ProxyConfig, request: Request, answer: Response)
    requires ProcessResponseAsWritten(cfg, request, answer) != ProcessResponse(cfg, request, answer)
    ensures request.meta.redirectedToProxy && request.meta.originalRequest.Some?
    ensures answer.status == 200
    ensures RetryCount(request.meta.originalRequest.value) >= cfg.retryTimes
    ensures ProcessResponseAsWritten(cfg, request, answer)
              == Ignore(RequestFailed(RetryCount(request.meta.originalRequest.value)))
  {
  }

  /**
   * Finding, as written: with the configured two retries, the third attempt
   * of a request is ignored even though the proxy fetched its page.
   */
  lemma LastAttemptSuccessIgnoredAsWritten(proxyUrl: string, r: Request, page: Document)
    requires !r.meta.redirectedToProxy && r.meta.retryCount == Some(2)
    ensures var cfg := ConfiguredProxy(proxyUrl);
            var answer := Response(proxyUrl, 200, map[], Document("", Json(Some(Solution(r.url, page)))), None);
            && ProcessResponseAsWritten(cfg, ProcessRequest(cfg, r).value, answer) == Ignore(RequestFailed(2))
            && ProcessResponse(cfg, ProcessRequest(cfg, r).value, answer).Solved?
  {
    var cfg := ConfiguredProxy(proxyUrl);
    assert 200 !in cfg.retryHttpCodes;
  }

  /**
   * Corrected: a 200 answer carrying a solution always gives back the page
   * the proxy fetched, as the response to the request the spider made.
   */
  lemma SolvedRoundTrip(cfg: ProxyConfig, r: Request, answer: Response, solution: Solution)
    requires !r.meta.redirectedToProxy
    requires answer.status == 200 && 200 !in cfg.retryHttpCodes
    requires answer.body.payload == Json(Some(solution))
    ensures ProcessResponse(cfg, ProcessRequest(cfg, r).value, answer)
              == Solved(Response(solution.url, 200, answer.headers, solution.response, Some(r)))
  {
  }

  /** A retry code within the budget sends the spider's own request back, one retry further on. */
  lemma RetryRoundTrip(cfg: ProxyConfig, r: Request, answer: Response)
    requires !r.meta.redirectedToProxy
    requires answer.status in cfg.retryHttpCodes && RetryCount(r) < cfg.retryTimes
    ensures var o := ProcessResponse(cfg, ProcessRequest(cfg, r).value, answer);
            && o.Retry?
            && o.request.url == r.url && o.request.verb == r.verb && o.request.body == r.body
            && o.request.priority == r.priority - 10
            && RetryCount(o.request) == RetryCount(r) + 1
            && o.request.meta.other == r.meta.other
            && ProcessRequest(cfg, o.request).Some?
  {
  }

  /** A proxied request is not proxied a second time. */
  lemma ProcessRequestOnce(cfg: ProxyConfig, r: Request)
    requires !r.meta.redirectedToProxy
    ensures ProcessRequest(cfg, ProcessRequest(cfg, r).value).None?
  {
  }

  // ---------------------------------------------------------------------
  // The retry budget over a whole sequence of attempts

  /**
   * The retries one request goes through when the proxy gives the answers
   * `answers`, one per attempt: each attempt is proxied by `ProcessRequest`,
   * answered, and a `Retry` outcome is fed back in as the next attempt.
   */
  function RetryChain(cfg: ProxyConfig, r: Request, answers: seq<Response>): seq<Request>
    decreases |answers|
  {
    if answers == [] then []
    else match ProcessRequest(cfg, r)
      case None => []
      case Some(p) =>
        match ProcessResponse(cfg, p, answers[0])
        case Retry(next) => [next] + RetryChain(cfg, next, answers[1..])
        case _ => []
  }

  /** How many retries a request still has. */
  function Budget(cfg: ProxyConfig, r: Request): nat {
    if RetryCount(r) < cfg.retryTimes then cfg.retryTimes - RetryCount(r) else 0
  }

  /**
   * The retry budget: whatever the proxy answers, a request is retried at
   * most `retry_times` times in all, each retry counting one more and
   * losing ten more priority points.
   */
  lemma {:induction false} RetryBudget(cfg: ProxyConfig, r: Request, answers: seq<Response>)
    ensures var chain := RetryChain(cfg, r, answers);
      && |chain| <= Budget(cfg, r)
      && forall i :: 0 <= i < |chain| ==>
           && chain[i].url == r.url
           && RetryCount(chain[i]) == RetryCount(r) + i + 1
           && chain[i].priority == r.priority - 10 * (i + 1)
    decreases |answers|
  {
    if answers != [] && !r.meta.redirectedToProxy {
      var p := ProcessRequest(cfg, r).value;
      var o := ProcessResponse(cfg, p, answers[0]);
      if o.Retry? {
        var next := o.request;
        RetryBudget(cfg, next, answers[1..]);
        var chain := RetryChain(cfg, r, answers);
        assert chain == [next] + RetryChain(cfg, next, answers[1..]);
        forall i | 0 <= i < |chain|
          ensures chain[i].url == r.url
          ensures RetryCount(chain[i]) == RetryCount(r) + i + 1
          ensures chain[i].priority == r.priority - 10 * (i + 1)
        {
          if i > 0 {
            assert chain[i] == RetryChain(cfg, next, answers[1..])[i - 1];
          }
        }
      }
    }
  }

  /** Retry codes all the way: the budget is used up exactly, as far as the answers go. */
  lemma {:induction false} RetryBudgetExhausted(cfg: ProxyConfig, r: Request, answers: seq<Response>)
    requires !r.meta.redirectedToProxy
    requires forall i :: 0 <= i < |answers| ==> answers[i].status in cfg.retryHttpCodes
    ensures |RetryChain(cfg, r, answers)| == Seqs.Min(|answers|, Budget(cfg, r))
    decreases |answers|
  {
    if answers != [] {
      var p := ProcessRequest(cfg, r).value;
      if Budget(cfg, r) > 0 {
        var next := Retried(r);
        RetryBudgetExhausted(cfg, next, answers[1..]);
      }
    }
  }

  // ---------------------------------------------------------------------
  // FlareSolverrGetSolutionStatusMiddleware

  /** Index of the first code whose decimal form occurs in `title`; `|codes|` if there is none. */
  function FirstCodeInTitle(codes: seq<int>, title: string): (k: nat)
    ensures k <= |codes|
    ensures forall j :: 0 <= j < k ==> !Contains(title, IntToString(codes[j]))
    ensures k < |codes| ==> Contains(title, IntToString(codes[k]))
  {
    if codes == [] then 0
    else if Contains(title, IntToString(codes[0])) then 0
    else 1 + FirstCodeInTitle(codes[1..], title)
  }

  /** The first index whose code is in the title, recognised from its two defining facts. */
  lemma {:induction false} FirstCodeInTitleAt(codes: seq<int>, title: string, k: nat)
    requires k <= |codes|
    requires forall j :: 0 <= j < k ==> !Contains(title, IntToString(codes[j]))
    requires k < |codes| ==> Contains(title, IntToString(codes[k]))
    ensures FirstCodeInTitle(codes, title) == k
  {
    if k > 0 {
      FirstCodeInTitleAt(codes[1..], title, k - 1);
    }
  }

  /**
   * The status a 200 answer should have had: the first retry code, in the
   * order the set is iterated, that the page title mentions.
   */
  function SolutionStatus(codes: seq<int>, response: Response): (r: Response)
    ensures r == response.(status := r.status)
    ensures (forall i :: 0 <= i < |codes| ==> !Contains(response.body.title, IntToString(codes[i])))
              ==> r == response
    ensures (exists i :: 0 <= i < |codes| && Contains(response.body.title, IntToString(codes[i])))
              ==> r.status in codes && Contains(response.body.title, IntToString(r.status))
  {
    var k := FirstCodeInTitle(codes, response.body.title);
    if k < |codes| then response.(status := codes[k]) else response
  }

  /**
   * `FlareSolverrGetSolutionStatusMiddleware.process_response`; `codes` is the
   * order in which the set of retry codes is iterated.
   */
  method GetSolutionStatus(codes: seq<int>, response: Response) returns (r: Response)
    ensures r == SolutionStatus(codes, response)
  {
    var title := response.body.title;
    var i := 0;
    while i < |codes|
      invariant 0 <= i <= |codes|
      invariant forall j :: 0 <= j < i ==> !Contains(title, IntToString(codes[j]))
    {
      if Contains(title, IntToString(codes[i])) {
        FirstCodeInTitleAt(codes, title, i);
        return response.(status := codes[i]);
      }
      i := i + 1;
    }
    FirstCodeInTitleAt(codes, title, i);
    return response;
  }
  /** Every configured retry code is written with three digits. */
  lemma ConfiguredCodesThreeDigits(d: int)
    requires d in Constants.RETRY_HTTP_CODES
    ensures |IntToString(d)| == 3 && AllDigits(IntToString(d))
  {
    assert 100 <= d < 1000;
    assert NatToDecimal(d) == NatToDecimal(d / 10) + [DigitChar(d % 10)];
    assert NatToDecimal(d / 10) == NatToDecimal(d / 100) + [DigitChar(d / 10 % 10)];
  }

  /**
   * A 200 page titled "<code> Error", for any configured retry code, comes
   * out with that code as its status, whatever order the set of codes is
   * iterated in.
   */
  lemma TitleWithRetryCode(codes: seq<int>, c: int, response: Response)
    requires forall i :: 0 <= i < |codes| ==> codes[i] in Constants.RETRY_HTTP_CODES
    requires c in codes
    requires response.body.title == IntToString(c) + " Error"
    ensures SolutionStatus(codes, response) == response.(status := c)
  {
    var title := response.body.title;
    var tail := " Error";
    assert forall i :: 0 <= i < |tail| ==> !IsDigit(tail[i]);
    ConfiguredCodesThreeDigits(c);
    forall i | 0 <= i < |codes|
      ensures Contains(title, IntToString(codes[i])) <==> codes[i] == c
    {
      ConfiguredCodesThreeDigits(codes[i]);
      DigitsOnlyAtStart(IntToString(c), tail, IntToString(codes[i]));
      if IntToString(c) == IntToString(codes[i]) {
        NatToDecimalInjective(c, codes[i]);
      }
    }
    var k := FirstCodeInTitle(codes, title);
    var m :| 0 <= m < |codes| && codes[m] == c;
    assert Contains(title, IntToString(codes[m]));
    assert k < |codes|;
  }

  /** A title without digits, such as "Example title", leaves the response as it is. */
  lemma TitleWithoutDigits(codes: seq<int>, response: Response)
    requires forall i :: 0 <= i < |response.body.title| ==> !IsDigit(response.body.title[i])
    ensures SolutionStatus(codes, response) == response
  {
    forall i | 0 <= i < |codes|
      ensures !Contains(response.body.title, IntToString(codes[i]))
    {
      NoDigitNoCode(response.body.title, codes[i]);
    }
  }

  /** A code's decimal text ends in a digit, so a title without digits never holds it. */
  lemma NoDigitNoCode(title: string, code: int)
    requires forall i :: 0 <= i < |title| ==> !IsDigit(title[i])
    ensures !Contains(title, IntToString(code))
  {
    var s := IntToString(code);
    var digits := NatToDecimal(if code < 0 then -code else code);
    assert s[|s| - 1] == digits[|digits| - 1];
  }
}
