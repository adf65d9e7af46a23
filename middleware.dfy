/** `MetricsMiddleware` of app/middleware/metrics_middleware.py: it wraps every request
    whose path is not excluded, keeps the in-flight gauge of (method, path) up while the
    downstream handler runs, and records the request once when it finishes. The endpoint
    label is the raw request path. The downstream handler (`call_next`) and the clock
    are inputs: `downstream` is what the handler did, `start`/`end` are the clock before
    and after it, `stamp` is the clock read for the last-request gauge. */
module Middleware {
  import opened Wrappers
  import opened Text
  import opened MetricStore
  import opened HttpMetrics

  /** Header names are kept lower-case, as Starlette's header lookup sees them. */
  datatype Request = Request(httpMethod: string, path: string, headers: map<string, string>)

  datatype Response = Response(statusCode: int, headers: map<string, string>)

  /** A raised exception; `isException` tells whether it derives from `Exception`
      (and not only from `BaseException`, as task cancellation does). */
  datatype Exc = Exc(name: string, isException: bool)

  /** What a handler does with a request: returns a response or raises. */
  datatype Outcome = Returned(response: Response) | Raised(exc: Exc)

  /** The exclusion set kept by `__init__`: `exclude_paths or {'/metrics', '/favicon.ico'}`. */
  function ExcludePaths(given: Option<set<string>>): (r: set<string>)
    ensures given.None? || given == Some({}) ==> r == {"/metrics", "/favicon.ico"}
    ensures given.Some? && given.value != {} ==> r == given.value
    ensures r != {}
  {
    if given.Some? && given.value != {} then given.value else {"/metrics", "/favicon.ico"}
  }

  /** The size taken from a `content-length` header: its integer value when the header is
      present and `int()` accepts it, and 0 otherwise. */
  function ContentLength(headers: map<string, string>): (r: int)
    ensures "content-length" !in headers ==> r == 0
    ensures ("content-length" in headers && ParseInt(headers["content-length"]).Some?)
            ==> r == ParseInt(headers["content-length"]).value
    ensures "content-length" in headers && ParseInt(headers["content-length"]).None? ==> r == 0
  {
    if "content-length" in headers && headers["content-length"] != "" then
      match ParseInt(headers["content-length"])
      case Some(v) => v
      case None => 0
    else 0
  }

  /** A `content-length` header written as `str(n)` gives back `n`. */
  lemma ContentLengthOfDecimal(headers: map<string, string>, n: int)
    requires "content-length" in headers && headers["content-length"] == ShowInt(n)
    ensures ContentLength(headers) == n
  {
    ParseShowInt(n);
  }

  /** The status code a finished request is recorded with: the response's own code,
      500 for a raised `Exception`, and none when something that is not an `Exception`
      escapes (the `except Exception` clause does not run). */
  function RecordedStatus(downstream: Outcome): (r: Option<int>)
    ensures downstream.Returned? ==> r == Some(downstream.response.statusCode)
    ensures downstream.Raised? ==> (r.Some? <==> downstream.exc.isException)
    ensures downstream.Raised? && r.Some? ==> r.value == 500
  {
    match downstream
    case Returned(response) => Some(response.statusCode)
    case Raised(e) => if e.isException then Some(500) else None
  }

  /** The effect of one `dispatch` on the HTTP instruments. An excluded path changes
      nothing. Otherwise every in-flight child ends at the value it started with (the
      gauge is balanced on every exit path), and apart from that the request is recorded
      once, under the raw path: with the response's status and sizes when the handler
      returned, with status 500 and response size 0 when it raised an `Exception`, and
      not at all when it raised anything else. */
  function Dispatched(s: HttpState, exclude: set<string>, request: Request, downstream: Outcome,
                      start: int, end: int, stamp: int): (r: HttpState)
    ensures request.path in exclude ==> r == s
    ensures request.path !in exclude ==> forall k :: Level(r.active, k) == Level(s.active, k)
    ensures request.path !in exclude ==> r.active.Keys == s.active.Keys + {Route(request.httpMethod, request.path)}
    ensures request.path !in exclude && downstream.Returned? ==>
      r.(active := s.active)
      == Recorded(s, request.httpMethod, request.path, downstream.response.statusCode, end - start,
                  ContentLength(request.headers), ContentLength(downstream.response.headers), stamp)
    ensures request.path !in exclude && downstream.Raised? && downstream.exc.isException ==>
      r.(active := s.active)
      == Recorded(s, request.httpMethod, request.path, 500, end - start, ContentLength(request.headers), 0, stamp)
    ensures request.path !in exclude && downstream.Raised? && !downstream.exc.isException ==>
      r.(active := s.active) == s
  {
    if request.path in exclude then s
    else
      var route := Route(request.httpMethod, request.path);
      var finished := Handled(s.(active := GaugeInc(s.active, route)), request, downstream, start, end, stamp);
      finished.(active := GaugeDec(finished.active, route))
  }

  /** The `try`/`except Exception` part of `dispatch`, between entering and leaving. */
  function Handled(s: HttpState, request: Request, downstream: Outcome, start: int, end: int, stamp: int): HttpState
  {
    match downstream
    case Returned(response) =>
      Recorded(s, request.httpMethod, request.path, response.statusCode, end - start,
               ContentLength(request.headers), ContentLength(response.headers), stamp)
    case Raised(e) =>
      if e.isException then
        Recorded(s, request.httpMethod, request.path, 500, end - start, ContentLength(request.headers), 0, stamp)
      else s
  }

  class MetricsMiddleware {
    const excludePaths: set<string>

    /** `MetricsMiddleware(app, exclude_paths)`. */
    constructor (excludePaths: Option<set<string>>)
      ensures this.excludePaths == ExcludePaths(excludePaths)
    {
      this.excludePaths := ExcludePaths(excludePaths);
    }

    /** `dispatch(request, call_next)`: forwards the handler's outcome unchanged (the
        response is returned, the exception re-raised) and updates `metrics` as
        `Dispatched` says. */
    method Dispatch(metrics: HttpInstruments, request: Request, downstream: Outcome,
                    start: int, end: int, stamp: int)
      returns (r: Outcome)
      modifies metrics
      ensures r == downstream
      ensures metrics.State() == Dispatched(old(metrics.State()), excludePaths, request, downstream, start, end, stamp)
    {
      if request.path in excludePaths {
        return downstream;
      }
      metrics.IncrementActiveRequests(request.httpMethod, request.path);
      r := RunHandler(metrics, request, downstream, start, end, stamp);
      metrics.DecrementActiveRequests(request.httpMethod, request.path);
    }

    /** The `try` block of `dispatch` and its `except Exception` clause: record the
        request with the handler's status and sizes, or with 500 when the handler raised
        an `Exception`, and hand on what the handler did. */
    method RunHandler(metrics: HttpInstruments, request: Request, downstream: Outcome,
                      start: int, end: int, stamp: int)
      returns (r: Outcome)
      modifies metrics
      ensures r == downstream
      ensures metrics.State() == Handled(old(metrics.State()), request, downstream, start, end, stamp)
    {
      var httpMethod := request.httpMethod;
      var endpoint := request.path;
      var requestSize := ContentLength(request.headers);
      var startTime := start;
      match downstream {
        case Returned(response) =>
          var duration := end - startTime;
          var responseSize := ContentLength(response.headers);
          metrics.RecordRequestMetrics(httpMethod, endpoint, response.statusCode, duration,
                                       requestSize, responseSize, stamp);
        case Raised(e) =>
          if e.isException {
            var duration := end - startTime;
            metrics.RecordRequestMetrics(httpMethod, endpoint, 500, duration, requestSize, 0, stamp);
          }
      }
      r := downstream;
    }
  }

  // ---------------------------------------------------------------------------
  // Many requests

  /** One request as the middleware sees it, with its handler outcome and clocks. */
  datatype Call = Call(request: Request, downstream: Outcome, start: int, end: int, stamp: int)

  /** The HTTP instruments after dispatching `calls` one after another. */
  function DispatchAll(s: HttpState, exclude: set<string>, calls: seq<Call>): HttpState
    decreases |calls|
  {
    if calls == [] then s
    else
      var c := calls[0];
      DispatchAll(Dispatched(s, exclude, c.request, c.downstream, c.start, c.end, c.stamp), exclude, calls[1..])
  }

  /** The request-counter series a call is counted under, if any. */
  function CountedAs(exclude: set<string>, c: Call): Option<Series>
  {
    if c.request.path in exclude then None
    else match RecordedStatus(c.downstream)
      case Some(code) => Some(Series(c.request.httpMethod, c.request.path, code))
      case None => None
  }

  /** How many of `calls` are counted under `k`. */
  function Hits(exclude: set<string>, calls: seq<Call>, k: Series): nat
    decreases |calls|
  {
    if calls == [] then 0
    else (if CountedAs(exclude, calls[0]) == Some(k) then 1 else 0) + Hits(exclude, calls[1..], k)
  }

  /** One call adds one to the series it is counted under and nothing to any other. */
  lemma DispatchedCount(s: HttpState, exclude: set<string>, c: Call, k: Series)
    ensures Count(Dispatched(s, exclude, c.request, c.downstream, c.start, c.end, c.stamp).requestsTotal, k)
            == Count(s.requestsTotal, k) + (if CountedAs(exclude, c) == Some(k) then 1 else 0)
  {
    var r := Dispatched(s, exclude, c.request, c.downstream, c.start, c.end, c.stamp);
    if c.request.path !in exclude {
      assert r.requestsTotal == r.(active := s.active).requestsTotal;
    }
  }

  /** The request counter of each series goes up by exactly the number of requests
      counted under it: no update is lost or duplicated. */
  lemma {:induction false} RequestsTotalCountsCalls(s: HttpState, exclude: set<string>, calls: seq<Call>, k: Series)
    ensures Count(DispatchAll(s, exclude, calls).requestsTotal, k) == Count(s.requestsTotal, k) + Hits(exclude, calls, k)
    decreases |calls|
  {
    if calls != [] {
      var c := calls[0];
      var s' := Dispatched(s, exclude, c.request, c.downstream, c.start, c.end, c.stamp);
      RequestsTotalCountsCalls(s', exclude, calls[1..], k);
      DispatchedCount(s, exclude, c, k);
    }
  }

  /** Whatever the handlers do, the in-flight gauge ends every sequence of completed
      requests where it started. */
  lemma {:induction false} ActiveBalanced(s: HttpState, exclude: set<string>, calls: seq<Call>, k: Route)
    ensures Level(DispatchAll(s, exclude, calls).active, k) == Level(s.active, k)
    decreases |calls|
  {
    if calls != [] {
      var c := calls[0];
      ActiveBalanced(Dispatched(s, exclude, c.request, c.downstream, c.start, c.end, c.stamp), exclude, calls[1..], k);
    }
  }

  lemma {:induction false} ExcludedHitsNothing(exclude: set<string>, calls: seq<Call>, k: Series)
    requires k.endpoint in exclude
    ensures Hits(exclude, calls, k) == 0
    decreases |calls|
  {
    if calls != [] {
      ExcludedHitsNothing(exclude, calls[1..], k);
    }
  }

  /** Requests to an excluded path (the metrics endpoint itself, by default) never change
      a request-counter series of that path. */
  lemma ExcludedNeverCounted(s: HttpState, exclude: set<string>, calls: seq<Call>, k: Series)
    requires k.endpoint in exclude
    ensures Count(DispatchAll(s, exclude, calls).requestsTotal, k) == Count(s.requestsTotal, k)
  {
    RequestsTotalCountsCalls(s, exclude, calls, k);
    ExcludedHitsNothing(exclude, calls, k);
  }

  /** No request ever writes the two rate gauges or the start time. */
  lemma {:induction false} RatesAndStartUntouched(s: HttpState, exclude: set<string>, calls: seq<Call>)
    ensures DispatchAll(s, exclude, calls).requestRate == s.requestRate
    ensures DispatchAll(s, exclude, calls).errorRate == s.errorRate
    ensures DispatchAll(s, exclude, calls).startTime == s.startTime
    decreases |calls|
  {
    if calls != [] {
      var c := calls[0];
      RatesAndStartUntouched(Dispatched(s, exclude, c.request, c.downstream, c.start, c.end, c.stamp), exclude, calls[1..]);
    }
  }

  /** However many requests were served, the uptime is the clock minus the clock at
      import. */
  lemma UptimeSinceImport(importClock: int, exclude: set<string>, calls: seq<Call>, now: int)
    ensures Uptime(DispatchAll(Imported(importClock), exclude, calls), now) == now - importClock
  {
    RatesAndStartUntouched(Imported(importClock), exclude, calls);
  }

  /** Three POSTs to /data answered 200, from a fresh import with the default exclusions,
      leave `http_requests_total{method="POST",endpoint="/data",status_code="200"}` at 3. */
  lemma ThreePosts(importClock: int, headers: map<string, string>)
    ensures var call := Call(Request("POST", "/data", headers), Returned(Response(200, headers)), 0, 1, 1);
      Count(DispatchAll(Imported(importClock), ExcludePaths(None), [call, call, call]).requestsTotal,
            Series("POST", "/data", 200)) == 3
  {
    var call := Call(Request("POST", "/data", headers), Returned(Response(200, headers)), 0, 1, 1);
    var k := Series("POST", "/data", 200);
    var exclude := ExcludePaths(None);
    RequestsTotalCountsCalls(Imported(importClock), exclude, [call, call, call], k);
    assert CountedAs(exclude, call) == Some(k);
    assert [call, call, call][1..] == [call, call];
    assert [call, call][1..] == [call];
    assert Hits(exclude, [call], k) == 1 by {
      assert [call][1..] == [];
    }
  }
}
