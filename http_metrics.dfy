/** The HTTP instruments of app/metrics/http_metrics.py and the functions that write
    them. The instruments are module-level objects updated in place, so they are the
    fields of one `HttpInstruments` object; `HttpState` is the value of all of them
    together, and `Recorded` is what one `record_request_metrics` call does to it. */
module HttpMetrics {
  import opened MetricStore
  import opened Config

  /** The label tuple (method, endpoint). */
  datatype Route = Route(httpMethod: string, endpoint: string)

  /** The label tuple (method, endpoint, status_code). */
  datatype Series = Series(httpMethod: string, endpoint: string, statusCode: int)

  /** Every HTTP instrument's children at one moment. Clock readings, durations and
      byte sizes are whole numbers. */
  datatype HttpState = HttpState(
    requestsTotal: CounterVec<Series>,    // http_requests_total
    duration: HistogramVec<Route>,        // http_request_duration_seconds
    requestSize: HistogramVec<Route>,     // http_request_size_bytes
    responseSize: HistogramVec<Series>,   // http_response_size_bytes
    active: GaugeVec<Route>,              // http_requests_active
    requestRate: GaugeVec<Route>,         // http_requests_per_second
    errorRate: GaugeVec<Route>,           // http_errors_per_second
    lastRequestTime: int,                 // http_last_request_time_seconds
    startTime: int)                       // application_start_time_seconds

  /** The state right after the module is imported at clock `now`: no children yet,
      the last-request gauge at zero and the start-time gauge at `now`. */
  function Imported(now: int): (s: HttpState)
    ensures s.startTime == now && s.lastRequestTime == 0
    ensures forall k :: Count(s.requestsTotal, k) == 0 && Observations(s.responseSize, k) == []
    ensures forall k :: Level(s.active, k) == 0 && Observations(s.duration, k) == []
    ensures s.requestSize == map[] && s.requestRate == map[] && s.errorRate == map[]
  {
    HttpState(map[], map[], map[], map[], map[], map[], map[], 0, now)
  }

  /** The effect of `record_request_metrics(method, endpoint, status_code, duration,
      request_size, response_size)` at clock `now`: the request counter of exactly that
      (method, endpoint, status_code) goes up by one, exactly one latency observation is
      added at (method, endpoint), a request-size observation is added iff the size is
      positive, a response-size observation (keyed by the status code too) iff that size
      is positive, and the last-request gauge is set to `now`. The in-flight gauge, the
      two rate gauges and the start time are not touched. */
  function Recorded(s: HttpState, httpMethod: string, endpoint: string, statusCode: int,
                    duration: int, requestSize: int, responseSize: int, now: int): (r: HttpState)
    ensures forall k :: Count(r.requestsTotal, k)
                        == Count(s.requestsTotal, k) + (if k == Series(httpMethod, endpoint, statusCode) then 1 else 0)
    ensures forall k :: Observations(r.duration, k)
                        == Observations(s.duration, k) + (if k == Route(httpMethod, endpoint) then [duration] else [])
    ensures forall k :: Observations(r.requestSize, k)
                        == Observations(s.requestSize, k)
                           + (if k == Route(httpMethod, endpoint) && requestSize > 0 then [requestSize] else [])
    ensures forall k :: Observations(r.responseSize, k)
                        == Observations(s.responseSize, k)
                           + (if k == Series(httpMethod, endpoint, statusCode) && responseSize > 0 then [responseSize] else [])
    ensures r.requestSize == s.requestSize <==> requestSize <= 0
    ensures r.responseSize == s.responseSize <==> responseSize <= 0
    ensures r.lastRequestTime == now
    ensures r.active == s.active && r.startTime == s.startTime
    ensures r.requestRate == s.requestRate && r.errorRate == s.errorRate
  {
    var route := Route(httpMethod, endpoint);
    var series := Series(httpMethod, endpoint, statusCode);
    var r := s.(
      requestsTotal := Inc(s.requestsTotal, series),
      duration := Observe(s.duration, route, duration),
      requestSize := if requestSize > 0 then Observe(s.requestSize, route, requestSize) else s.requestSize,
      responseSize := if responseSize > 0 then Observe(s.responseSize, series, responseSize) else s.responseSize,
      lastRequestTime := now);
    assert requestSize > 0 ==> |Observations(r.requestSize, route)| > |Observations(s.requestSize, route)|;
    assert responseSize > 0 ==> |Observations(r.responseSize, series)| > |Observations(s.responseSize, series)|;
    r
  }

  /** `get_application_uptime()` at clock `now`. */
  function Uptime(s: HttpState, now: int): int {
    now - s.startTime
  }

  /** The module-level instruments of app/metrics/http_metrics.py. */
  class HttpInstruments {
    /** Boundaries of the latency histogram. */
    const latencyBuckets: seq<Bound>
    /** Boundaries of the request- and response-size histograms. */
    const sizeBuckets: seq<Bound>

    var requestsTotal: CounterVec<Series>
    var duration: HistogramVec<Route>
    var requestSize: HistogramVec<Route>
    var responseSize: HistogramVec<Series>
    var active: GaugeVec<Route>
    var requestRate: GaugeVec<Route>
    var errorRate: GaugeVec<Route>
    var lastRequestTime: int
    var startTime: int

    function State(): HttpState
      reads this
    {
      HttpState(requestsTotal, duration, requestSize, responseSize, active,
                requestRate, errorRate, lastRequestTime, startTime)
    }

    /** Module import at clock `now`: the instruments are created and the start-time
        gauge is set, once. */
    constructor (now: int)
      ensures State() == Imported(now)
      ensures latencyBuckets == LatencyBuckets() && sizeBuckets == SizeBuckets()
      ensures WellFormed(latencyBuckets) && WellFormed(sizeBuckets)
    {
      latencyBuckets := LatencyBuckets();
      sizeBuckets := SizeBuckets();
      requestsTotal, duration, requestSize, responseSize := map[], map[], map[], map[];
      active, requestRate, errorRate := map[], map[], map[];
      lastRequestTime := 0;
      startTime := now;
    }

    /** `record_request_metrics`, with `now` the clock reading it takes for the
        last-request gauge. */
    method RecordRequestMetrics(httpMethod: string, endpoint: string, statusCode: int,
                                duration: int, requestSize: int, responseSize: int, now: int)
      modifies this
      ensures State() == Recorded(old(State()), httpMethod, endpoint, statusCode,
                                  duration, requestSize, responseSize, now)
    {
      requestsTotal := Inc(requestsTotal, Series(httpMethod, endpoint, statusCode));
      this.duration := Observe(this.duration, Route(httpMethod, endpoint), duration);
      if requestSize > 0 {
        this.requestSize := Observe(this.requestSize, Route(httpMethod, endpoint), requestSize);
      }
      if responseSize > 0 {
        this.responseSize := Observe(this.responseSize, Series(httpMethod, endpoint, statusCode), responseSize);
      }
      lastRequestTime := now;
    }

    /** `increment_active_requests`: the in-flight child of (method, endpoint) goes up
        by one and nothing else changes. */
    method IncrementActiveRequests(httpMethod: string, endpoint: string)
      modifies this
      ensures State() == old(State()).(active := GaugeInc(old(active), Route(httpMethod, endpoint)))
    {
      active := GaugeInc(active, Route(httpMethod, endpoint));
    }

    /** `decrement_active_requests`: the in-flight child of (method, endpoint) goes down
        by one and nothing else changes. */
    method DecrementActiveRequests(httpMethod: string, endpoint: string)
      modifies this
      ensures State() == old(State()).(active := GaugeDec(old(active), Route(httpMethod, endpoint)))
    {
      active := GaugeDec(active, Route(httpMethod, endpoint));
    }

    /** `get_application_uptime()`: the clock minus the start-time gauge. */
    function ApplicationUptime(now: int): (r: int)
      reads this
      ensures r == Uptime(State(), now)
    {
      now - startTime
    }
  }
}
