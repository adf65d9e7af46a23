# FastAPI metrics app — a Dafny model of its metrics core

This project models the metrics core of a FastAPI service that exposes Prometheus
metrics. The core has five parts:

- **HTTP instruments** (`app/metrics/http_metrics.py`). These are counters, histograms
  and gauges labelled by method, endpoint and status code. The module also has the
  functions that record a finished request, raise and lower the in-flight gauge, and
  compute the application's uptime.
- **Request middleware** (`app/middleware/metrics_middleware.py`). It wraps every
  request whose path is not excluded, keeps the in-flight gauge balanced on every exit
  path, and records the request once with its status code and sizes. The sizes come
  from `content-length` headers parsed like Python's `int()`. When the handler raises
  an `Exception`, the request is recorded with status 500.
- **System sampler** (`app/metrics/system_metrics.py`). It registers ten instruments
  exactly once: nine process and host gauges and one `Info`. Its loop refreshes them from the operating system's
  readings; some exceptions are swallowed at the step that raised them, NoSuchProcess
  ends the loop, and any other exception is reported while the loop goes on. A
  collection thread is started only when none is running.
- **Histogram bucket configuration** (`app/config.py`). `<TYPE>_BUCKETS` environment
  variables are parsed with a `+inf` guarantee, and default bucket lists are used
  otherwise.
- **Health endpoints** (`app/routers/health.py`). The basic check always reports
  healthy. The detailed check grades CPU, memory and disk usage against the thresholds
  80 and 95, and turns any failure into an HTTP 500.

## How the source is modelled

- **Instrument state.** The module-level instruments are updated in place, so they are
  the fields of classes: `HttpMetrics.HttpInstruments` and
  `SystemMetrics.MetricsRuntime`. Their methods have `modifies` clauses, and each is
  proved against a pure specification function:
  - `RecordRequestMetrics` against `HttpMetrics.Recorded`;
  - `IncrementActiveRequests` and `DecrementActiveRequests` against
    `MetricStore.GaugeInc` and `MetricStore.GaugeDec`;
  - `Dispatch` against `Middleware.Dispatched`, and its `try` block `RunHandler`
    against `Middleware.Handled`;
  - `SampleOnce` against `SystemMetrics.Sample`;
  - `SamplerLoop` and `CollectSystemMetrics` against `SystemMetrics.RunSampler`.

  Lemmas then prove properties of those functions, over single requests and over
  whole sequences of requests or sampler iterations.
- **Instruments** are modelled as maps from label tuples to child values (`MetricStore`).
  prometheus_client creates a child lazily, at zero, so an absent key reads as zero or
  as "no observations".
- **Inputs.** The handler (`call_next`), the clock and every psutil reading are
  parameters. A reading either yields a value or raises one of the exceptions the code
  tells apart (`Host.Reading`).
- **Registration.** `METRICS_REGISTRY` is modelled by the instrument names registered
  in it. A constructor failure for a reason other than a duplicate name is an input
  (`InitFailure`, the position that raises and its message). The registry's own
  duplicate-name ValueError is computed from what is already registered
  (`SystemMetrics.RegistrationFailure`), and the first of the two positions raises.
- **The sampler loop.** The `while True` loop runs over a finite sequence of
  iterations. `SamplerLoop` is proved equal to the recursive specification
  `RunSampler`, and the lemmas state when the loop stops and what it reports.

### Behaviour worth noting

- **Endpoint label.** The endpoint label is the raw `request.url.path`
  (`app/middleware/metrics_middleware.py:28`), so the number of label values grows with
  every distinct path requested.
- **Default exclusions.** When no exclusions are given, they are `{'/metrics',
  '/favicon.ico'}`. The longer list `EXCLUDE_PATHS_FROM_METRICS` in `app/config.py` is
  never passed to the middleware.
- **Sampling interval.** The loop sleeps a hard-coded 5 seconds.
  `METRICS_COLLECTION_INTERVAL` is not consulted.
- **Start time and process info.** These are set once, before the loop
  (`app/metrics/system_metrics.py:121-139`). If the start-time reading raises, the
  thread ends.
- **Permanent initialisation failure.** When a registration raises part-way, the
  instruments before it stay in `METRICS_REGISTRY` while `_metrics_initialized` stays
  false. Every later `initialize_metrics()`, and so every later
  `get_metrics_registry()`, `start_metrics_collection()` and collection thread, raises
  the registry's duplicate ValueError on the first instrument
  (`app/metrics/system_metrics.py:41-45`). A failure at the first instrument registers
  nothing, so a later attempt can succeed.
- **Per-gauge guards.** The sampler's `if gauge:` guards are always true when its loop
  runs. The loop is only reached after initialisation has succeeded, and by then every
  instrument exists.

## Model

| member | source | states |
|---|---|---|
| MetricStore.Inc | app/metrics/http_metrics.py:91-95 | `labels(k).inc()` adds one to child `k` (created at zero if absent), leaves every other child alone and adds only `k` to the key set |
| MetricStore.GaugeInc | app/metrics/http_metrics.py:123 | gauge `inc()` raises child `k` by one and no other child |
| MetricStore.GaugeDec | app/metrics/http_metrics.py:127 | gauge `dec()` lowers child `k` by one and no other child |
| MetricStore.IncDecRestores | app/metrics/http_metrics.py:121-127 | an increment followed by a decrement of the same in-flight child restores every child's value, and the key set only gains that child |
| MetricStore.Observe | app/metrics/http_metrics.py:98-101 | `observe(v)` appends exactly `v` to child `k`'s observations and leaves every other child alone |
| HttpMetrics.Imported | app/metrics/http_metrics.py:6-76 | right after import, every instrument has no children (every count, level and observation list reads as empty), the last-request gauge is 0 and the start-time gauge holds the import clock |
| HttpMetrics.Recorded | app/metrics/http_metrics.py:78-119 | one recording adds one to exactly the (method, endpoint, status) counter and one latency observation at (method, endpoint); it adds a request-size observation iff the size is positive and a response-size observation (keyed with the status) iff that size is positive; it sets the last-request time; the in-flight gauge, both rate gauges and the start time are unchanged |
| HttpMetrics.HttpInstruments.constructor | app/metrics/http_metrics.py:6-76 | the instruments start in the `Imported` state with the 16 latency and 9 size buckets, both well formed |
| HttpMetrics.HttpInstruments.RecordRequestMetrics | app/metrics/http_metrics.py:78-119 | the new state of the instruments is `Recorded` applied to the old state |
| HttpMetrics.HttpInstruments.IncrementActiveRequests | app/metrics/http_metrics.py:121-123 | only the in-flight child of (method, endpoint) changes, raised by one |
| HttpMetrics.HttpInstruments.DecrementActiveRequests | app/metrics/http_metrics.py:125-127 | only the in-flight child of (method, endpoint) changes, lowered by one |
| HttpMetrics.HttpInstruments.ApplicationUptime | app/metrics/http_metrics.py:129-131 | the uptime is the clock minus the start-time gauge |
| Text.Strip | app/config.py:66 | `str.strip()`: the result is an infix of the input with only whitespace cut off before and after it, and it neither starts nor ends with whitespace |
| Text.StripTrimmed | app/config.py:66 | stripping text that is already trimmed leaves it unchanged |
| Text.Split | app/config.py:66 | `str.split(',')`: at least one piece, no piece contains the separator, and one more piece than separators |
| Text.JoinSplit | app/config.py:66 | joining the pieces of a split with the separator gives back the original text |
| Text.Upper | app/config.py:61 | `str.upper()` on ASCII letters: keeps the length and upper-cases each ASCII letter, leaving every other character as it is |
| Text.Lower | app/config.py:75-77 | `str.lower()` on ASCII letters: keeps the length and lower-cases each ASCII letter, leaving every other character as it is |
| Text.ParseInt | app/middleware/metrics_middleware.py:34-38 | `int()` succeeds iff the stripped text is a numeral with an optional sign, and then yields the numeral's value, negated after `-`; the empty text is rejected |
| Text.ShowNatIsNumeral | app/middleware/metrics_middleware.py:36 | the decimal form of a natural number is a numeral whose value is that number |
| Text.ParseShowInt | app/middleware/metrics_middleware.py:36 | the model's `int()` gives back every integer `n` from the model's `str(n)` (no digit limit; see Left out) |
| Config.LatencyBuckets | app/config.py:35-38 | the default latency boundaries are 16, strictly ascending, and end in +inf |
| Config.SizeBuckets | app/config.py:40-42 | the default size boundaries are 9, strictly ascending, and end in +inf |
| Config.DefaultBuckets | app/config.py:74-80 | `size` (in any case) selects the size buckets; every other type, `latency` included, selects the latency buckets; either way the result is well formed |
| Config.EnvVarName | app/config.py:61 | the variable name is the type upper-cased on ASCII letters followed by `_BUCKETS` |
| Config.StripAll | app/config.py:66 | every item is stripped, in order, and none is added or dropped |
| Config.ParseAll | app/config.py:66 | the list comprehension succeeds iff every item parses, and then yields one boundary per item, in order |
| Config.Configured | app/config.py:62-66 | a configured list exists iff the variable is set, non-empty and every comma-separated item parses; it has one boundary per comma plus one, and boundary `i` is the parse of the stripped item `i` |
| Config.GetCustomBuckets | app/config.py:57-80 | the result always ends in +inf; without a usable variable it is the default for the type; with one it is the parsed list, with +inf appended iff the list did not already end in +inf |
| Middleware.ExcludePaths | app/middleware/metrics_middleware.py:16-19 | no exclusions, or an empty set, gives `{'/metrics', '/favicon.ico'}`; a non-empty set is kept as given |
| Middleware.ContentLength | app/middleware/metrics_middleware.py:31-38 | a missing or unparseable header gives size 0, and a parseable one gives its integer value |
| Middleware.ContentLengthOfDecimal | app/middleware/metrics_middleware.py:33-38 | a header written as `str(n)` gives back `n` |
| Middleware.RecordedStatus | app/middleware/metrics_middleware.py:46-90 | a returned response is recorded with its own status; a raised `Exception` is recorded with 500; any other raised exception is not recorded |
| Middleware.Dispatched | app/middleware/metrics_middleware.py:21-94 | an excluded path changes nothing; otherwise every in-flight level ends where it began; a returned response is recorded with its status and both sizes; an `Exception` is recorded with 500 and response size 0; any other exception leaves everything but the in-flight key set unchanged |
| Middleware.MetricsMiddleware.constructor | app/middleware/metrics_middleware.py:16-19 | the middleware keeps the exclusion set `ExcludePaths` gives |
| Middleware.MetricsMiddleware.Dispatch | app/middleware/metrics_middleware.py:21-94 | the handler's outcome is passed on unchanged, and the instruments move from their old state to `Dispatched` of it |
| Middleware.MetricsMiddleware.RunHandler | app/middleware/metrics_middleware.py:46-90 | the handler's outcome is passed on; the request is recorded with the response's status and sizes, with 500 and response size 0 after an `Exception`, and not at all after any other exception |
| Middleware.DispatchedCount | app/middleware/metrics_middleware.py:64-71 | one request adds one to the counter series it is counted under and nothing to any other |
| Middleware.RequestsTotalCountsCalls | app/metrics/http_metrics.py:91-95 | over any sequence of requests, each counter series grows by exactly the number of requests counted under it |
| Middleware.ActiveBalanced | app/middleware/metrics_middleware.py:92-94 | over any sequence of completed requests, every in-flight gauge child ends at its starting value |
| Middleware.ExcludedHitsNothing | app/middleware/metrics_middleware.py:23-24 | no request to an excluded path is counted under a series of that path |
| Middleware.ExcludedNeverCounted | app/middleware/metrics_middleware.py:23-24 | requests to excluded paths never change a counter series of those paths |
| Middleware.RatesAndStartUntouched | app/metrics/http_metrics.py:46-59 | no request ever writes the two rate gauges or the application start time |
| Middleware.UptimeSinceImport | app/metrics/http_metrics.py:76 | however many requests were served, the uptime is the clock minus the import clock |
| Middleware.ThreePosts | app/middleware/metrics_middleware.py:64-71 | three POSTs to `/data` answered with 200, starting from import, leave that counter series at 3 |
| Host.DiskPercent | app/routers/health.py:49 | `used / total * 100` lies between 0 and 100 when used does not exceed total |
| Health.Issues | app/routers/health.py:38-51 | there is one issue per usage strictly above 80, ordered CPU, memory, disk, and no issue for any usage at or below 80 |
| Health.Classify | app/routers/health.py:35-55 | unhealthy iff CPU or memory is above 95; healthy iff there are no issues, iff all three usages are at most 80; warning otherwise; disk usage alone never makes the status unhealthy |
| Health.HealthCheck | app/routers/health.py:9-18 | the basic check is always healthy and carries the timestamp and the uptime |
| Health.DetailedHealthCheck | app/routers/health.py:20-87 | the result is an HTTP 500 error iff a reading raises or the disk total is 0; otherwise it carries the readings, the disk percentage and exactly `Classify`'s status and issues |
| SystemMetrics.SystemMetricNames | app/metrics/system_metrics.py:41-104 | the ten instrument names, in registration order, are pairwise distinct |
| SystemMetrics.SampleDisk | app/metrics/system_metrics.py:182-195 | `/` is written when its reading succeeds; `C:` is tried only after OSError or AccessDenied on `/`; a total of 0 escapes as ZeroDivisionError after creating that mountpoint's child at 0 and writing nothing else; no other mountpoint is touched |
| SystemMetrics.Sample | app/metrics/system_metrics.py:142-195 | one iteration raises exactly `EscapingFault`; it never touches the start time or the process info; each gauge is written exactly when its step is reached (no earlier step escaped) and its reading succeeds, and otherwise keeps its value, so an escape leaves the earlier writes and skips the rest; the disk gauge changes as `SampleDisk` says exactly when the disk step is reached, including the zero-total child |
| SystemMetrics.FdFailureSwallowed | app/metrics/system_metrics.py:155-166 | a descriptor-count failure of a swallowed kind behaves exactly like a process with no descriptor counter |
| SystemMetrics.RunSampler | app/metrics/system_metrics.py:141-202 | the loop keeps the start time and process info, runs at most the iterations given, and never reports NoSuchProcess |
| SystemMetrics.SamplerStopsAtFirstFatal | app/metrics/system_metrics.py:197-198 | the loop ends only at an iteration where NoSuchProcess escaped, and that is the first such iteration; if it never ends, every given iteration ran and none was fatal |
| SystemMetrics.SamplerStopsIffFatal | app/metrics/system_metrics.py:197-198 | the loop ends iff some iteration lets NoSuchProcess escape |
| SystemMetrics.SamplerReportsEscapes | app/metrics/system_metrics.py:199-200 | each exception that escaped an iteration before the loop ended is reported, in order |
| SystemMetrics.Collector.constructor | app/metrics/system_metrics.py:216-217 | a newly started collection thread is alive (`is_alive()`) |
| SystemMetrics.MetricsRuntime.constructor | app/metrics/system_metrics.py:9-25 | at import there is a fresh registry, nothing is registered and no thread exists |
| SystemMetrics.RegistrationFailure | app/metrics/system_metrics.py:38-111 | the registrations raise iff a constructor fails or one of the ten names is already in the registry; the first failing position wins, every name before it is absent from the registry, and a name already present raises the duplicate ValueError |
| SystemMetrics.FirstRegistrationUsesFailure | app/metrics/system_metrics.py:38-111 | into the empty registry of a fresh import, only a constructor failure can make the registrations raise |
| SystemMetrics.PartialFailureIsPermanent | app/metrics/system_metrics.py:38-111 | after a registration failed part-way, every later attempt raises the duplicate ValueError at the first instrument and registers nothing more |
| SystemMetrics.MetricsRuntime.InitializeMetrics | app/metrics/system_metrics.py:27-111 | once initialised, a call changes nothing; when the registration at the position `RegistrationFailure` gives raises, exactly the instruments before it stay registered, the flag stays down and the exception propagates; otherwise all ten are registered in order and the flag is set |
| SystemMetrics.MetricsRuntime.StartMetricsCollection | app/metrics/system_metrics.py:208-220 | a live thread is returned and nothing changes; otherwise, if initialisation is needed and raises, the exception propagates with the registrations made before it and no thread is started; otherwise a fresh, alive thread is started and stored |
| SystemMetrics.MetricsRuntime.GetMetricsRegistry | app/metrics/system_metrics.py:222-226 | the one registry is returned once initialisation has happened or succeeds, with the new registrations and nothing else changed; a raising initialisation propagates with the registrations made before it |
| SystemMetrics.MetricsRuntime.SampleOnce | app/metrics/system_metrics.py:142-195 | the gauges written and the exception returned are exactly what `Sample` says |
| SystemMetrics.MetricsRuntime.SamplerLoop | app/metrics/system_metrics.py:141-202 | the step-by-step loop ends in exactly the run `RunSampler` describes |
| SystemMetrics.MetricsRuntime.CollectSystemMetrics | app/metrics/system_metrics.py:113-202 | after initialising if needed, the start time is set, and the process info too unless its reading raises; if initialisation or the start-time reading raises, the thread ends; otherwise the loop runs as `RunSampler` says and the thread is alive iff the loop has not ended |

## Left out

- Python `float`: HTTP durations, sizes and clock readings are whole numbers, and usage percentages are exact reals, so there is no rounding, NaN or infinite reading.
- Config.GetCustomBuckets: `float()` is a parameter (`parse`) rather than a model of Python's float syntax; boundaries are finite reals or +inf, with no NaN or -inf.
- Config.GetCustomBuckets: the default lists are returned as values, so a caller changing the class attribute through the returned list is not captured.
- Text.ParseInt: only ASCII digits are accepted, not other Unicode decimal digits.
- Text.Upper: only ASCII letters are mapped; Python's full Unicode case mapping is not modelled, so `'ı'` stays `'ı'` instead of becoming `'I'`, and `'ß'` stays one character instead of becoming `'SS'` (Python's result can be longer than its input).
- Text.Lower: only ASCII letters are mapped; Python's full Unicode case mapping is not modelled. This never changes `Config.DefaultBuckets`' choice, because no text containing a non-ASCII character lower-cases to `latency` or `size`.
- Config.EnvVarName: because `Text.Upper` maps only ASCII letters, a bucket type with non-ASCII letters names a different variable than the source reads (`'sıze'` gives `SıZE_BUCKETS` in the model and `SIZE_BUCKETS` in Python).
- Text.ParseInt: CPython's limit on the digits `int()` accepts (4300 by default since 3.11 and in the 3.7–3.10 security releases) is not modelled. A `content-length` value longer than that raises ValueError in the source, giving size 0, but the model gives its value. `Text.ParseShowInt` holds for the model's `int()` only.
- Middleware.ContentLength: header names are taken as already lower-case; Starlette's case-insensitive lookup and repeated headers are not modelled.
- The two health thresholds are the literals 80 and 95 that the code uses; the `*_THRESHOLD_*` settings in `app/config.py` are never read by it and are not modelled.
- The other settings of `app/config.py` (name, host, port, log and multiprocess options, `EXCLUDE_PATHS_FROM_METRICS`, intervals) are plain constants that no core function reads, and they are left out.
- SystemMetrics.RegistrationFailure: the registry is tracked by instrument name only. The extra sample names prometheus_client reserves (such as `process_info` for the Info) are not tracked; none of the ten names collides with them. The ValueError message renders the duplicate set as Python prints a one-element set.
- Threads and locks: the two locks, the daemon thread running alongside request handling, and the race between two initialisations are not modelled; each call runs atomically.
- `time.sleep(5)` and `cpu_percent(interval=1)` are left out; the loop runs over a finite sequence of iterations instead of forever.
- The process info's contents (pid, name, command line, platform strings) are one opaque reading; the Windows/non-Windows branch for descriptor counts is folded into the `openFds` reading.
- `print` logging, the Prometheus text exposition, the FastAPI app and routers other than health, `start.py` and `app/metrics/__init__.py` are not part of this model.
- Health.DetailedHealthCheck: only CPU, memory and disk figures are carried; the platform, Python version, CPU count and memory totals in the response are left out.
