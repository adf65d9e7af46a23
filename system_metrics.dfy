/** app/metrics/system_metrics.py: the process and host gauges, their one-time
    registration, the sampler loop that refreshes them and the start of the thread that
    runs it. The OS readings of each loop iteration are inputs (`Iteration`), the
    thread is a `Collector` object whose liveness is a flag, and the loop runs over a
    finite prefix of its iterations. */
module SystemMetrics {
  import opened Wrappers
  import opened Host

  /** The instruments `initialize_metrics` registers, in order. */
  function SystemMetricNames(): (r: seq<string>)
    ensures |r| == 10
    ensures forall i, j :: 0 <= i < j < |r| ==> r[i] != r[j]
  {
    ["process_cpu_seconds_total", "process_resident_memory_bytes", "process_virtual_memory_bytes",
     "process_start_time_seconds", "process_open_fds", "process_threads",
     "system_cpu_usage_percent", "system_memory_usage_percent", "system_disk_usage_percent",
     "process"]
  }

  datatype MemoryInfo = MemoryInfo(rss: real, vms: real)

  /** The OS readings one loop iteration takes, in the order it takes them. */
  datatype Iteration = Iteration(
    cpuTimes: Reading<real>,          // user + system CPU seconds of the process
    memory: Reading<MemoryInfo>,      // resident and virtual memory of the process
    openFds: Reading<Option<real>>,   // num_fds (num_handles on Windows); None when the process object lacks it
    threads: Reading<real>,           // num_threads
    cpuPercent: Reading<real>,        // host CPU percent
    memoryPercent: Reading<real>,     // host memory percent
    diskRoot: Reading<DiskUsage>,     // disk_usage('/')
    diskC: Reading<DiskUsage>)        // disk_usage('C:\\')

  /** The values of the ten system instruments. */
  datatype SamplerGauges = SamplerGauges(
    cpuSeconds: real, residentMemory: real, virtualMemory: real, startTime: real,
    openFds: real, threads: real, cpuPercent: real, memoryPercent: real,
    diskUsage: map<string, real>,     // system_disk_usage_percent, by mountpoint
    processInfo: map<string, string>) // the `process` Info

  function FreshGauges(): SamplerGauges {
    SamplerGauges(0.0, 0.0, 0.0, 0.0, 0.0, 0.0, 0.0, 0.0, map[], map[])
  }

  /** Exceptions the descriptor-count step swallows. */
  predicate FdFaultSwallowed(f: Fault) {
    f == AttributeError || f == AccessDenied || f == NoSuchProcess || f == OSError
  }

  /** Exceptions the disk steps swallow. */
  predicate DiskFaultSwallowed(f: Fault) {
    f == OSError || f == AccessDenied
  }

  /** `system_disk_usage_percent.labels(mountpoint=m)`: the child exists from here on. */
  function DiskChild(usage: map<string, real>, m: string): map<string, real> {
    if m in usage then usage else usage[m := 0.0]
  }

  /** The exception that escapes the disk step: `/` is tried first and `C:` only when
      `/` raised an OSError or AccessDenied; a zero total is a ZeroDivisionError. */
  function DiskEscape(root: Reading<DiskUsage>, c: Reading<DiskUsage>): Option<Fault>
  {
    match root
    case Read(u) => if u.total == 0 then Some(ZeroDivision) else None
    case Raise(f) =>
      if !DiskFaultSwallowed(f) then Some(f)
      else match c
        case Read(u) => if u.total == 0 then Some(ZeroDivision) else None
        case Raise(g) => if DiskFaultSwallowed(g) then None else Some(g)
  }

  datatype DiskStep = DiskStep(usage: map<string, real>, escaped: Option<Fault>)

  /** The disk step: the gauge is written for `/` when that reading succeeds, otherwise
      for `C:` when that one is tried and succeeds, otherwise for neither. */
  function SampleDisk(usage: map<string, real>, root: Reading<DiskUsage>, c: Reading<DiskUsage>): (r: DiskStep)
    ensures r.escaped == DiskEscape(root, c)
    ensures root.Read? && root.value.total > 0 ==> r.usage == usage["/" := DiskPercent(root.value)]
    ensures (root.Raise? && DiskFaultSwallowed(root.fault) && c.Read? && c.value.total > 0)
            ==> r.usage == usage["C:" := DiskPercent(c.value)]
    ensures root.Raise? && (!DiskFaultSwallowed(root.fault) || c.Raise?) ==> r.usage == usage
    ensures root.Read? && root.value.total == 0 ==> r.usage == DiskChild(usage, "/")
    ensures (root.Raise? && DiskFaultSwallowed(root.fault) && c.Read? && c.value.total == 0)
            ==> r.usage == DiskChild(usage, "C:")
    ensures forall m :: m != "/" && m != "C:" ==> (m in r.usage <==> m in usage)
    ensures forall m :: m in usage && m != "/" && m != "C:" ==> r.usage[m] == usage[m]
  {
    match root
    case Read(u) =>
      var child := DiskChild(usage, "/");
      if u.total == 0 then DiskStep(child, Some(ZeroDivision))
      else DiskStep(child["/" := DiskPercent(u)], None)
    case Raise(f) =>
      if !DiskFaultSwallowed(f) then DiskStep(usage, Some(f))
      else match c
        case Read(u) =>
          var child := DiskChild(usage, "C:");
          if u.total == 0 then DiskStep(child, Some(ZeroDivision))
          else DiskStep(child["C:" := DiskPercent(u)], None)
        case Raise(g) => DiskStep(usage, if DiskFaultSwallowed(g) then None else Some(g))
  }

  /** The error policy of one iteration: the exception that escapes to the loop's
      handlers, if any. Readings are taken in order and the first one that raises ends
      the iteration, except that the descriptor count swallows AttributeError,
      AccessDenied, NoSuchProcess and OSError, and the disk step its own. */
  function EscapingFault(it: Iteration): Option<Fault>
  {
    if it.cpuTimes.Raise? then Some(it.cpuTimes.fault)
    else if it.memory.Raise? then Some(it.memory.fault)
    else if it.openFds.Raise? && !FdFaultSwallowed(it.openFds.fault) then Some(it.openFds.fault)
    else if it.threads.Raise? then Some(it.threads.fault)
    else if it.cpuPercent.Raise? then Some(it.cpuPercent.fault)
    else if it.memoryPercent.Raise? then Some(it.memoryPercent.fault)
    else DiskEscape(it.diskRoot, it.diskC)
  }

  /** An iteration that ends the loop: NoSuchProcess escaped. */
  predicate Fatal(it: Iteration) {
    EscapingFault(it) == Some(NoSuchProcess)
  }

  /** Whether the step at position `k` of an iteration is reached (0 CPU times, 1 memory,
      2 descriptor count, 3 threads, 4 host CPU, 5 host memory, 6 disk): no step before
      it raised an exception that escapes. */
  predicate Reaches(it: Iteration, k: nat) {
    && (k > 0 ==> it.cpuTimes.Read?)
    && (k > 1 ==> it.memory.Read?)
    && (k > 2 ==> !(it.openFds.Raise? && !FdFaultSwallowed(it.openFds.fault)))
    && (k > 3 ==> it.threads.Read?)
    && (k > 4 ==> it.cpuPercent.Read?)
    && (k > 5 ==> it.memoryPercent.Read?)
  }

  datatype SampleStep = SampleStep(gauges: SamplerGauges, escaped: Option<Fault>)

  /** One pass of the loop body on the gauges. It never writes the start time or the
      process info. Each gauge is written exactly when its step is reached and its
      reading succeeds, and otherwise keeps its value: an escaping exception leaves the
      writes before it in place and skips the rest. When nothing escapes, every reading
      has been written (the descriptor count when there was one, the disk as
      `SampleDisk` says); when the first reading raises, nothing has been written. */
  function Sample(g: SamplerGauges, it: Iteration): (r: SampleStep)
    ensures r.escaped == EscapingFault(it)
    ensures r.gauges.startTime == g.startTime && r.gauges.processInfo == g.processInfo
    ensures r.gauges.cpuSeconds == (if it.cpuTimes.Read? then it.cpuTimes.value else g.cpuSeconds)
    ensures Reaches(it, 1) && it.memory.Read? ==>
      r.gauges.residentMemory == it.memory.value.rss && r.gauges.virtualMemory == it.memory.value.vms
    ensures !(Reaches(it, 1) && it.memory.Read?) ==>
      r.gauges.residentMemory == g.residentMemory && r.gauges.virtualMemory == g.virtualMemory
    ensures r.gauges.openFds ==
      (if Reaches(it, 2) && it.openFds.Read? && it.openFds.value.Some? then it.openFds.value.value else g.openFds)
    ensures r.gauges.threads == (if Reaches(it, 3) && it.threads.Read? then it.threads.value else g.threads)
    ensures r.gauges.cpuPercent == (if Reaches(it, 4) && it.cpuPercent.Read? then it.cpuPercent.value else g.cpuPercent)
    ensures r.gauges.memoryPercent ==
      (if Reaches(it, 5) && it.memoryPercent.Read? then it.memoryPercent.value else g.memoryPercent)
    ensures r.gauges.diskUsage ==
      (if Reaches(it, 6) then SampleDisk(g.diskUsage, it.diskRoot, it.diskC).usage else g.diskUsage)
    ensures it.cpuTimes.Raise? ==> r.gauges == g
    ensures r.escaped.None? ==>
      && r.gauges.cpuSeconds == it.cpuTimes.value
      && r.gauges.residentMemory == it.memory.value.rss
      && r.gauges.virtualMemory == it.memory.value.vms
      && r.gauges.threads == it.threads.value
      && r.gauges.cpuPercent == it.cpuPercent.value
      && r.gauges.memoryPercent == it.memoryPercent.value
      && r.gauges.openFds == (if it.openFds.Read? && it.openFds.value.Some? then it.openFds.value.value else g.openFds)
      && r.gauges.diskUsage == SampleDisk(g.diskUsage, it.diskRoot, it.diskC).usage
  {
    if it.cpuTimes.Raise? then SampleStep(g, Some(it.cpuTimes.fault))
    else
      var g1 := g.(cpuSeconds := it.cpuTimes.value);
      if it.memory.Raise? then SampleStep(g1, Some(it.memory.fault))
      else
        var g2 := g1.(residentMemory := it.memory.value.rss, virtualMemory := it.memory.value.vms);
        if it.openFds.Raise? && !FdFaultSwallowed(it.openFds.fault) then SampleStep(g2, Some(it.openFds.fault))
        else
          var g3 := if it.openFds.Read? && it.openFds.value.Some? then g2.(openFds := it.openFds.value.value) else g2;
          if it.threads.Raise? then SampleStep(g3, Some(it.threads.fault))
          else
            var g4 := g3.(threads := it.threads.value);
            if it.cpuPercent.Raise? then SampleStep(g4, Some(it.cpuPercent.fault))
            else
              var g5 := g4.(cpuPercent := it.cpuPercent.value);
              if it.memoryPercent.Raise? then SampleStep(g5, Some(it.memoryPercent.fault))
              else
                var g6 := g5.(memoryPercent := it.memoryPercent.value);
                var d := SampleDisk(g6.diskUsage, it.diskRoot, it.diskC);
                SampleStep(g6.(diskUsage := d.usage), d.escaped)
  }

  /** A descriptor-count failure of a swallowed kind does not abort the iteration: it
      behaves exactly as if the process had no descriptor counter. */
  lemma FdFailureSwallowed(g: SamplerGauges, it: Iteration)
    requires it.openFds.Raise? && FdFaultSwallowed(it.openFds.fault)
    ensures Sample(g, it) == Sample(g, it.(openFds := Read(None)))
  {
  }

  /** The outcome of running the loop over a sequence of iterations: the gauges, how
      many iterations ran, whether the loop ended, and the exceptions it reported. */
  datatype SamplerRun = SamplerRun(gauges: SamplerGauges, iterations: nat, stopped: bool, reported: seq<Fault>)

  /** The `while True` loop over the given iterations: NoSuchProcess ends it, any other
      escaping exception is reported and the loop goes on. */
  function RunSampler(g: SamplerGauges, its: seq<Iteration>): (r: SamplerRun)
    ensures r.iterations <= |its|
    ensures r.gauges.startTime == g.startTime && r.gauges.processInfo == g.processInfo
    ensures NoSuchProcess !in r.reported
    decreases |its|
  {
    if its == [] then SamplerRun(g, 0, false, [])
    else
      var step := Sample(g, its[0]);
      if step.escaped == Some(NoSuchProcess) then SamplerRun(step.gauges, 1, true, [])
      else
        var rest := RunSampler(step.gauges, its[1..]);
        SamplerRun(rest.gauges, rest.iterations + 1, rest.stopped,
                   (if step.escaped.Some? then [step.escaped.value] else []) + rest.reported)
  }

  /** The exceptions reported for a run of non-fatal iterations, in order. */
  function ReportedFaults(its: seq<Iteration>): seq<Fault>
    decreases |its|
  {
    if its == [] then []
    else (if EscapingFault(its[0]).Some? then [EscapingFault(its[0]).value] else []) + ReportedFaults(its[1..])
  }

  /** The loop ends only at an iteration where NoSuchProcess escaped, and then it is the
      last iteration run; every iteration before it was not fatal. */
  lemma {:induction false} SamplerStopsAtFirstFatal(g: SamplerGauges, its: seq<Iteration>)
    ensures var r := RunSampler(g, its);
      && (r.stopped ==> r.iterations >= 1 && Fatal(its[r.iterations - 1]))
      && (forall k :: 0 <= k < r.iterations - 1 ==> !Fatal(its[k]))
      && (!r.stopped ==> r.iterations == |its| && forall k :: 0 <= k < |its| ==> !Fatal(its[k]))
    decreases |its|
  {
    if its != [] {
      var step := Sample(g, its[0]);
      if step.escaped != Some(NoSuchProcess) {
        SamplerStopsAtFirstFatal(step.gauges, its[1..]);
        assert forall k :: 1 <= k < |its| ==> its[k] == its[1..][k - 1];
      }
    }
  }

  /** The loop ends if and only if one of the iterations is fatal. */
  lemma SamplerStopsIffFatal(g: SamplerGauges, its: seq<Iteration>)
    ensures RunSampler(g, its).stopped <==> exists k :: 0 <= k < |its| && Fatal(its[k])
  {
    SamplerStopsAtFirstFatal(g, its);
  }

  /** Every exception that escaped an iteration before the loop ended was reported, in order. */
  lemma {:induction false} SamplerReportsEscapes(g: SamplerGauges, its: seq<Iteration>)
    ensures var r := RunSampler(g, its);
      r.reported == ReportedFaults(its[..if r.stopped then r.iterations - 1 else r.iterations])
    decreases |its|
  {
    if its != [] {
      var step := Sample(g, its[0]);
      if step.escaped == Some(NoSuchProcess) {
        assert its[..0] == [];
      } else {
        var rest := RunSampler(step.gauges, its[1..]);
        SamplerReportsEscapes(step.gauges, its[1..]);
        var n := if rest.stopped then rest.iterations - 1 else rest.iterations;
        assert its[..n + 1][1..] == its[1..][..n];
        assert its[..n + 1][0] == its[0];
      }
    }
  }

  /** One step of `RunSampler` from position `i`. */
  lemma RunSamplerStep(g: SamplerGauges, its: seq<Iteration>, i: nat)
    requires i < |its|
    ensures var step := Sample(g, its[i]);
      RunSampler(g, its[i..]) ==
        if step.escaped == Some(NoSuchProcess) then SamplerRun(step.gauges, 1, true, [])
        else
          var rest := RunSampler(step.gauges, its[i + 1..]);
          SamplerRun(rest.gauges, rest.iterations + 1, rest.stopped,
                     (if step.escaped.Some? then [step.escaped.value] else []) + rest.reported)
  {
    assert its[i..][0] == its[i] && its[i..][1..] == its[i + 1..];
  }

  lemma AppendAssoc<T>(a: seq<T>, b: seq<T>, c: seq<T>)
    ensures (a + b) + c == a + (b + c)
  {
  }

  // ---------------------------------------------------------------------------
  // The module-level state

  /** `METRICS_REGISTRY`, the registry the instruments are registered in. */
  class Registry {
    constructor () {}
  }

  /** The collection thread; `alive` is `is_alive()`. */
  class Collector {
    var alive: bool

    constructor ()
      ensures alive
    {
      alive := true;
    }
  }

  datatype Outcome = Done | Failed(reason: string)

  /** The position of an instrument in `SystemMetricNames()`. */
  type InstrumentIndex = i: int | 0 <= i < 10

  /** An exception raised while registering: the instruments before position `at` were
      registered, the one at `at` raised `reason`. */
  datatype InitFailure = InitFailure(at: InstrumentIndex, reason: string)

  /** The message of the ValueError a registry raises for a name it already holds. */
  function DuplicateReason(name: string): string {
    "Duplicated timeseries in CollectorRegistry: {'" + name + "'}"
  }

  /** The first position from `k` on whose instrument name the registry already holds. */
  function FirstRegistered(registered: seq<string>, k: nat): (r: Option<InstrumentIndex>)
    requires k <= 10
    ensures r.Some? ==> k <= r.value && SystemMetricNames()[r.value] in registered
    ensures r.Some? ==> forall j :: k <= j < r.value ==> SystemMetricNames()[j] !in registered
    ensures r.None? ==> forall j :: k <= j < 10 ==> SystemMetricNames()[j] !in registered
    decreases 10 - k
  {
    if k == 10 then None
    else if SystemMetricNames()[k] in registered then Some(k)
    else FirstRegistered(registered, k + 1)
  }

  /** The exception the registrations of `initialize_metrics` raise, given what the
      registry holds and `failure`, an exception a constructor would raise for another
      reason: the first of the two positions wins, and a name already registered raises
      a duplicate ValueError. */
  function RegistrationFailure(registered: seq<string>, failure: Option<InitFailure>): (r: Option<InitFailure>)
    ensures r.None? <==> failure.None? && forall j :: 0 <= j < 10 ==> SystemMetricNames()[j] !in registered
    ensures r.Some? ==> forall j :: 0 <= j < r.value.at ==> SystemMetricNames()[j] !in registered
    ensures r.Some? && SystemMetricNames()[r.value.at] in registered ==>
      r.value.reason == DuplicateReason(SystemMetricNames()[r.value.at])
    ensures r.Some? && SystemMetricNames()[r.value.at] !in registered ==> r == failure
    ensures failure.Some? ==> r.Some? && r.value.at <= failure.value.at
  {
    match FirstRegistered(registered, 0)
    case None => failure
    case Some(d) =>
      if failure.Some? && failure.value.at < d then failure
      else Some(InitFailure(d, DuplicateReason(SystemMetricNames()[d])))
  }

  /** Into an empty registry only `failure` can raise. */
  lemma FirstRegistrationUsesFailure(failure: Option<InitFailure>)
    ensures RegistrationFailure([], failure) == failure
  {
    assert FirstRegistered([], 0).None?;
  }

  /** Once a registration failed part-way, the first instrument is in the registry, so
      every later attempt fails at once with the duplicate ValueError and registers
      nothing more. */
  lemma {:induction false} PartialFailureIsPermanent(k: nat, failure: Option<InitFailure>)
    requires 0 < k <= 10
    ensures RegistrationFailure(SystemMetricNames()[..k], failure) ==
      Some(InitFailure(0, DuplicateReason("process_cpu_seconds_total")))
  {
    assert SystemMetricNames()[..k][0] == "process_cpu_seconds_total";
  }

  /** The globals of app/metrics/system_metrics.py. */
  class MetricsRuntime {
    const registry: Registry
    /** `_metrics_initialized`. */
    var initialized: bool
    /** The instruments registered in `registry`, in registration order. */
    var registered: seq<string>
    var gauges: SamplerGauges
    /** `_collection_thread`. */
    var collectionThread: Collector?

    /** Module import: a fresh registry, nothing registered, no thread. */
    constructor ()
      ensures fresh(registry)
      ensures !initialized && registered == [] && gauges == FreshGauges() && collectionThread == null
    {
      registry := new Registry();
      initialized := false;
      registered := [];
      gauges := FreshGauges();
      collectionThread := null;
    }

    /** `initialize_metrics()`. `failure` is the exception a constructor would raise for
        a reason other than a duplicate name, if one would. Once initialised, a call
        returns at once and registers nothing. Otherwise the instruments are registered
        in order; when one raises (as `RegistrationFailure` says), those before it stay
        registered, the flag stays down and the exception propagates. */
    method InitializeMetrics(failure: Option<InitFailure>) returns (r: Outcome)
      modifies this
      ensures old(initialized) ==> r == Done && unchanged(this)
      ensures !old(initialized) && RegistrationFailure(old(registered), failure).Some? ==>
        var f := RegistrationFailure(old(registered), failure).value;
        && r == Failed(f.reason) && !initialized
        && registered == old(registered) + SystemMetricNames()[..f.at]
        && gauges == old(gauges) && collectionThread == old(collectionThread)
      ensures !old(initialized) && RegistrationFailure(old(registered), failure).None? ==>
        && r == Done && initialized
        && registered == old(registered) + SystemMetricNames()
        && gauges == old(gauges) && collectionThread == old(collectionThread)
    {
      if initialized {
        return Done;
      }
      var raised := RegistrationFailure(registered, failure);
      if raised.Some? {
        registered := registered + SystemMetricNames()[..raised.value.at];
        return Failed(raised.value.reason);
      }
      registered := registered + SystemMetricNames();
      initialized := true;
      r := Done;
    }

    // In the three entry points below, `initFailure` is the `failure` that
    // `InitializeMetrics` would be given.

    /** `start_metrics_collection()`: when there is no thread, or it is no longer alive,
        initialise (if needed) and start a new one; otherwise return the running one
        untouched. */
    method StartMetricsCollection(initFailure: Option<InitFailure>) returns (r: Result<Collector, string>)
      modifies this
      ensures old(collectionThread) != null && old(collectionThread.alive) ==>
        r == Ok(old(collectionThread)) && unchanged(this)
      ensures var raised := RegistrationFailure(old(registered), initFailure);
        (old(collectionThread) == null || !old(collectionThread.alive)) && !old(initialized) && raised.Some? ==>
        && r == Err(raised.value.reason) && !initialized
        && registered == old(registered) + SystemMetricNames()[..raised.value.at]
        && gauges == old(gauges) && collectionThread == old(collectionThread)
      ensures var raised := RegistrationFailure(old(registered), initFailure);
        (old(collectionThread) == null || !old(collectionThread.alive)) && (old(initialized) || raised.None?) ==>
        && r.Ok? && fresh(r.value) && r.value.alive && collectionThread == r.value
        && initialized
        && registered == (if old(initialized) then old(registered) else old(registered) + SystemMetricNames())
        && gauges == old(gauges)
    {
      if collectionThread == null || !collectionThread.alive {
        if !initialized {
          var o := InitializeMetrics(initFailure);
          if o.Failed? {
            return Err(o.reason);
          }
        }
        collectionThread := new Collector();
      }
      r := Ok(collectionThread);
    }

    /** `get_metrics_registry()`: initialise if needed, then always the same registry. */
    method GetMetricsRegistry(initFailure: Option<InitFailure>) returns (r: Result<Registry, string>)
      modifies this
      ensures r.Ok? <==> old(initialized) || RegistrationFailure(old(registered), initFailure).None?
      ensures r.Ok? ==> r.value == registry && initialized
      ensures old(initialized) ==> unchanged(this)
      ensures !old(initialized) && RegistrationFailure(old(registered), initFailure).None? ==>
        && registered == old(registered) + SystemMetricNames()
        && gauges == old(gauges) && collectionThread == old(collectionThread)
      ensures var raised := RegistrationFailure(old(registered), initFailure);
        !old(initialized) && raised.Some? ==>
        && r == Err(raised.value.reason) && !initialized
        && registered == old(registered) + SystemMetricNames()[..raised.value.at]
        && gauges == old(gauges) && collectionThread == old(collectionThread)
    {
      if !initialized {
        var o := InitializeMetrics(initFailure);
        if o.Failed? {
          return Err(o.reason);
        }
      }
      r := Ok(registry);
    }

    /** One pass of the loop body of `collect_system_metrics`: read the process and
        host values in order and set the gauges, stopping at the first exception that
        is not swallowed, which is returned. */
    method SampleOnce(it: Iteration) returns (escaped: Option<Fault>)
      modifies this
      ensures SampleStep(gauges, escaped) == Sample(old(gauges), it)
      ensures initialized == old(initialized) && registered == old(registered)
      ensures collectionThread == old(collectionThread)
    {
      escaped := None;
      label attempt: {
        match it.cpuTimes {
          case Raise(f) => escaped := Some(f); break attempt;
          case Read(v) => gauges := gauges.(cpuSeconds := v);
        }
        match it.memory {
          case Raise(f) => escaped := Some(f); break attempt;
          case Read(m) => gauges := gauges.(residentMemory := m.rss, virtualMemory := m.vms);
        }
        match it.openFds {
          case Raise(f) =>
            if !FdFaultSwallowed(f) { escaped := Some(f); break attempt; }
          case Read(n) =>
            if n.Some? { gauges := gauges.(openFds := n.value); }
        }
        match it.threads {
          case Raise(f) => escaped := Some(f); break attempt;
          case Read(v) => gauges := gauges.(threads := v);
        }
        match it.cpuPercent {
          case Raise(f) => escaped := Some(f); break attempt;
          case Read(v) => gauges := gauges.(cpuPercent := v);
        }
        match it.memoryPercent {
          case Raise(f) => escaped := Some(f); break attempt;
          case Read(v) => gauges := gauges.(memoryPercent := v);
        }
        match it.diskRoot {
          case Read(u) =>
            gauges := gauges.(diskUsage := DiskChild(gauges.diskUsage, "/"));
            if u.total == 0 { escaped := Some(ZeroDivision); break attempt; }
            gauges := gauges.(diskUsage := gauges.diskUsage["/" := DiskPercent(u)]);
          case Raise(f) =>
            if !DiskFaultSwallowed(f) { escaped := Some(f); break attempt; }
            match it.diskC {
              case Read(u) =>
                gauges := gauges.(diskUsage := DiskChild(gauges.diskUsage, "C:"));
                if u.total == 0 { escaped := Some(ZeroDivision); break attempt; }
                gauges := gauges.(diskUsage := gauges.diskUsage["C:" := DiskPercent(u)]);
              case Raise(g) =>
                if !DiskFaultSwallowed(g) { escaped := Some(g); break attempt; }
            }
        }
      }
    }

    /** The `while True` loop of `collect_system_metrics` over the iterations given:
        NoSuchProcess breaks out of it, any other exception that escapes an iteration is
        reported and the loop goes on. */
    method SamplerLoop(its: seq<Iteration>) returns (run: SamplerRun)
      modifies this
      ensures run == RunSampler(old(gauges), its) && gauges == run.gauges
      ensures initialized == old(initialized) && registered == old(registered)
      ensures collectionThread == old(collectionThread)
    {
      ghost var expected := RunSampler(gauges, its);
      var i := 0;
      var reported: seq<Fault> := [];
      var stopped := false;
      while i < |its|
        invariant 0 <= i <= |its|
        invariant var rest := RunSampler(gauges, its[i..]);
          expected == SamplerRun(rest.gauges, rest.iterations + i, rest.stopped, reported + rest.reported)
        invariant initialized == old(initialized) && registered == old(registered)
        invariant collectionThread == old(collectionThread)
        decreases |its| - i
      {
        ghost var g := gauges;
        var escaped := SampleOnce(its[i]);
        RunSamplerStep(g, its, i);
        if escaped == Some(NoSuchProcess) {
          stopped := true;
          i := i + 1;
          break;
        }
        var noted := if escaped.Some? then [escaped.value] else [];
        AppendAssoc(reported, noted, RunSampler(gauges, its[i + 1..]).reported);
        reported := reported + noted;
        i := i + 1;
      }
      if !stopped {
        assert its[i..] == [];
      }
      run := SamplerRun(gauges, i, stopped, reported);
    }

    /** `collect_system_metrics()` as run by `thread`: initialise if needed, set the
        process start time and process info once, then loop over `its`. The thread ends
        (is no longer alive) when initialisation or the start-time reading raises, or
        when the loop ends; otherwise it is still looping after the last iteration given.
        Returns the loop's run, including the exceptions it reported. */
    method CollectSystemMetrics(thread: Collector, initFailure: Option<InitFailure>, createTime: Reading<real>,
                                info: Reading<map<string, string>>, its: seq<Iteration>)
      returns (run: Option<SamplerRun>)
      modifies this, thread
      ensures collectionThread == old(collectionThread)
      ensures var raised := RegistrationFailure(old(registered), initFailure);
        !old(initialized) && raised.Some? ==>
        && run.None? && !thread.alive && !initialized
        && registered == old(registered) + SystemMetricNames()[..raised.value.at]
        && gauges == old(gauges)
      ensures (old(initialized) || RegistrationFailure(old(registered), initFailure).None?) ==>
        && initialized
        && registered == (if old(initialized) then old(registered) else old(registered) + SystemMetricNames())
      ensures (old(initialized) || RegistrationFailure(old(registered), initFailure).None?) && createTime.Raise? ==>
        run.None? && !thread.alive && gauges == old(gauges)
      ensures (old(initialized) || RegistrationFailure(old(registered), initFailure).None?) && createTime.Read? ==>
        var prepared := old(gauges).(startTime := createTime.value,
                                     processInfo := if info.Read? then info.value else old(gauges).processInfo);
        && run == Some(RunSampler(prepared, its))
        && gauges == run.value.gauges
        && thread.alive == !run.value.stopped
    {
      if !initialized {
        var o := InitializeMetrics(initFailure);
        if o.Failed? {
          thread.alive := false;
          return None;
        }
      }
      if createTime.Raise? {
        thread.alive := false;
        return None;
      }
      gauges := gauges.(startTime := createTime.value);
      if info.Read? {
        gauges := gauges.(processInfo := info.value);
      }
      var r := SamplerLoop(its);
      run := Some(r);
      thread.alive := !r.stopped;
    }
  }
}
