/** The health endpoints of app/routers/health.py. `/health` always reports healthy with
    the uptime; `/health/detailed` classifies CPU, memory and disk usage into a status
    and an ordered list of issues, and turns any failure while gathering the readings
    into an HTTP 500 error. */
module Health {
  import opened Wrappers
  import opened Host
  import opened HttpMetrics

  datatype Status = Healthy | Warning | Unhealthy

  /** One exceeded 80% threshold, with the usage that exceeded it. */
  datatype Issue = HighCpu(percent: real) | HighMemory(percent: real) | HighDisk(percent: real)

  /** Position of an issue kind in the report: CPU, then memory, then disk. */
  function Rank(i: Issue): nat {
    match i
    case HighCpu(_) => 0
    case HighMemory(_) => 1
    case HighDisk(_) => 2
  }

  /** The issues for the given usage percentages: one per threshold of 80 that is
      strictly exceeded, in the order CPU, memory, disk. */
  function Issues(cpu: real, memory: real, disk: real): (r: seq<Issue>)
    ensures |r| <= 3
    ensures HighCpu(cpu) in r <==> cpu > 80.0
    ensures HighMemory(memory) in r <==> memory > 80.0
    ensures HighDisk(disk) in r <==> disk > 80.0
    ensures forall i :: 0 <= i < |r| ==> r[i] in [HighCpu(cpu), HighMemory(memory), HighDisk(disk)]
    ensures forall i, j :: 0 <= i < j < |r| ==> Rank(r[i]) < Rank(r[j])
  {
    (if cpu > 80.0 then [HighCpu(cpu)] else [])
    + (if memory > 80.0 then [HighMemory(memory)] else [])
    + (if disk > 80.0 then [HighDisk(disk)] else [])
  }

  datatype Assessment = Assessment(status: Status, issues: seq<Issue>)

  /** The classification of `detailed_health_check`, stated outright: unhealthy exactly
      when CPU or memory is above 95, healthy exactly when no issue is reported, and a
      warning otherwise. Disk usage alone, however high, never makes the status
      unhealthy, and all thresholds are strict. */
  function Classify(cpu: real, memory: real, disk: real): (r: Assessment)
    ensures r.issues == Issues(cpu, memory, disk)
    ensures r.status == Unhealthy <==> cpu > 95.0 || memory > 95.0
    ensures r.status == Healthy <==> r.issues == []
    ensures r.status == Healthy <==> cpu <= 80.0 && memory <= 80.0 && disk <= 80.0
    ensures r.status == Warning <==> r.issues != [] && cpu <= 95.0 && memory <= 95.0
  {
    var issues := Issues(cpu, memory, disk);
    if cpu > 95.0 || memory > 95.0 then Assessment(Unhealthy, issues)
    else if issues == [] then Assessment(Healthy, issues)
    else Assessment(Warning, issues)
  }

  datatype BasicHealth = BasicHealth(status: Status, timestamp: int, uptime: int)

  /** `health_check()`: always healthy, with the clock `stamp` and the uptime at
      clock `now`. */
  function HealthCheck(metrics: HttpInstruments, stamp: int, now: int): (r: BasicHealth)
    reads metrics
    ensures r.status == Healthy && r.timestamp == stamp
    ensures r.uptime == now - metrics.startTime
  {
    BasicHealth(Healthy, stamp, metrics.ApplicationUptime(now))
  }

  datatype DetailedHealth = DetailedHealth(
    status: Status, timestamp: int, uptime: int,
    cpuPercent: real, memoryPercent: real, diskPercent: real, issues: seq<Issue>)

  /** The `HTTPException` raised when a reading fails. */
  datatype HttpError = HttpError(statusCode: int, cause: Fault)

  /** `detailed_health_check()`, with the three psutil readings as inputs, `now` the
      clock read for the uptime and `stamp` the clock read for the timestamp. */
  method DetailedHealthCheck(metrics: HttpInstruments, cpu: Reading<real>, memory: Reading<real>,
                             disk: Reading<DiskUsage>, now: int, stamp: int)
    returns (r: Result<DetailedHealth, HttpError>)
    ensures r.Err? <==> cpu.Raise? || memory.Raise? || disk.Raise? || disk.value.total == 0
    ensures r.Err? ==> r.error.statusCode == 500
    ensures r.Ok? ==> r.value.diskPercent == DiskPercent(disk.value)
    ensures r.Ok? ==> Assessment(r.value.status, r.value.issues)
                      == Classify(cpu.value, memory.value, DiskPercent(disk.value))
    ensures r.Ok? ==> r.value.uptime == now - metrics.startTime && r.value.timestamp == stamp
    ensures r.Ok? ==> r.value.cpuPercent == cpu.value && r.value.memoryPercent == memory.value
  {
    if cpu.Raise? { return Err(HttpError(500, cpu.fault)); }
    if memory.Raise? { return Err(HttpError(500, memory.fault)); }
    if disk.Raise? { return Err(HttpError(500, disk.fault)); }
    var cpuPercent, memoryPercent, usage := cpu.value, memory.value, disk.value;
    var uptime := metrics.ApplicationUptime(now);

    var status := Healthy;
    var issues: seq<Issue> := [];
    if cpuPercent > 80.0 {
      status := Warning;
      issues := issues + [HighCpu(cpuPercent)];
    }
    if memoryPercent > 80.0 {
      status := Warning;
      issues := issues + [HighMemory(memoryPercent)];
    }
    if usage.total == 0 {
      return Err(HttpError(500, ZeroDivision));
    }
    var diskPercent := DiskPercent(usage);
    if diskPercent > 80.0 {
      status := Warning;
      issues := issues + [HighDisk(diskPercent)];
    }
    if cpuPercent > 95.0 || memoryPercent > 95.0 {
      status := Unhealthy;
    }
    r := Ok(DetailedHealth(status, stamp, uptime, cpuPercent, memoryPercent, diskPercent, issues));
  }
}
