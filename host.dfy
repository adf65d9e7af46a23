/** Operating-system readings (psutil and friends) as inputs: each reading either
    yields a value or raises one of the exceptions the core tells apart. */
module Host {

  /** The exceptions a reading can raise: psutil's NoSuchProcess and AccessDenied,
      OSError, AttributeError, the ZeroDivisionError of a disk whose total is 0, and
      any other exception. */
  datatype Fault = NoSuchProcess | AccessDenied | OSError | AttributeError | ZeroDivision | OtherError

  datatype Reading<+T> = Read(value: T) | Raise(fault: Fault)

  /** `psutil.disk_usage(path)`, in bytes. */
  datatype DiskUsage = DiskUsage(used: nat, total: nat)

  /** `(used / total) * 100`, in exact arithmetic. */
  function DiskPercent(u: DiskUsage): (p: real)
    requires u.total > 0
    ensures u.used <= u.total ==> 0.0 <= p <= 100.0
  {
    (u.used as real / u.total as real) * 100.0
  }
}
