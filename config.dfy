/** Histogram bucket configuration (`Settings` in app/config.py): the default latency
    and size boundaries, and `get_custom_buckets`, which reads boundaries from the
    environment variable `<TYPE>_BUCKETS` and falls back to the defaults. */
module Config {
  import opened Wrappers
  import opened Text

  /** A histogram bucket boundary: a number or `float('inf')`. */
  datatype Bound = Finite(value: real) | PosInf

  predicate Below(a: Bound, b: Bound) {
    match (a, b)
    case (Finite(x), Finite(y)) => x < y
    case (Finite(_), PosInf) => true
    case (PosInf, _) => false
  }

  predicate StrictlyAscending(bs: seq<Bound>) {
    forall i, j :: 0 <= i < j < |bs| ==> Below(bs[i], bs[j])
  }

  /** Boundaries fit for a histogram: strictly ascending and closed by +inf. */
  predicate WellFormed(bs: seq<Bound>) {
    |bs| > 0 && bs[|bs| - 1] == PosInf && StrictlyAscending(bs)
  }

  /** `LATENCY_BUCKETS`, in seconds. */
  function LatencyBuckets(): (r: seq<Bound>)
    ensures WellFormed(r) && |r| == 16
  {
    [Finite(0.001), Finite(0.005), Finite(0.01), Finite(0.025), Finite(0.05),
     Finite(0.075), Finite(0.1), Finite(0.25), Finite(0.5), Finite(0.75),
     Finite(1.0), Finite(2.5), Finite(5.0), Finite(7.5), Finite(10.0), PosInf]
  }

  /** `SIZE_BUCKETS`, in bytes. */
  function SizeBuckets(): (r: seq<Bound>)
    ensures WellFormed(r) && |r| == 9
  {
    [Finite(1.0), Finite(10.0), Finite(100.0), Finite(1000.0), Finite(10000.0),
     Finite(100000.0), Finite(1000000.0), Finite(10000000.0), PosInf]
  }

  /** The defaults by bucket type, compared case-insensitively: size boundaries for
      "size", latency boundaries for "latency" and for every other type. */
  function DefaultBuckets(bucketType: string): (r: seq<Bound>)
    ensures Lower(bucketType) == "size" ==> r == SizeBuckets()
    ensures Lower(bucketType) != "size" ==> r == LatencyBuckets()
    ensures WellFormed(r)
  {
    if Lower(bucketType) == "latency" then LatencyBuckets()
    else if Lower(bucketType) == "size" then SizeBuckets()
    else LatencyBuckets()
  }

  /** The name of the environment variable consulted for a bucket type:
      the type upper-cased, followed by "_BUCKETS". */
  function EnvVarName(bucketType: string): (r: string)
    ensures |r| == |bucketType| + 8 && r[|bucketType|..] == "_BUCKETS"
    ensures forall i :: 0 <= i < |bucketType| ==> r[i] == UpperChar(bucketType[i])
  {
    Upper(bucketType) + "_BUCKETS"
  }

  /** `x.strip()` for every item, in order. */
  function StripAll(items: seq<string>): (r: seq<string>)
    ensures |r| == |items| && forall i :: 0 <= i < |items| ==> r[i] == Strip(items[i])
  {
    seq(|items|, i requires 0 <= i < |items| => Strip(items[i]))
  }

  /** The list comprehension `[float(x) for x in items]`: every item parsed, in order,
      or `None` (the `ValueError`) as soon as one item does not parse. */
  function ParseAll(items: seq<string>, parse: string -> Option<Bound>): (r: Option<seq<Bound>>)
    ensures r.Some? <==> forall i :: 0 <= i < |items| ==> parse(items[i]).Some?
    ensures r.Some? ==> |r.value| == |items|
    ensures r.Some? ==> forall i :: 0 <= i < |items| ==> r.value[i] == parse(items[i]).value
  {
    if items == [] then Some([])
    else
      match parse(items[0])
      case None => None
      case Some(b) =>
        match ParseAll(items[1..], parse)
        case None => None
        case Some(bs) => Some([b] + bs)
  }

  /** The boundaries a `<TYPE>_BUCKETS` variable spells out, when it is set, non-empty,
      and every comma-separated item parses: one boundary per item, in order. */
  function Configured(env: map<string, string>, bucketType: string, parse: string -> Option<Bound>)
    : (r: Option<seq<Bound>>)
    ensures var name := EnvVarName(bucketType);
      r.Some? <==> name in env && env[name] != ""
                   && forall item <- Split(env[name], ',') :: parse(Strip(item)).Some?
    ensures r.Some? ==> |r.value| == multiset(env[EnvVarName(bucketType)])[','] + 1
    ensures r.Some? ==> forall i :: 0 <= i < |r.value|
                          ==> r.value[i] == parse(Strip(Split(env[EnvVarName(bucketType)], ',')[i])).value
  {
    var name := EnvVarName(bucketType);
    if name in env && env[name] != "" then ParseAll(StripAll(Split(env[name], ',')), parse) else None
  }

  /** `Settings.get_custom_buckets(bucket_type)`. `env` is the process environment and
      `parse` is `float()` on stripped text (`None` for a `ValueError`); the values are
      not validated, so a custom list need not be ascending. The result always ends in
      +inf, which is appended only when the configured list does not already end in it. */
  method GetCustomBuckets(env: map<string, string>, bucketType: string, parse: string -> Option<Bound>)
    returns (r: seq<Bound>)
    ensures |r| > 0 && r[|r| - 1] == PosInf
    ensures Configured(env, bucketType, parse).None? ==> r == DefaultBuckets(bucketType)
    ensures Configured(env, bucketType, parse).Some? ==>
      var bs := Configured(env, bucketType, parse).value;
      && |bs| <= |r| <= |bs| + 1
      && r[..|bs|] == bs
      && (|r| == |bs| <==> bs[|bs| - 1] == PosInf)
  {
    var parsed := Configured(env, bucketType, parse);
    if parsed.Some? {
      var buckets := parsed.value;
      if buckets[|buckets| - 1] != PosInf {
        buckets := buckets + [PosInf];
        assert buckets[..|parsed.value|] == parsed.value;
      }
      return buckets;
    }
    r := DefaultBuckets(bucketType);
  }
}
