/** An abstract stand-in for the prometheus_client instruments the core writes to.
    Each instrument is a map from a label tuple to its child's value. A child that was
    never touched reads as zero (or as no observations): `labels(...)` creates it
    lazily, at zero, on first use, and it is never removed afterwards. */
module MetricStore {

  /** Counter children: non-negative totals. */
  type CounterVec<K> = map<K, nat>
  /** Gauge children: arbitrary whole values. */
  type GaugeVec<K> = map<K, int>
  /** Histogram children: the observations made so far, oldest first. Bucket counts,
      `_sum` and `_count` are all functions of this sequence. */
  type HistogramVec<K> = map<K, seq<int>>

  function Count<K(!new)>(c: CounterVec<K>, k: K): nat {
    if k in c then c[k] else 0
  }

  function Level<K(!new)>(g: GaugeVec<K>, k: K): int {
    if k in g then g[k] else 0
  }

  function Observations<K(!new)>(h: HistogramVec<K>, k: K): seq<int> {
    if k in h then h[k] else []
  }

  /** `counter.labels(k).inc()`. */
  function Inc<K(!new)>(c: CounterVec<K>, k: K): (r: CounterVec<K>)
    ensures r.Keys == c.Keys + {k}
    ensures Count(r, k) == Count(c, k) + 1
    ensures forall j :: j != k ==> Count(r, j) == Count(c, j)
  {
    c[k := Count(c, k) + 1]
  }

  /** `gauge.labels(k).inc()`. */
  function GaugeInc<K(!new)>(g: GaugeVec<K>, k: K): (r: GaugeVec<K>)
    ensures r.Keys == g.Keys + {k}
    ensures Level(r, k) == Level(g, k) + 1
    ensures forall j :: j != k ==> Level(r, j) == Level(g, j)
  {
    g[k := Level(g, k) + 1]
  }

  /** `gauge.labels(k).dec()`. */
  function GaugeDec<K(!new)>(g: GaugeVec<K>, k: K): (r: GaugeVec<K>)
    ensures r.Keys == g.Keys + {k}
    ensures Level(r, k) == Level(g, k) - 1
    ensures forall j :: j != k ==> Level(r, j) == Level(g, j)
  {
    g[k := Level(g, k) - 1]
  }

  /** `histogram.labels(k).observe(v)`. */
  function Observe<K(!new)>(h: HistogramVec<K>, k: K, v: int): (r: HistogramVec<K>)
    ensures r.Keys == h.Keys + {k}
    ensures Observations(r, k) == Observations(h, k) + [v]
    ensures forall j :: j != k ==> Observations(r, j) == Observations(h, j)
  {
    h[k := Observations(h, k) + [v]]
  }

  /** An increment followed by a decrement of the same child restores every child's
      value; only the key set may have grown by the child they created. */
  lemma IncDecRestores<K(!new)>(g: GaugeVec<K>, k: K)
    ensures forall j :: Level(GaugeDec(GaugeInc(g, k), k), j) == Level(g, j)
    ensures GaugeDec(GaugeInc(g, k), k).Keys == g.Keys + {k}
  {
  }
}
