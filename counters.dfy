/**
 * Counters and gauges. A `defaultdict(int)` that only ever receives `+= 1`
 * is a multiset: the count of a key is its multiplicity and the sum of its
 * values is its cardinality. A Prometheus gauge labelled by a community and
 * a key, that only ever receives `.labels(...).inc(n)`, is in the same way
 * a multiset of keys per community.
 */
module Counters {

  /** `n` copies of `l`. */
  function Copies<L>(l: L, n: nat): multiset<L> {
    multiset{}[l := n]
  }

  /** There are `n` of them. */
  lemma {:induction false} CopiesCard<L>(l: L, n: nat)
    ensures |Copies(l, n)| == n
  {
    if n > 0 {
      CopiesCard(l, n - 1);
      assert Copies(l, n) == Copies(l, n - 1) + multiset{l};
    }
  }

  /** A multiset is the copies of one element plus the rest. */
  lemma Split<K>(m: multiset<K>, k: K)
    ensures m == m[k := 0] + Copies(k, m[k])
    ensures |m[k := 0]| == |m| - m[k]
  {
    assert m == m[k := 0] + Copies(k, m[k]);
    CopiesCard(k, m[k]);
  }

  /** A gauge: for each community, the keys it was incremented under, each as often as it was incremented. */
  type Gauge<K> = map<string, multiset<K>>

  /** The increments a gauge received under one community (none if the community never occurred). */
  function Samples<K>(g: Gauge<K>, community: string): multiset<K> {
    if community in g then g[community] else multiset{}
  }

  /** The value the gauge exports for the labels `(community, key)`. */
  function Value<K>(g: Gauge<K>, community: string, key: K): nat {
    Samples(g, community)[key]
  }

  /**
   * A gauge after a counter's entries were added to it under one
   * community; an empty counter creates no labels.
   */
  function AddCounts<K>(g: Gauge<K>, community: string, counts: multiset<K>): Gauge<K> {
    if counts == multiset{} then g else g[community := Samples(g, community) + counts]
  }

  /**
   * Each of the gauge's values grows by the key's count under the community
   * and stays as it was under every other community.
   */
  lemma AddCountsValue<K>(g: Gauge<K>, community: string, counts: multiset<K>, c: string, key: K)
    ensures Value(AddCounts(g, community, counts), c, key) ==
            Value(g, c, key) + (if c == community then counts[key] else 0)
  {
  }

  /** One `.labels(community, *key).inc(n)` with `n > 0` continues the counts added so far. */
  lemma AddCountsStep<K>(gauge: Gauge<K>, community: string, done: multiset<K>, key: K, n: nat)
    requires n > 0
    ensures var g := AddCounts(gauge, community, done);
            var samples := Samples(g, community);
            AddCounts(gauge, community, done + Copies(key, n)) == g[community := samples[key := samples[key] + n]]
  {
    var g := AddCounts(gauge, community, done);
    var samples := Samples(g, community);
    assert key in done + Copies(key, n);
    assert samples[key := samples[key] + n] == samples + Copies(key, n);
    assert samples == Samples(gauge, community) + done;
    assert Samples(gauge, community) + (done + Copies(key, n)) == samples + Copies(key, n);
  }

  /**
   * One loop of `update_gauges` (or of the result loop of
   * census-exporter.py): `for key, n in counts.items():
   * gauge.labels(community, *key).inc(n); total += n`.
   */
  method IncrementGauge<K>(gauge: Gauge<K>, community: string, counts: multiset<K>)
    returns (g: Gauge<K>, sum: nat)
    ensures g == AddCounts(gauge, community, counts)
    ensures sum == |counts|
  {
    g, sum := gauge, 0;
    var rest := counts;
    ghost var done: multiset<K> := multiset{};
    while rest != multiset{}
      invariant done + rest == counts
      invariant g == AddCounts(gauge, community, done)
      invariant sum == |done|
      decreases |rest|
    {
      var key :| key in rest;
      var n := rest[key];
      Split(rest, key);
      CopiesCard(key, n);
      AddCountsStep(gauge, community, done, key, n);
      var samples := Samples(g, community);
      g := g[community := samples[key := samples[key] + n]];
      sum := sum + n;
      done := done + Copies(key, n);
      rest := rest[key := 0];
    }
    assert done == done + rest == counts;
  }
}
