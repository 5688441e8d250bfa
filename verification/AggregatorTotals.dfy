/** What a snapshot of a valid aggregator shows. */
module AggregatorTotals {
  import opened UsageStats
  import opened BucketKeys
  import opened UsageLedger
  import opened LedgerSums
  import opened LedgerInvariants
  import opened AggregatorMaps
  import opened AggregatorSteps
  import opened UsageAggregator
  import opened CodexAttribution
  import opened ClaudeAccounting
  import opened ClaudeTotals

  /** Field by field, the sum of all buckets. */
  ghost function SumBuckets(m: map<string, BucketStats>): Stats {
    if m == map[] then Zero()
    else
      var k :| k in m;
      Plus(SumBuckets(m - {k}), m[k].stats)
  }

  function Lookup(m: map<string, BucketStats>, b: Bucket): Stats {
    if Key(b) in m then m[Key(b)].stats else Zero()
  }

  function Outside(b: Bucket): Entry -> bool {
    (e: Entry) => e.bucket != b
  }

  function Inside(b: Bucket): Entry -> bool {
    (e: Entry) => e.bucket == b
  }

  lemma {:induction false} TakeOutBucket(m: map<string, BucketStats>, k: string, es: seq<Entry>)
    requires k in m && k == Key(m[k].bucket)
    requires forall b :: Lookup(m, b) == SumWhere(es, Inside(b))
    ensures forall b :: Lookup(m - {k}, b) == SumWhere(Filter(es, Outside(m[k].bucket)), Inside(b))
    ensures SumWhere(es, All()) == Plus(SumWhere(Filter(es, Outside(m[k].bucket)), All()), m[k].stats)
  {
    var taken := m[k].bucket;
    var rest := Filter(es, Outside(taken));
    forall b ensures Lookup(m - {k}, b) == SumWhere(rest, Inside(b)) {
      if b == taken {
        SumNothing(rest, Inside(b));
      } else {
        SumFilter(es, Outside(taken), Inside(b), Inside(b));
        if Key(b) == k {
          KeyInjective(b, taken);
        }
      }
    }
    SumSplit(es, All(), Outside(taken), Inside(taken));
    SumFilter(es, Outside(taken), All(), Outside(taken));
    assert Lookup(m, taken) == m[k].stats;
  }

  lemma {:induction false} SumBucketsIsSum(m: map<string, BucketStats>, es: seq<Entry>)
    requires forall k | k in m :: k == Key(m[k].bucket)
    requires forall e | e in es :: e.stats.HasAnyValue()
    requires forall b :: Lookup(m, b) == SumWhere(es, Inside(b))
    ensures SumBuckets(m) == SumWhere(es, All())
    decreases |m|
  {
    if m == map[] {
      if es != [] {
        var e := es[0];
        SumHasValue(es, Inside(e.bucket));
        assert Inside(e.bucket)(e) && Lookup(m, e.bucket) == Zero();
      }
    } else {
      var k :| k in m && SumBuckets(m) == Plus(SumBuckets(m - {k}), m[k].stats);
      TakeOutBucket(m, k, es);
      SumBucketsIsSum(m - {k}, Filter(es, Outside(m[k].bucket)));
    }
  }

  /** Each agent's total is the field-wise sum of its buckets, no bucket shown is empty, and no
      subtraction was ever cut off at zero. */
  lemma {:induction false} TotalsAreSums(a: Aggregator, agent: Agent)
    requires a.Valid() && a.offered.Fits() && agent in a.agents
    ensures a.agents[agent].total == SumBuckets(a.agents[agent].buckets)
    ensures forall k | k in a.agents[agent].buckets :: a.agents[agent].buckets[k].stats.HasAnyValue()
    ensures !a.clamped
  {
    var buckets := a.agents[agent].buckets;
    var mine := Filter(a.ledger, OfAgent(agent));
    forall e | e in mine ensures e.stats.HasAnyValue() {
      assert Good(a.Abs(), e);
    }
    forall b ensures Lookup(buckets, b) == SumWhere(mine, Inside(b)) {
      SumFilter(a.ledger, OfAgent(agent), Inside(b), InBucket(agent, b));
      assert At(a.agents, agent, b) == SumWhere(a.ledger, InBucket(agent, b));
    }
    SumFilter(a.ledger, OfAgent(agent), All(), OfAgent(agent));
    SumBucketsIsSum(buckets, mine);
    assert TotalIn(a.agents, agent) == SumWhere(a.ledger, OfAgent(agent));
  }

  /** Summed over all conversations, the pending usage of a bucket is at most what the bucket shows. */
  ghost function SumPending(p: map<string, map<Bucket, Stats>>, b: Bucket): Stats {
    if p == map[] then Zero()
    else
      var c :| c in p;
      Plus(SumPending(p - {c}, b), Amount(p[c], b))
  }

  lemma {:induction false} SumPendingIsSum(p: map<string, map<Bucket, Stats>>, es: seq<Entry>, b: Bucket)
    requires forall c :: Amount(PerBucket(p, c), b) == if c in p then SumWhere(es, PendingAt(c, b)) else Zero()
    ensures SumPending(p, b) == SumWhere(es, PendingAmong(p.Keys, b))
    decreases |p|
  {
    if p == map[] {
      SumNothing(es, PendingAmong(p.Keys, b));
    } else {
      var c :| c in p && SumPending(p, b) == Plus(SumPending(p - {c}, b), Amount(p[c], b));
      var rest := p - {c};
      forall d ensures Amount(PerBucket(rest, d), b) == if d in rest then SumWhere(es, PendingAt(d, b)) else Zero() {
        assert Amount(PerBucket(p, d), b) == if d in p then SumWhere(es, PendingAt(d, b)) else Zero();
      }
      SumPendingIsSum(rest, es, b);
      assert p.Keys == rest.Keys + {c};
      PendingAmongOne(es, rest.Keys, c, b);
      assert Amount(PerBucket(p, c), b) == Amount(p[c], b);
    }
  }

  lemma {:induction false} PendingWithinBucket(a: Aggregator, b: Bucket)
    requires a.Valid() && a.offered.Fits()
    ensures SumPending(a.pendingSse, b).AtMost(At(a.agents, Codex, b))
  {
    forall e | e in a.ledger ensures e.stats.HasAnyValue() {
      assert Good(a.Abs(), e);
    }
    forall c
      ensures Amount(PerBucket(a.pendingSse, c), b) ==
              if c in a.pendingSse then SumWhere(a.ledger, PendingAt(c, b)) else Zero() {
      assert Amount(PerBucket(a.pendingSse, c), b) == SumWhere(a.ledger, PendingAt(c, b));
    }
    SumPendingIsSum(a.pendingSse, a.ledger, b);
    PendingAmongAll(a.ledger, a.pendingSse, b);
    PendingIsPart(a.ledger, b);
    assert At(a.agents, Codex, b) == SumWhere(a.ledger, InBucket(Codex, b));
  }

  lemma {:induction false} RunFromStart(es: seq<Event>)
    ensures RunFrom(INITIAL, es).0 == Run(es)
  {
    if es != [] {
      RunFromStart(es[..|es| - 1]);
    }
  }

  /** The Claude total shown after any run is the sum over its events, whatever their order:
      all requests, all logged usage, and the metrics of the keys no log covers. */
  lemma {:induction false} ClaudeTotalShown(a: Aggregator, es: seq<Event>)
    requires a.Valid() && a.offered.Fits() && a.Abs() == RunFrom(INITIAL, es).0
    ensures TotalIn(a.agents, Claude) == Total(es, AgentShare(Logged(es)))
  {
    RunFromStart(es);
    UsageOfAgent(es);
    assert TotalIn(a.agents, Claude) == SumWhere(a.ledger, OfAgent(Claude));
  }

  /** The shown Claude buckets of one source key: a model with all its variants, and an effort. */
  function BucketsOfKey(m: map<string, BucketStats>, key: SourceKey): map<string, BucketStats> {
    map k | k in m && UsageKey(m[k].bucket.model, m[k].bucket.effort) == key :: m[k]
  }

  /** What the shown buckets of a source key add up to after any run: every request of the key, and the
      usage of its logs if any carried usage, else that of its metrics. */
  lemma {:induction false} ClaudeKeyShown(a: Aggregator, es: seq<Event>, key: SourceKey)
    requires a.Valid() && a.offered.Fits() && a.Abs() == RunFrom(INITIAL, es).0
    ensures SumBuckets(BucketsOfKey(Buckets(a.agents, Claude), key)) == Total(es, KeyTotal(key, key in Logged(es)))
  {
    RunFromStart(es);
    StatsPerKey(es, key);
    BucketsOfKeyAre(a, key);
  }

  lemma {:induction false} BucketsOfKeyAre(a: Aggregator, key: SourceKey)
    requires a.Valid() && a.offered.Fits()
    ensures SumBuckets(BucketsOfKey(Buckets(a.agents, Claude), key)) == SumWhere(a.ledger, AllOfKey(key))
  {
    var buckets := Buckets(a.agents, Claude);
    var shown := BucketsOfKey(buckets, key);
    var mine := Filter(a.ledger, AllOfKey(key));
    forall e | e in mine ensures e.stats.HasAnyValue() {
      assert Good(a.Abs(), e);
    }
    forall k | k in buckets ensures k == Key(buckets[k].bucket) {
    }
    assert forall b :: Lookup(buckets, b) == SumWhere(a.ledger, InBucket(Claude, b)) by {
      forall b ensures Lookup(buckets, b) == SumWhere(a.ledger, InBucket(Claude, b)) {
        assert At(a.agents, Claude, b) == SumWhere(a.ledger, InBucket(Claude, b));
      }
    }
    forall b ensures Lookup(shown, b) == SumWhere(mine, Inside(b)) {
      LookupOfKey(buckets, a.ledger, key, b);
    }
    SumFilter(a.ledger, AllOfKey(key), All(), AllOfKey(key));
    SumBucketsIsSum(shown, mine);
  }

  lemma {:induction false} LookupOfKey(buckets: map<string, BucketStats>, es: seq<Entry>, key: SourceKey, b: Bucket)
    requires forall k | k in buckets :: k == Key(buckets[k].bucket)
    requires Lookup(buckets, b) == SumWhere(es, InBucket(Claude, b))
    ensures Lookup(BucketsOfKey(buckets, key), b) == SumWhere(Filter(es, AllOfKey(key)), Inside(b))
  {
    var shown, mine := BucketsOfKey(buckets, key), Filter(es, AllOfKey(key));
    if Key(b) in buckets {
      KeyInjective(b, buckets[Key(b)].bucket);
    }
    hide Key, UsageKey, Bare;
    if UsageKey(b.model, b.effort) == key {
      SumFilter(es, AllOfKey(key), Inside(b), InBucket(Claude, b));
    } else {
      SumNothing(mine, Inside(b));
    }
  }

  /** What a conversation's completions hold in a bucket is part of what the bucket shows. */
  lemma {:induction false} BucketShowsView(a: Aggregator, c: string, b: Bucket)
    requires a.Valid() && a.offered.Fits()
    ensures SumWhere(View(a.Abs(), c), Inside(b)).AtMost(At(a.agents, Codex, b))
  {
    var part := (e: Entry) => SseOf(c)(e) && e.bucket == b;
    SumFilter(a.ledger, SseOf(c), Inside(b), part);
    SumAtMost(a.ledger, part, InBucket(Codex, b));
    assert At(a.agents, Codex, b) == SumWhere(a.ledger, InBucket(Codex, b));
  }
}
