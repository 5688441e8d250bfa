/** The maps the aggregator really keeps, what they should hold for a given ledger, and how
    single updates of the maps follow single changes of the ledger. */
module AggregatorMaps {
  import opened UsageStats
  import opened BucketKeys
  import opened UsageLedger
  import opened LedgerSums

  datatype BucketStats = BucketStats(bucket: Bucket, stats: Stats)
  datatype AgentStats = AgentStats(total: Stats, buckets: map<string, BucketStats>)
  type Agents = map<Agent, AgentStats>

  function TotalIn(agents: Agents, a: Agent): Stats {
    if a in agents then agents[a].total else Zero()
  }

  function At(agents: Agents, a: Agent, b: Bucket): Stats {
    if a in agents && Key(b) in agents[a].buckets then agents[a].buckets[Key(b)].stats else Zero()
  }

  /** No part of a bucket is empty, and Claude has one provider. */
  predicate Proper(a: Agent, b: Bucket) {
    b.provider != "" && b.model != "" && b.effort != "" && (a == Claude ==> b.provider == ANTHROPIC)
  }

  /** Every bucket kept is proper, stands under its own key and holds some value. */
  ghost predicate Tidy(agents: Agents) {
    forall a, k | a in agents && k in agents[a].buckets ::
      var entry := agents[a].buckets[k];
      k == Key(entry.bucket) && entry.stats.HasAnyValue() && Proper(a, entry.bucket)
  }

  // Parts of the ledger

  function All(): Entry -> bool {
    (e: Entry) => true
  }

  function InBucket(a: Agent, b: Bucket): Entry -> bool {
    (e: Entry) => e.Agent() == a && e.bucket == b
  }

  function MetricAt(key: SourceKey, b: Bucket): Entry -> bool {
    (e: Entry) => e.tag.ClaudeMetricUsage? && EntryKey(e) == key && e.bucket == b
  }

  function PendingAt(cid: string, b: Bucket): Entry -> bool {
    (e: Entry) => IsPendingOf(cid, e) && e.bucket == b
  }

  function AnyPendingAt(b: Bucket): Entry -> bool {
    (e: Entry) => e.Pending() && e.bucket == b
  }

  // What the maps should hold

  ghost predicate AgentsMatch(agents: Agents, es: seq<Entry>) {
    && (forall a :: TotalIn(agents, a) == SumWhere(es, OfAgent(a)))
    && (forall a, b :: At(agents, a, b) == SumWhere(es, InBucket(a, b)))
  }

  function Amount(m: map<Bucket, Stats>, b: Bucket): Stats {
    if b in m then m[b] else Zero()
  }

  function PerBucket<K>(m: map<K, map<Bucket, Stats>>, k: K): map<Bucket, Stats> {
    if k in m then m[k] else map[]
  }

  ghost predicate MetricsMatch(m: map<SourceKey, map<Bucket, Stats>>, es: seq<Entry>) {
    forall k, b :: Amount(PerBucket(m, k), b) == SumWhere(es, MetricAt(k, b))
  }

  ghost predicate PendingMatch(m: map<string, map<Bucket, Stats>>, es: seq<Entry>) {
    && (forall c, b :: Amount(PerBucket(m, c), b) == SumWhere(es, PendingAt(c, b)))
    && (forall c, b | c in m && b in m[c] :: m[c][b].HasAnyValue())
  }

  /** Keys counted from metrics remember what to give back. */
  ghost predicate MetricsHeld(sources: map<SourceKey, ClaudeSource>, usage: map<SourceKey, map<Bucket, Stats>>) {
    forall k | k in sources && sources[k] == ClaudeMetrics :: k in usage
  }

  // Single map updates

  ghost predicate Recorded(before: Agents, after: Agents, a: Agent, b: Bucket, stats: Stats) {
    && (forall x :: TotalIn(after, x) == if x == a then Add(TotalIn(before, x), stats) else TotalIn(before, x))
    && (forall x, y :: At(after, x, y) == if x == a && y == b then Add(At(before, x, y), stats) else At(before, x, y))
  }

  ghost predicate Subtracted(before: Agents, after: Agents, a: Agent, b: Bucket, stats: Stats) {
    && (forall x :: TotalIn(after, x) == if x == a then Subtract(TotalIn(before, x), stats) else TotalIn(before, x))
    && (forall x, y ::
          At(after, x, y) == if x == a && y == b then Subtract(At(before, x, y), stats) else At(before, x, y))
  }

  ghost predicate Moved(before: Agents, after: Agents, a: Agent, from: Bucket, to: Bucket, stats: Stats) {
    && (forall x :: TotalIn(after, x) == TotalIn(before, x))
    && (forall x, y :: At(after, x, y) ==
                       if x == a && y == from then Subtract(At(before, x, y), stats)
                       else if x == a && y == to then Add(At(before, x, y), stats)
                       else At(before, x, y))
  }

  function Buckets(agents: Agents, a: Agent): map<string, BucketStats> {
    if a in agents then agents[a].buckets else map[]
  }

  /** One bucket replaced; a bucket left without any value is not kept. */
  function Stored(agents: Agents, a: Agent, b: Bucket, total: Stats, entry: BucketStats): Agents {
    agents[a := AgentStats(total, if entry.stats.HasAnyValue() then Buckets(agents, a)[Key(b) := entry]
                                  else Buckets(agents, a) - {Key(b)})]
  }

  lemma {:induction false} StoredView(agents: Agents, a: Agent, b: Bucket, total: Stats, entry: BucketStats,
                                      x: Agent, y: Bucket)
    ensures var after := Stored(agents, a, b, total, entry);
            && TotalIn(after, x) == (if x == a then total else TotalIn(agents, x))
            && At(after, x, y) == (if x == a && y == b then entry.stats else At(agents, x, y))
  {
    if Key(y) == Key(b) {
      KeyInjective(y, b);
    }
    assert !entry.stats.HasAnyValue() ==> entry.stats == Zero();
  }

  lemma {:induction false} StoredTidy(agents: Agents, a: Agent, b: Bucket, total: Stats, entry: BucketStats)
    requires Tidy(agents) && entry.bucket == b && (entry.stats.HasAnyValue() ==> Proper(a, b))
    ensures Tidy(Stored(agents, a, b, total, entry))
  {
    var after := Stored(agents, a, b, total, entry);
    forall x, k | x in after && k in after[x].buckets
      ensures var e := after[x].buckets[k]; k == Key(e.bucket) && e.stats.HasAnyValue() && Proper(x, e.bucket)
    {
      if x != a || k != Key(b) {
        assert x in agents && k in agents[x].buckets;
      }
    }
  }

  /** A bucket that holds something is a bucket that was stored. */
  lemma {:induction false} HeldBucket(agents: Agents, a: Agent, b: Bucket)
    requires Tidy(agents) && At(agents, a, b).HasAnyValue()
    ensures Proper(a, b)
  {
    KeyInjective(agents[a].buckets[Key(b)].bucket, b);
  }

  function Efforts(bs: seq<Bucket>): set<string> {
    set b | b in bs :: b.effort
  }

  /** Claude buckets of one model, one for each of several efforts. */
  ghost predicate OnePerEffort(bs: seq<Bucket>, model: string) {
    && (forall b | b in bs :: b == Bucket(ANTHROPIC, model, b.effort) && b.effort != "")
    && (forall i, j | 0 <= i < j < |bs| :: bs[i].effort != bs[j].effort)
  }

  lemma {:induction false} NextEffort(bs: seq<Bucket>, i: nat, model: string)
    requires i < |bs| && OnePerEffort(bs, model)
    ensures bs[i] == Bucket(ANTHROPIC, model, bs[i].effort) && bs[i].effort != ""
    ensures bs[i].effort !in Efforts(bs[..i]) && Efforts(bs[..i + 1]) == Efforts(bs[..i]) + {bs[i].effort}
  {
    assert bs[i] in bs;
    assert bs[..i + 1] == bs[..i] + [bs[i]];
  }

  function BucketsUnder(buckets: map<string, BucketStats>, keys: seq<string>): seq<Bucket>
    requires forall k | k in keys :: k in buckets
  {
    seq(|keys|, i requires 0 <= i < |keys| => assert keys[i] in keys; buckets[keys[i]].bucket)
  }

  lemma {:induction false} ScannedBucket(buckets: map<string, BucketStats>, k: string, model: string)
    requires k in buckets && k == Key(buckets[k].bucket) && Proper(Claude, buckets[k].bucket)
    requires ModelPrefix(model) <= k
    ensures buckets[k].bucket == Bucket(ANTHROPIC, model, buckets[k].bucket.effort) && buckets[k].bucket.effort != ""
  {
    PrefixFindsModel(buckets[k].bucket, model);
  }

  /** The keys found by the prefix scan are the keys of the buckets of that model, one per effort. */
  lemma {:induction false} ScannedBuckets(agents: Agents, keys: seq<string>, model: string)
    requires Tidy(agents) && Claude in agents
    requires forall k :: k in keys <==> k in agents[Claude].buckets && ModelPrefix(model) <= k
    requires forall i, j | 0 <= i < j < |keys| :: keys[i] != keys[j]
    ensures OnePerEffort(BucketsUnder(agents[Claude].buckets, keys), model)
    ensures forall b: Bucket | b.model == model && At(agents, Claude, b).HasAnyValue() ::
              b in BucketsUnder(agents[Claude].buckets, keys)
  {
    var buckets := agents[Claude].buckets;
    var found := BucketsUnder(buckets, keys);
    forall i | 0 <= i < |keys|
      ensures keys[i] == Key(found[i]) && found[i] == Bucket(ANTHROPIC, model, found[i].effort)
              && found[i].effort != "" {
      assert keys[i] in keys;
      ScannedBucket(buckets, keys[i], model);
    }
    forall b: Bucket | b.model == model && At(agents, Claude, b).HasAnyValue() ensures b in found {
      KeyInjective(buckets[Key(b)].bucket, b);
      PrefixFindsModel(b, model);
      assert Key(b) in keys;
      var i :| 0 <= i < |keys| && keys[i] == Key(b);
      assert found[i] == b;
    }
  }

  lemma {:induction false} StoredKeys(agents: Agents, a: Agent, b: Bucket, total: Stats, entry: BucketStats)
    ensures Stored(agents, a, b, total, entry).Keys == agents.Keys + {a}
  {
  }

  ghost predicate StoredAs(before: Agents, after: Agents, a: Agent, b: Bucket, total: Stats, stats: Stats) {
    && after.Keys == before.Keys + {a}
    && (forall x :: TotalIn(after, x) == if x == a then total else TotalIn(before, x))
    && (forall x, y :: At(after, x, y) == if x == a && y == b then stats else At(before, x, y))
  }

  lemma {:induction false} StoredViews(agents: Agents, a: Agent, b: Bucket, total: Stats, entry: BucketStats)
    ensures StoredAs(agents, Stored(agents, a, b, total, entry), a, b, total, entry.stats)
  {
    var after := Stored(agents, a, b, total, entry);
    StoredKeys(agents, a, b, total, entry);
    forall x, y ensures TotalIn(after, x) == (if x == a then total else TotalIn(agents, x))
                     && At(after, x, y) == (if x == a && y == b then entry.stats else At(agents, x, y)) {
      StoredView(agents, a, b, total, entry, x, y);
    }
  }

  lemma {:induction false} MovedByTwo(before: Agents, mid: Agents, after: Agents, from: Bucket, to: Bucket,
                                      stats: Stats)
    requires from != to && Codex in before
    requires StoredAs(before, mid, Codex, from, TotalIn(before, Codex), Subtract(At(before, Codex, from), stats))
    requires StoredAs(mid, after, Codex, to, TotalIn(before, Codex), Add(At(before, Codex, to), stats))
    ensures Moved(before, after, Codex, from, to, stats)
  {
  }

  // Bounds: every part of a ledger that fits, fits

  lemma {:induction false} PartFits(es: seq<Entry>, p: Entry -> bool)
    requires SumWhere(es, All()).Fits()
    ensures SumWhere(es, p).Fits()
  {
    SumAtMost(es, p, All());
  }

  /** Two ledgers hold at most as much as the first one and `more`. */
  ghost predicate GrewBy(before: seq<Entry>, after: seq<Entry>, more: Stats) {
    SumWhere(after, All()).AtMost(Plus(SumWhere(before, All()), more))
  }

  /** The account of what was offered covers what is counted after a step as well. */
  lemma {:induction false} OfferCovers(before: seq<Entry>, after: seq<Entry>, offered: Stats, more: Stats)
    requires GrewBy(before, after, more) && SumWhere(before, All()).AtMost(offered)
    ensures SumWhere(after, All()).AtMost(Plus(offered, more))
    ensures Plus(offered, more).Fits() ==> offered.Fits() && Plus(SumWhere(before, All()), more).Fits()
  {
    hide SumWhere;
  }

  lemma {:induction false} AppendGrows(es: seq<Entry>, e: Entry)
    ensures GrewBy(es, es + [e], e.stats)
  {
    SumAppend(es, e, All());
  }

  lemma {:induction false} AppendFits(es: seq<Entry>, e: Entry, more: Stats)
    ensures Plus(SumWhere(es, All()), Plus(e.stats, more)).Fits() ==>
              SumWhere(es + [e], All()).Fits() && Plus(SumWhere(es + [e], All()), more).Fits()
  {
    SumAppend(es, e, All());
  }

  lemma {:induction false} FilterShrinks(es: seq<Entry>, keep: Entry -> bool)
    ensures SumWhere(Filter(es, keep), All()).AtMost(SumWhere(es, All()))
  {
    SumFilter(es, keep, All(), keep);
    SumAtMost(es, keep, All());
  }

  lemma {:induction false} RelabelKeepsSum(es: seq<Entry>, f: Entry -> Entry)
    requires forall e | e in es :: f(e).stats == e.stats
    ensures SumWhere(Relabel(es, f), All()) == SumWhere(es, All())
  {
    SumRelabel(es, f, All(), All());
  }

  lemma {:induction false} RegisterKeepsSum(s: State, full: string)
    ensures SumWhere(Register(s, full).ledger, All()) == SumWhere(s.ledger, All())
  {
    RelabelKeepsSum(s.ledger, Promote(Bare(full), full));
  }

  lemma {:induction false} RecordFollows(before: Agents, after: Agents, es: seq<Entry>, e: Entry)
    requires AgentsMatch(before, es) && Recorded(before, after, e.Agent(), e.bucket, e.stats)
    requires SumWhere(es + [e], All()).Fits()
    ensures AgentsMatch(after, es + [e])
  {
    forall a ensures TotalIn(after, a) == SumWhere(es + [e], OfAgent(a)) {
      SumAppend(es, e, OfAgent(a));
      PartFits(es + [e], OfAgent(a));
    }
    forall a, b ensures At(after, a, b) == SumWhere(es + [e], InBucket(a, b)) {
      SumAppend(es, e, InBucket(a, b));
      PartFits(es + [e], InBucket(a, b));
    }
  }

  lemma {:induction false} MetricsFollowOthers(m: map<SourceKey, map<Bucket, Stats>>, es: seq<Entry>, e: Entry)
    requires MetricsMatch(m, es) && !e.tag.ClaudeMetricUsage?
    ensures MetricsMatch(m, es + [e])
  {
    forall k, b ensures Amount(PerBucket(m, k), b) == SumWhere(es + [e], MetricAt(k, b)) {
      SumAppend(es, e, MetricAt(k, b));
    }
  }

  lemma {:induction false} PendingFollowsOthers(m: map<string, map<Bucket, Stats>>, es: seq<Entry>, e: Entry)
    requires PendingMatch(m, es) && !e.Pending()
    ensures PendingMatch(m, es + [e])
  {
    forall c, b ensures Amount(PerBucket(m, c), b) == SumWhere(es + [e], PendingAt(c, b)) {
      SumAppend(es, e, PendingAt(c, b));
    }
  }

  function AddedAt<K>(m: map<K, map<Bucket, Stats>>, k: K, b: Bucket, stats: Stats): map<K, map<Bucket, Stats>> {
    m[k := PerBucket(m, k)[b := Add(Amount(PerBucket(m, k), b), stats)]]
  }

  lemma {:induction false} MetricsFollow(m: map<SourceKey, map<Bucket, Stats>>, es: seq<Entry>, e: Entry)
    requires MetricsMatch(m, es) && e.tag.ClaudeMetricUsage?
    requires SumWhere(es + [e], All()).Fits()
    ensures MetricsMatch(AddedAt(m, EntryKey(e), e.bucket, e.stats), es + [e])
  {
    var m' := AddedAt(m, EntryKey(e), e.bucket, e.stats);
    forall k, b ensures Amount(PerBucket(m', k), b) == SumWhere(es + [e], MetricAt(k, b)) {
      SumAppend(es, e, MetricAt(k, b));
      PartFits(es + [e], MetricAt(k, b));
    }
  }

  lemma {:induction false} PendingFollows(m: map<string, map<Bucket, Stats>>, es: seq<Entry>, e: Entry)
    requires PendingMatch(m, es) && e.Pending() && e.stats.HasAnyValue()
    requires SumWhere(es + [e], All()).Fits()
    ensures PendingMatch(AddedAt(m, e.tag.cid, e.bucket, e.stats), es + [e])
  {
    var m' := AddedAt(m, e.tag.cid, e.bucket, e.stats);
    forall c, b ensures Amount(PerBucket(m', c), b) == SumWhere(es + [e], PendingAt(c, b)) {
      SumAppend(es, e, PendingAt(c, b));
      PartFits(es + [e], PendingAt(c, b));
    }
  }
}
