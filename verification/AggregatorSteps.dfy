/** Why the aggregator's loops over several buckets keep its maps in step with the ledger:
    retracting the metric usage of a key, folding a bare model name into its full name, and
    moving a conversation's pending usage. */
module AggregatorSteps {
  import opened UsageStats
  import opened BucketKeys
  import opened UsageLedger
  import opened LedgerSums
  import opened LedgerInvariants
  import opened AggregatorMaps

  lemma {:induction false} SubtractInverts(a: Stats, r: Stats, b: Stats)
    requires a == Plus(r, b)
    ensures Subtract(a, b) == r && b.AtMost(a)
  {
  }

  // Retracting metric usage, bucket by bucket

  predicate Retracted(key: SourceKey, done: set<Bucket>, e: Entry) {
    e.tag.ClaudeMetricUsage? && EntryKey(e) == key && e.bucket in done
  }

  function LeftOf(key: SourceKey, done: set<Bucket>, x: Agent): Entry -> bool {
    (e: Entry) => e.Agent() == x && !Retracted(key, done, e)
  }

  function LeftIn(key: SourceKey, done: set<Bucket>, x: Agent, y: Bucket): Entry -> bool {
    (e: Entry) => e.Agent() == x && e.bucket == y && !Retracted(key, done, e)
  }

  ghost predicate RetractedSoFar(agents: Agents, es: seq<Entry>, key: SourceKey, done: set<Bucket>) {
    && (forall x :: TotalIn(agents, x) == SumWhere(es, LeftOf(key, done, x)))
    && (forall x, y :: At(agents, x, y) == SumWhere(es, LeftIn(key, done, x, y)))
  }

  lemma {:induction false} RetractStart(agents: Agents, es: seq<Entry>, key: SourceKey)
    requires AgentsMatch(agents, es)
    ensures RetractedSoFar(agents, es, key, {})
  {
    forall x ensures TotalIn(agents, x) == SumWhere(es, LeftOf(key, {}, x)) {
      SumSame(es, OfAgent(x), LeftOf(key, {}, x));
    }
    forall x, y ensures At(agents, x, y) == SumWhere(es, LeftIn(key, {}, x, y)) {
      SumSame(es, InBucket(x, y), LeftIn(key, {}, x, y));
    }
  }

  lemma {:induction false} RetractSums(es: seq<Entry>, key: SourceKey, done: set<Bucket>, b: Bucket, x: Agent,
                                       y: Bucket)
    requires b !in done
    ensures SumWhere(es, LeftOf(key, done, Claude)) ==
            Plus(SumWhere(es, LeftOf(key, done + {b}, Claude)), SumWhere(es, MetricAt(key, b)))
    ensures SumWhere(es, LeftIn(key, done, Claude, b)) ==
            Plus(SumWhere(es, LeftIn(key, done + {b}, Claude, b)), SumWhere(es, MetricAt(key, b)))
    ensures x != Claude ==> SumWhere(es, LeftOf(key, done, x)) == SumWhere(es, LeftOf(key, done + {b}, x))
    ensures x != Claude || y != b ==>
            SumWhere(es, LeftIn(key, done, x, y)) == SumWhere(es, LeftIn(key, done + {b}, x, y))
  {
    SumSplit(es, LeftOf(key, done, Claude), LeftOf(key, done + {b}, Claude), MetricAt(key, b));
    SumSplit(es, LeftIn(key, done, Claude, b), LeftIn(key, done + {b}, Claude, b), MetricAt(key, b));
    if x != Claude {
      SumSame(es, LeftOf(key, done, x), LeftOf(key, done + {b}, x));
    }
    if x != Claude || y != b {
      SumSame(es, LeftIn(key, done, x, y), LeftIn(key, done + {b}, x, y));
    }
  }

  lemma {:induction false} RetractOne(before: Agents, after: Agents, es: seq<Entry>, key: SourceKey,
                                      done: set<Bucket>, b: Bucket, stats: Stats)
    requires RetractedSoFar(before, es, key, done) && b !in done && stats == SumWhere(es, MetricAt(key, b))
    requires Subtracted(before, after, Claude, b, stats)
    ensures RetractedSoFar(after, es, key, done + {b})
    ensures stats.AtMost(TotalIn(before, Claude)) && stats.AtMost(At(before, Claude, b))
  {
    RetractSums(es, key, done, b, Claude, b);
    SubtractInverts(TotalIn(before, Claude), SumWhere(es, LeftOf(key, done + {b}, Claude)), stats);
    SubtractInverts(At(before, Claude, b), SumWhere(es, LeftIn(key, done + {b}, Claude, b)), stats);
    forall x ensures TotalIn(after, x) == SumWhere(es, LeftOf(key, done + {b}, x)) {
      RetractSums(es, key, done, b, x, b);
    }
    forall x, y ensures At(after, x, y) == SumWhere(es, LeftIn(key, done + {b}, x, y)) {
      RetractSums(es, key, done, b, x, y);
    }
  }

  lemma {:induction false} RetractAll(agents: Agents, es: seq<Entry>, key: SourceKey, perBucket: map<Bucket, Stats>)
    requires RetractedSoFar(agents, es, key, perBucket.Keys)
    requires forall e | e in es :: e.stats.HasAnyValue()
    requires forall b :: Amount(perBucket, b) == SumWhere(es, MetricAt(key, b))
    ensures AgentsMatch(agents, Filter(es, IsNotMetricOf(key)))
  {
    forall e | e in es && e.tag.ClaudeMetricUsage? && EntryKey(e) == key ensures e.bucket in perBucket.Keys {
      SumHasValue(es, MetricAt(key, e.bucket));
      assert MetricAt(key, e.bucket)(e);
    }
    forall x ensures TotalIn(agents, x) == SumWhere(Filter(es, IsNotMetricOf(key)), OfAgent(x)) {
      SumFilter(es, IsNotMetricOf(key), OfAgent(x), LeftOf(key, perBucket.Keys, x));
    }
    forall x, y ensures At(agents, x, y) == SumWhere(Filter(es, IsNotMetricOf(key)), InBucket(x, y)) {
      SumFilter(es, IsNotMetricOf(key), InBucket(x, y), LeftIn(key, perBucket.Keys, x, y));
    }
  }

  lemma {:induction false} RetractLedgers(m: map<SourceKey, map<Bucket, Stats>>, p: map<string, map<Bucket, Stats>>,
                                          es: seq<Entry>, key: SourceKey)
    requires MetricsMatch(m, es) && PendingMatch(p, es)
    ensures MetricsMatch(m - {key}, Filter(es, IsNotMetricOf(key))) && PendingMatch(p, Filter(es, IsNotMetricOf(key)))
  {
    var kept := Filter(es, IsNotMetricOf(key));
    forall k, b ensures Amount(PerBucket(m - {key}, k), b) == SumWhere(kept, MetricAt(k, b)) {
      if k == key {
        SumNothing(kept, MetricAt(k, b));
      } else {
        SumFilter(es, IsNotMetricOf(key), MetricAt(k, b), MetricAt(k, b));
      }
    }
    forall c, b ensures Amount(PerBucket(p, c), b) == SumWhere(kept, PendingAt(c, b)) {
      SumFilter(es, IsNotMetricOf(key), PendingAt(c, b), PendingAt(c, b));
    }
  }

  lemma {:induction false} SumNothing(es: seq<Entry>, p: Entry -> bool)
    requires forall e | e in es :: !p(e)
    ensures SumWhere(es, p) == Zero()
  {
    if es != [] {
      SumNothing(es[..|es| - 1], p);
      assert es[|es| - 1] in es;
    }
  }

  // Folding a bare model name into its full name, effort by effort

  function FoldedBucket(bare: string, full: string, done: set<string>, e: Entry): Bucket {
    if e.Agent() == Claude && e.bucket.model == bare && e.bucket.effort in done
    then e.bucket.(model := full)
    else e.bucket
  }

  function FoldedIn(bare: string, full: string, done: set<string>, x: Agent, y: Bucket): Entry -> bool {
    (e: Entry) => e.Agent() == x && FoldedBucket(bare, full, done, e) == y
  }

  ghost predicate FoldedSoFar(agents: Agents, es: seq<Entry>, bare: string, full: string, done: set<string>) {
    && (forall x :: TotalIn(agents, x) == SumWhere(es, OfAgent(x)))
    && (forall x, y :: At(agents, x, y) == SumWhere(es, FoldedIn(bare, full, done, x, y)))
  }

  lemma {:induction false} FoldStart(agents: Agents, es: seq<Entry>, bare: string, full: string)
    requires AgentsMatch(agents, es)
    ensures FoldedSoFar(agents, es, bare, full, {})
  {
    forall x, y ensures At(agents, x, y) == SumWhere(es, FoldedIn(bare, full, {}, x, y)) {
      SumSame(es, InBucket(x, y), FoldedIn(bare, full, {}, x, y));
    }
  }

  ghost predicate AnthropicOnly(es: seq<Entry>) {
    forall e | e in es && e.Agent() == Claude :: e.bucket.provider == ANTHROPIC
  }

  lemma {:induction false} FoldSums(es: seq<Entry>, bare: string, full: string, done: set<string>, f: string,
                                    x: Agent, y: Bucket)
    requires bare != full && f !in done && AnthropicOnly(es)
    ensures var from, to := Bucket(ANTHROPIC, bare, f), Bucket(ANTHROPIC, full, f);
            if x == Claude && y == from then SumWhere(es, FoldedIn(bare, full, done + {f}, x, y)) == Zero()
            else if x == Claude && y == to then
              SumWhere(es, FoldedIn(bare, full, done + {f}, x, y)) ==
              Plus(SumWhere(es, FoldedIn(bare, full, done, x, y)), SumWhere(es, FoldedIn(bare, full, done, x, from)))
            else SumWhere(es, FoldedIn(bare, full, done + {f}, x, y)) == SumWhere(es, FoldedIn(bare, full, done, x, y))
  {
    var from, to := Bucket(ANTHROPIC, bare, f), Bucket(ANTHROPIC, full, f);
    if x == Claude && y == from {
      SumNothing(es, FoldedIn(bare, full, done + {f}, x, y));
    } else if x == Claude && y == to {
      SumSplit(es, FoldedIn(bare, full, done + {f}, x, y), FoldedIn(bare, full, done, x, y),
               FoldedIn(bare, full, done, x, from));
    } else {
      SumSame(es, FoldedIn(bare, full, done + {f}, x, y), FoldedIn(bare, full, done, x, y));
    }
  }

  /** One bucket emptied, its stats added to another. */
  ghost predicate Poured(before: Agents, after: Agents, from: Bucket, to: Bucket) {
    && after.Keys == before.Keys
    && (forall x :: TotalIn(after, x) == TotalIn(before, x))
    && (forall x, y :: At(after, x, y) ==
                       if x == Claude && y == from then Zero()
                       else if x == Claude && y == to then Add(At(before, x, to), At(before, x, from))
                       else At(before, x, y))
  }

  lemma {:induction false} PouredByTwo(before: Agents, mid: Agents, after: Agents, from: Bucket, to: Bucket)
    requires from != to && Claude in before
    requires StoredAs(before, mid, Claude, from, TotalIn(before, Claude), Zero())
    requires StoredAs(mid, after, Claude, to, TotalIn(before, Claude),
                      Add(At(before, Claude, to), At(before, Claude, from)))
    ensures Poured(before, after, from, to)
  {
  }

  lemma {:induction false} FoldOne(before: Agents, after: Agents, es: seq<Entry>, bare: string, full: string,
                                   done: set<string>, f: string)
    requires FoldedSoFar(before, es, bare, full, done) && bare != full && f !in done && AnthropicOnly(es)
    requires SumWhere(es, All()).Fits()
    requires Poured(before, after, Bucket(ANTHROPIC, bare, f), Bucket(ANTHROPIC, full, f))
    ensures FoldedSoFar(after, es, bare, full, done + {f})
  {
    forall x, y ensures At(after, x, y) == SumWhere(es, FoldedIn(bare, full, done + {f}, x, y)) {
      FoldSums(es, bare, full, done, f, x, y);
      PartFits(es, FoldedIn(bare, full, done + {f}, x, y));
      var from := Bucket(ANTHROPIC, bare, f);
      assert At(before, x, y) == SumWhere(es, FoldedIn(bare, full, done, x, y));
      assert At(before, x, from) == SumWhere(es, FoldedIn(bare, full, done, x, from));
    }
  }

  lemma {:induction false} FoldAll(agents: Agents, es: seq<Entry>, bare: string, full: string, done: set<string>)
    requires FoldedSoFar(agents, es, bare, full, done)
    requires forall e | e in es && e.Agent() == Claude && e.bucket.model == bare :: e.bucket.effort in done
    ensures AgentsMatch(agents, Relabel(es, Promote(bare, full)))
  {
    var f := Promote(bare, full);
    forall x ensures TotalIn(agents, x) == SumWhere(Relabel(es, f), OfAgent(x)) {
      SumRelabel(es, f, OfAgent(x), OfAgent(x));
    }
    forall x, y ensures At(agents, x, y) == SumWhere(Relabel(es, f), InBucket(x, y)) {
      SumRelabel(es, f, InBucket(x, y), FoldedIn(bare, full, done, x, y));
    }
  }

  lemma {:induction false} FoldLedgers(m: map<SourceKey, map<Bucket, Stats>>, p: map<string, map<Bucket, Stats>>,
                                       es: seq<Entry>, bare: string, full: string)
    requires MetricsMatch(m, es) && PendingMatch(p, es)
    requires forall e | e in es && e.tag.ClaudeMetricUsage? :: e.bucket.model != bare
    ensures MetricsMatch(m, Relabel(es, Promote(bare, full))) && PendingMatch(p, Relabel(es, Promote(bare, full)))
  {
    var f := Promote(bare, full);
    forall k, b ensures Amount(PerBucket(m, k), b) == SumWhere(Relabel(es, f), MetricAt(k, b)) {
      SumRelabel(es, f, MetricAt(k, b), MetricAt(k, b));
    }
    forall c, b ensures Amount(PerBucket(p, c), b) == SumWhere(Relabel(es, f), PendingAt(c, b)) {
      SumRelabel(es, f, PendingAt(c, b), PendingAt(c, b));
    }
  }

  /** Where the ledger has an entry, the maps have a bucket. */
  lemma {:induction false} EntryHasBucket(agents: Agents, es: seq<Entry>, e: Entry)
    requires AgentsMatch(agents, es) && e in es && forall d | d in es :: d.stats.HasAnyValue()
    ensures At(agents, e.Agent(), e.bucket).HasAnyValue()
  {
    SumHasValue(es, InBucket(e.Agent(), e.bucket));
    assert InBucket(e.Agent(), e.bucket)(e);
  }

  // Moving a conversation's pending usage, bucket by bucket

  function Target(m: Session, b: Bucket): Bucket {
    ResolvedBucket(b, m.provider, m.effort)
  }

  predicate StillPending(m: Session, to: Bucket) {
    !m.confirmed || to.effort == UNKNOWN
  }

  /** Usage whose provider or effort is still open is put back under its new bucket. */
  function KeptWith(kept: map<Bucket, Stats>, m: Session, to: Bucket, stats: Stats): map<Bucket, Stats> {
    if StillPending(m, to) then kept[to := Add(Amount(kept, to), stats)] else kept
  }

  lemma {:induction false} KeptHasValue(kept: map<Bucket, Stats>, m: Session, to: Bucket, stats: Stats)
    requires stats.HasAnyValue() && forall b | b in kept :: kept[b].HasAnyValue()
    ensures forall b | b in KeptWith(kept, m, to, stats) :: KeptWith(kept, m, to, stats)[b].HasAnyValue()
  {
  }

  function PlacedIn(m: Session, done: set<Bucket>, x: Agent, y: Bucket): Entry -> bool {
    (e: Entry) =>
      e.Agent() == x && y == if IsPendingOf(m.cid, e) && e.bucket in done then Target(m, e.bucket) else e.bucket
  }

  function KeptIn(m: Session, done: set<Bucket>, y: Bucket): Entry -> bool {
    (e: Entry) => IsPendingOf(m.cid, e) && e.bucket in done && Target(m, e.bucket) == y && StillPending(m, y)
  }

  ghost predicate ResolvedSoFar(agents: Agents, kept: map<Bucket, Stats>, es: seq<Entry>, m: Session,
                                done: set<Bucket>) {
    && (forall x :: TotalIn(agents, x) == SumWhere(es, OfAgent(x)))
    && (forall x, y :: At(agents, x, y) == SumWhere(es, PlacedIn(m, done, x, y)))
    && (forall y :: Amount(kept, y) == SumWhere(es, KeptIn(m, done, y)))
  }

  lemma {:induction false} ResolveStart(agents: Agents, es: seq<Entry>, m: Session)
    requires AgentsMatch(agents, es)
    ensures ResolvedSoFar(agents, map[], es, m, {})
  {
    forall x, y ensures At(agents, x, y) == SumWhere(es, PlacedIn(m, {}, x, y)) {
      SumSame(es, InBucket(x, y), PlacedIn(m, {}, x, y));
    }
    forall y: Bucket ensures SumWhere(es, KeptIn(m, {}, y)) == Zero() {
      SumNothing(es, KeptIn(m, {}, y));
    }
  }

  lemma {:induction false} PlacedSums(es: seq<Entry>, m: Session, done: set<Bucket>, b: Bucket, x: Agent, y: Bucket)
    requires b !in done
    ensures var to := Target(m, b);
            if x == Codex && y == b && to != b then
              SumWhere(es, PlacedIn(m, done, x, y)) ==
                Plus(SumWhere(es, PlacedIn(m, done + {b}, x, y)), SumWhere(es, PendingAt(m.cid, b)))
            else if x == Codex && y == to && to != b then
              SumWhere(es, PlacedIn(m, done + {b}, x, y)) ==
                Plus(SumWhere(es, PlacedIn(m, done, x, y)), SumWhere(es, PendingAt(m.cid, b)))
            else SumWhere(es, PlacedIn(m, done + {b}, x, y)) == SumWhere(es, PlacedIn(m, done, x, y))
  {
    var to := Target(m, b);
    if x == Codex && y == b && to != b {
      SumSplit(es, PlacedIn(m, done, x, y), PlacedIn(m, done + {b}, x, y), PendingAt(m.cid, b));
    } else if x == Codex && y == to && to != b {
      SumSplit(es, PlacedIn(m, done + {b}, x, y), PlacedIn(m, done, x, y), PendingAt(m.cid, b));
    } else {
      SumSame(es, PlacedIn(m, done + {b}, x, y), PlacedIn(m, done, x, y));
    }
  }

  lemma {:induction false} KeptSums(es: seq<Entry>, m: Session, done: set<Bucket>, b: Bucket, y: Bucket)
    requires b !in done
    ensures var to := Target(m, b);
            SumWhere(es, KeptIn(m, done + {b}, y)) ==
            if y == to && StillPending(m, to)
              then Plus(SumWhere(es, KeptIn(m, done, y)), SumWhere(es, PendingAt(m.cid, b)))
            else SumWhere(es, KeptIn(m, done, y))
  {
    var to := Target(m, b);
    if y == to && StillPending(m, to) {
      SumSplit(es, KeptIn(m, done + {b}, y), KeptIn(m, done, y), PendingAt(m.cid, b));
    } else {
      SumSame(es, KeptIn(m, done + {b}, y), KeptIn(m, done, y));
    }
  }

  lemma {:induction false} TargetIsProper(m: Session, b: Bucket)
    ensures Proper(Codex, Target(m, b))
  {
  }

  /** What is still to be moved is still in its bucket. */
  lemma {:induction false} ResolveHeld(agents: Agents, kept: map<Bucket, Stats>, es: seq<Entry>, m: Session,
                                       done: set<Bucket>, b: Bucket)
    requires ResolvedSoFar(agents, kept, es, m, done) && b !in done && Target(m, b) != b
    ensures SumWhere(es, PendingAt(m.cid, b)).AtMost(At(agents, Codex, b))
    ensures SumWhere(es, PendingAt(m.cid, b)).HasAnyValue() ==> Codex in agents
  {
    PlacedSums(es, m, done, b, Codex, b);
    SubtractInverts(At(agents, Codex, b), SumWhere(es, PlacedIn(m, done + {b}, Codex, b)),
                    SumWhere(es, PendingAt(m.cid, b)));
  }

  lemma {:induction false} ResolveOne(before: Agents, after: Agents, kept: map<Bucket, Stats>, es: seq<Entry>,
                                      m: Session, done: set<Bucket>, b: Bucket, stats: Stats)
    requires ResolvedSoFar(before, kept, es, m, done) && b !in done && stats == SumWhere(es, PendingAt(m.cid, b))
    requires SumWhere(es, All()).Fits()
    requires if Target(m, b) == b then after == before else Moved(before, after, Codex, b, Target(m, b), stats)
    ensures ResolvedSoFar(after, KeptWith(kept, m, Target(m, b), stats), es, m, done + {b})
  {
    hide SumWhere, Key, At, TotalIn, UsageKey;
    var to := Target(m, b);
    var kept' := KeptWith(kept, m, to, stats);
    forall x, y ensures At(after, x, y) == SumWhere(es, PlacedIn(m, done + {b}, x, y)) {
      PlacedSums(es, m, done, b, x, y);
      PartFits(es, PlacedIn(m, done + {b}, x, y));
      assert At(before, x, y) == SumWhere(es, PlacedIn(m, done, x, y));
      if x == Codex && y == b && to != b {
        SubtractInverts(At(before, x, y), SumWhere(es, PlacedIn(m, done + {b}, x, y)), stats);
      }
    }
    forall y ensures Amount(kept', y) == SumWhere(es, KeptIn(m, done + {b}, y)) {
      KeptSums(es, m, done, b, y);
      PartFits(es, KeptIn(m, done + {b}, y));
      assert Amount(kept, y) == SumWhere(es, KeptIn(m, done, y));
    }
  }

  /** Everything pending for the conversation stands in one of the buckets its map names. */
  lemma {:induction false} PendingNamed(es: seq<Entry>, cid: string, entries: map<Bucket, Stats>)
    requires forall e | e in es :: e.stats.HasAnyValue()
    requires forall b :: Amount(entries, b) == SumWhere(es, PendingAt(cid, b))
    ensures forall e | e in es && IsPendingOf(cid, e) :: e.bucket in entries
  {
    forall e | e in es && IsPendingOf(cid, e) ensures e.bucket in entries {
      SumHasValue(es, PendingAt(cid, e.bucket));
      assert PendingAt(cid, e.bucket)(e);
    }
  }

  lemma {:induction false} ResolveAll(agents: Agents, kept: map<Bucket, Stats>, es: seq<Entry>, m: Session,
                                      done: set<Bucket>)
    requires m.cid != "" && ResolvedSoFar(agents, kept, es, m, done)
    requires forall e | e in es && IsPendingOf(m.cid, e) :: e.bucket in done
    ensures AgentsMatch(agents, Relabel(es, Mover(m)))
    ensures forall y :: Amount(kept, y) == SumWhere(Relabel(es, Mover(m)), PendingAt(m.cid, y))
  {
    var f := Mover(m);
    forall x ensures TotalIn(agents, x) == SumWhere(Relabel(es, f), OfAgent(x)) {
      SumRelabel(es, f, OfAgent(x), OfAgent(x));
    }
    forall x, y ensures At(agents, x, y) == SumWhere(Relabel(es, f), InBucket(x, y)) {
      SumRelabel(es, f, InBucket(x, y), PlacedIn(m, done, x, y));
    }
    forall y ensures Amount(kept, y) == SumWhere(Relabel(es, f), PendingAt(m.cid, y)) {
      SumRelabel(es, f, PendingAt(m.cid, y), KeptIn(m, done, y));
    }
  }

  lemma {:induction false} ResolveLedgers(m: map<SourceKey, map<Bucket, Stats>>, p: map<string, map<Bucket, Stats>>,
                                          kept: map<Bucket, Stats>,
                       es: seq<Entry>, session: Session)
    requires session.cid != "" && MetricsMatch(m, es) && PendingMatch(p, es)
    requires forall y :: Amount(kept, y) == SumWhere(Relabel(es, Mover(session)), PendingAt(session.cid, y))
    requires forall b | b in kept :: kept[b].HasAnyValue()
    ensures MetricsMatch(m, Relabel(es, Mover(session)))
    ensures PendingMatch(if kept == map[] then p - {session.cid} else p[session.cid := kept],
                         Relabel(es, Mover(session)))
  {
    var f := Mover(session);
    var p' := if kept == map[] then p - {session.cid} else p[session.cid := kept];
    forall k, b ensures Amount(PerBucket(m, k), b) == SumWhere(Relabel(es, f), MetricAt(k, b)) {
      SumRelabel(es, f, MetricAt(k, b), MetricAt(k, b));
    }
    forall c, b ensures Amount(PerBucket(p', c), b) == SumWhere(Relabel(es, f), PendingAt(c, b)) {
      if c != session.cid {
        SumRelabel(es, f, PendingAt(c, b), PendingAt(c, b));
      }
    }
  }

  lemma {:induction false} ResolvedMatches(agents: Agents, m: map<SourceKey, map<Bucket, Stats>>,
                                           p: map<string, map<Bucket, Stats>>, kept: map<Bucket, Stats>,
                                           es: seq<Entry>, session: Session, done: set<Bucket>)
    requires session.cid != "" && ResolvedSoFar(agents, kept, es, session, done)
    requires forall e | e in es && IsPendingOf(session.cid, e) :: e.bucket in done
    requires MetricsMatch(m, es) && PendingMatch(p, es) && forall b | b in kept :: kept[b].HasAnyValue()
    ensures AgentsMatch(agents, Relabel(es, Mover(session))) && MetricsMatch(m, Relabel(es, Mover(session)))
    ensures PendingMatch(if kept == map[] then p - {session.cid} else p[session.cid := kept],
                         Relabel(es, Mover(session)))
  {
    ResolveAll(agents, kept, es, session, done);
    ResolveLedgers(m, p, kept, es, session);
  }

  /** With nothing pending for the conversation the report moves nothing. */
  lemma {:induction false} NothingToResolve(es: seq<Entry>, m: Session)
    requires m.cid != "" && forall e | e in es :: !IsPendingOf(m.cid, e)
    ensures Relabel(es, Mover(m)) == es && !Moves(es, Mover(m))
  {
    forall i | 0 <= i < |es| ensures Mover(m)(es[i]) == es[i] {
      assert es[i] in es;
    }
  }

  /** The breakdown changes exactly when some bucket's pending usage has another target. */
  lemma {:induction false} MovesIffTarget(es: seq<Entry>, m: Session, entries: map<Bucket, Stats>)
    requires m.cid != "" && forall e | e in es :: e.stats.HasAnyValue()
    requires forall b :: Amount(entries, b) == SumWhere(es, PendingAt(m.cid, b))
    requires forall b | b in entries :: entries[b].HasAnyValue()
    ensures Moves(es, Mover(m)) <==> exists b :: b in entries && Target(m, b) != b
  {
    PendingNamed(es, m.cid, entries);
    forall b | b in entries && Target(m, b) != b ensures Moves(es, Mover(m)) {
      SumHasValue(es, PendingAt(m.cid, b));
      assert Amount(entries, b) == entries[b];
      var e :| e in es && PendingAt(m.cid, b)(e);
      assert Mover(m)(e).bucket != e.bucket;
    }
    if Moves(es, Mover(m)) {
      var e :| e in es && Mover(m)(e).bucket != e.bucket;
      assert e.bucket in entries && Target(m, e.bucket) != e.bucket;
    }
  }

  // The unknown-effort bucket of old telemetry

  function PendingAmong(cids: set<string>, b: Bucket): Entry -> bool {
    (e: Entry) => e.Pending() && e.tag.cid in cids && e.bucket == b
  }

  lemma {:induction false} PendingAmongOne(es: seq<Entry>, cids: set<string>, c: string, b: Bucket)
    requires c !in cids
    ensures SumWhere(es, PendingAmong(cids + {c}, b)) ==
            Plus(SumWhere(es, PendingAmong(cids, b)), SumWhere(es, PendingAt(c, b)))
  {
    SumSplit(es, PendingAmong(cids + {c}, b), PendingAmong(cids, b), PendingAt(c, b));
  }

  lemma {:induction false} PendingAmongAll(es: seq<Entry>, p: map<string, map<Bucket, Stats>>, b: Bucket)
    requires PendingMatch(p, es) && forall e | e in es :: e.stats.HasAnyValue()
    ensures SumWhere(es, PendingAmong(p.Keys, b)) == SumWhere(es, AnyPendingAt(b))
  {
    forall e | e in es && e.Pending() && e.bucket == b ensures e.tag.cid in p {
      SumHasValue(es, PendingAt(e.tag.cid, b));
      assert PendingAt(e.tag.cid, b)(e);
      assert Amount(PerBucket(p, e.tag.cid), b).HasAnyValue();
    }
    SumSame(es, PendingAmong(p.Keys, b), AnyPendingAt(b));
  }

  function SettledAt(b: Bucket): Entry -> bool {
    (e: Entry) => e.Agent() == Codex && e.bucket == b && !e.Pending()
  }

  /** In every bucket the pending usage is part of what the bucket holds; the rest is settled. */
  lemma {:induction false} PendingIsPart(es: seq<Entry>, b: Bucket)
    ensures SumWhere(es, InBucket(Codex, b)) == Plus(SumWhere(es, SettledAt(b)), SumWhere(es, AnyPendingAt(b)))
  {
    SumSplit(es, InBucket(Codex, b), SettledAt(b), AnyPendingAt(b));
  }

  /** After the move of old telemetry the source bucket holds exactly the pending usage. */
  lemma {:induction false} SettledMoveLeavesPending(es: seq<Entry>, from: Bucket, to: Bucket)
    requires from != to
    ensures SumWhere(Relabel(es, MoveSettled(from, to)), InBucket(Codex, from)) == SumWhere(es, AnyPendingAt(from))
    ensures SumWhere(Relabel(es, MoveSettled(from, to)), InBucket(Codex, to)) ==
            Plus(SumWhere(es, InBucket(Codex, to)), SumWhere(es, SettledAt(from)))
    ensures forall x, y | x != Codex || (y != from && y != to) ::
              SumWhere(Relabel(es, MoveSettled(from, to)), InBucket(x, y)) == SumWhere(es, InBucket(x, y))
  {
    var f := MoveSettled(from, to);
    SumRelabel(es, f, InBucket(Codex, from), AnyPendingAt(from));
    var atTo := (e: Entry) => InBucket(Codex, to)(e) || SettledAt(from)(e);
    SumRelabel(es, f, InBucket(Codex, to), atTo);
    SumSplit(es, atTo, InBucket(Codex, to), SettledAt(from));
    forall x, y | x != Codex || (y != from && y != to)
      ensures SumWhere(Relabel(es, f), InBucket(x, y)) == SumWhere(es, InBucket(x, y)) {
      SumRelabel(es, f, InBucket(x, y), InBucket(x, y));
    }
  }

  lemma {:induction false} SettledLedgers(m: map<SourceKey, map<Bucket, Stats>>, p: map<string, map<Bucket, Stats>>,
                                          es: seq<Entry>, from: Bucket, to: Bucket)
    requires MetricsMatch(m, es) && PendingMatch(p, es)
    ensures MetricsMatch(m, Relabel(es, MoveSettled(from, to))) && PendingMatch(p, Relabel(es, MoveSettled(from, to)))
  {
    var f := MoveSettled(from, to);
    forall k, b ensures Amount(PerBucket(m, k), b) == SumWhere(Relabel(es, f), MetricAt(k, b)) {
      SumRelabel(es, f, MetricAt(k, b), MetricAt(k, b));
    }
    forall c, b ensures Amount(PerBucket(p, c), b) == SumWhere(Relabel(es, f), PendingAt(c, b)) {
      SumRelabel(es, f, PendingAt(c, b), PendingAt(c, b));
    }
  }

  lemma {:induction false} SettledIsExact(before: Agents, es: seq<Entry>, from: Bucket)
    requires AgentsMatch(before, es)
    ensures var movable := SumWhere(es, SettledAt(from));
            movable.AtMost(At(before, Codex, from))
              && Subtract(At(before, Codex, from), movable) == SumWhere(es, AnyPendingAt(from))
  {
    PendingIsPart(es, from);
    PlusCommutes(SumWhere(es, SettledAt(from)), SumWhere(es, AnyPendingAt(from)));
    assert At(before, Codex, from) == SumWhere(es, InBucket(Codex, from));
    SubtractInverts(At(before, Codex, from), SumWhere(es, AnyPendingAt(from)), SumWhere(es, SettledAt(from)));
  }

  lemma {:induction false} SettledMoveAt(before: Agents, after: Agents, es: seq<Entry>, from: Bucket, to: Bucket,
                                         x: Agent, y: Bucket)
    requires AgentsMatch(before, es) && from != to && SumWhere(es, All()).Fits()
    requires Moved(before, after, Codex, from, to, SumWhere(es, SettledAt(from)))
    ensures At(after, x, y) == SumWhere(Relabel(es, MoveSettled(from, to)), InBucket(x, y))
  {
    var f := MoveSettled(from, to);
    RelabelKeepsSum(es, f);
    PartFits(Relabel(es, f), InBucket(x, y));
    SettledMoveLeavesPending(es, from, to);
    assert At(before, x, y) == SumWhere(es, InBucket(x, y));
    hide SumWhere, MoveSettled, Subtract, Add;
    if x == Codex && y == from {
      SettledIsExact(before, es, from);
    } else if x == Codex && y == to {
      AddFits(At(before, x, y), SumWhere(es, SettledAt(from)));
    }
  }

  lemma {:induction false} AddFits(a: Stats, b: Stats)
    ensures Plus(a, b).Fits() ==> Add(a, b) == Plus(a, b)
  {
  }

  lemma {:induction false} SettledMoveFollows(before: Agents, after: Agents, es: seq<Entry>, from: Bucket, to: Bucket)
    requires AgentsMatch(before, es) && from != to && SumWhere(es, All()).Fits()
    requires Moved(before, after, Codex, from, to, SumWhere(es, SettledAt(from)))
    ensures AgentsMatch(after, Relabel(es, MoveSettled(from, to)))
  {
    var f := MoveSettled(from, to);
    forall x ensures TotalIn(after, x) == SumWhere(Relabel(es, f), OfAgent(x)) {
      SumRelabel(es, f, OfAgent(x), OfAgent(x));
    }
    forall x, y ensures At(after, x, y) == SumWhere(Relabel(es, f), InBucket(x, y)) {
      SettledMoveAt(before, after, es, from, to, x, y);
    }
  }

  lemma {:induction false} PlusCommutes(a: Stats, b: Stats)
    ensures Plus(a, b) == Plus(b, a)
  {
  }

  lemma {:induction false} NothingSettled(es: seq<Entry>, from: Bucket, to: Bucket)
    requires forall e | e in es :: e.stats.HasAnyValue()
    requires !SumWhere(es, SettledAt(from)).HasAnyValue()
    ensures Relabel(es, MoveSettled(from, to)) == es && !Moves(es, MoveSettled(from, to))
  {
    SumHasValue(es, SettledAt(from));
    forall i | 0 <= i < |es| ensures MoveSettled(from, to)(es[i]) == es[i] {
      assert es[i] in es;
      assert !SettledAt(from)(es[i]);
    }
  }

  lemma {:induction false} SomethingSettled(es: seq<Entry>, from: Bucket, to: Bucket)
    requires from != to && forall e | e in es :: e.stats.HasAnyValue()
    requires SumWhere(es, SettledAt(from)).HasAnyValue()
    ensures Moves(es, MoveSettled(from, to))
  {
    SumHasValue(es, SettledAt(from));
    var e :| e in es && SettledAt(from)(e);
    assert MoveSettled(from, to)(e).bucket != e.bucket;
  }

  lemma {:induction false} PendingIsExact(agents: Agents, es: seq<Entry>, from: Bucket)
    requires AgentsMatch(agents, es)
    ensures var pending := SumWhere(es, AnyPendingAt(from));
            pending.AtMost(At(agents, Codex, from))
              && Subtract(At(agents, Codex, from), pending) == SumWhere(es, SettledAt(from))
    ensures SumWhere(es, SettledAt(from)).AtMost(At(agents, Codex, from))
    ensures SumWhere(es, SettledAt(from)).HasAnyValue() ==> Codex in agents
  {
    PendingIsPart(es, from);
    assert At(agents, Codex, from) == SumWhere(es, InBucket(Codex, from));
    SubtractInverts(At(agents, Codex, from), SumWhere(es, SettledAt(from)), SumWhere(es, AnyPendingAt(from)));
    SettledIsExact(agents, es, from);
  }

  lemma {:induction false} LegacyFollows(before: Agents, after: Agents, es: seq<Entry>, from: Bucket, to: Bucket,
                                         movable: Stats)
    requires AgentsMatch(before, es) && from != to && SumWhere(es, All()).Fits()
    requires movable == SumWhere(es, SettledAt(from)) && forall e | e in es :: e.stats.HasAnyValue()
    requires if movable.HasAnyValue() then Moved(before, after, Codex, from, to, movable) else after == before
    ensures AgentsMatch(after, Relabel(es, MoveSettled(from, to)))
    ensures Moves(es, MoveSettled(from, to)) <==> movable.HasAnyValue()
  {
    if movable.HasAnyValue() {
      SettledMoveFollows(before, after, es, from, to);
      SomethingSettled(es, from, to);
    } else {
      NothingSettled(es, from, to);
    }
  }

  /** What is pending for a conversation, and whether resolving it moves anything. */
  lemma {:induction false} PendingEntries(p: map<string, map<Bucket, Stats>>, es: seq<Entry>, m: Session)
    requires m.cid != "" && PendingMatch(p, es) && forall e | e in es :: e.stats.HasAnyValue()
    ensures var entries := PerBucket(p, m.cid);
            && (forall b :: Amount(entries, b) == SumWhere(es, PendingAt(m.cid, b)))
            && (forall b | b in entries :: entries[b].HasAnyValue())
            && (forall e | e in es && IsPendingOf(m.cid, e) :: e.bucket in entries)
            && (Moves(es, Mover(m)) <==> exists b :: b in entries && Target(m, b) != b)
  {
    var entries := PerBucket(p, m.cid);
    assert forall b :: Amount(entries, b) == SumWhere(es, PendingAt(m.cid, b));
    MovesIffTarget(es, m, entries);
    PendingNamed(es, m.cid, entries);
  }

  lemma {:induction false} LedgerFacts(s: State)
    requires Invariant(s)
    ensures AnthropicOnly(s.ledger) && forall e | e in s.ledger :: e.stats.HasAnyValue()
    ensures forall e | e in s.ledger && e.tag.ClaudeMetricUsage? :: e.bucket.model in s.metricModels
  {
    assert forall e | e in s.ledger :: Good(s, e);
  }

  // No step counts more than its event offers

  lemma {:induction false} MoverKeepsSum(es: seq<Entry>, m: Session)
    ensures SumWhere(Relabel(es, Mover(m)), All()) == SumWhere(es, All())
  {
    RelabelKeepsSum(es, Mover(m));
  }

  lemma {:induction false} AddedSum(es: seq<Entry>, d: Entry, kept: seq<Entry>, e: Entry)
    requires SumWhere(kept, All()).AtMost(SumWhere(es + [d], All()))
    ensures GrewBy(es, kept + [e], Plus(d.stats, e.stats))
  {
    SumAppend(es, d, All());
    SumAppend(kept, e, All());
  }

  lemma {:induction false} LogGrows(s: State, model: string, effort: string, duration: nat, usage: Stats)
    ensures GrewBy(s.ledger, StepClaudeLog(s, model, effort, duration, usage).ledger,
                   Plus(RequestSample(duration), LogUsage(usage)))
  {
    var b := FromParts(ANTHROPIC, CanonicalModel(s, model), effort);
    var request, log := Entry(b, RequestSample(duration), ClaudeRequest), Entry(b, LogUsage(usage), ClaudeLogUsage);
    var keep := IsNotMetricOf(UsageKey(b.model, b.effort));
    hide SumWhere, LogUsage, RequestSample, UsageKey, CanonicalModel;
    if LogUsage(usage).HasUsage() {
      FilterShrinks(s.ledger + [request], keep);
      AddedSum(s.ledger, request, Filter(s.ledger + [request], keep), log);
      AddedSum(s.ledger, request, s.ledger + [request], log);
    } else {
      SumAppend(s.ledger, request, All());
    }
  }

  lemma {:induction false} MetricGrows(s: State, model: string, effort: string, kind: ClaudePoint, value: nat)
    ensures GrewBy(s.ledger, StepClaudeMetric(s, model, effort, kind, value).state.ledger, ClaudeSample(kind, value))
  {
    var name := NonEmpty(model);
    RegisterKeepsSum(s, name);
    var added := Entry(FromParts(ANTHROPIC, name, effort), ClaudeSample(kind, value), ClaudeMetricUsage);
    hide SumWhere, UsageKey, ClaudeSample, Register;
    SumAppend(Register(s, name).ledger, added, All());
  }

  lemma {:induction false} SpanGrows(s: State, service: string, cid: string, model: string, effort: string)
    ensures SumWhere(StepSpan(s, service, cid, model, effort).state.ledger, All()) == SumWhere(s.ledger, All())
  {
    if cid == "" {
      var last := LastSession(s, service);
      MoverKeepsSum(s.ledger, last.(effort := effort));
    } else {
      var session := SpannedSession(s, cid, model, effort);
      MoverKeepsSum(s.ledger, Merged(s, session));
    }
  }

  lemma {:induction false} SampleGrows(s: State, e: Event)
    requires IsSample(e)
    ensures GrewBy(s.ledger, Step(s, e).state.ledger, Offer(e))
  {
    var after := Step(s, e).state.ledger;
    SampleStep(s, e);
    hide StepSse, StepTokens, StepTurnSample, SumWhere;
    if Step(s, e).hit {
      SumAppend(s.ledger, after[|s.ledger|], All());
    }
  }

  lemma {:induction false} StepGrows(s: State, e: Event)
    ensures GrewBy(s.ledger, Step(s, e).state.ledger, Offer(e))
  {
    hide SumWhere, StepClaudeLog, StepClaudeMetric, StepSpan, StepSse, StepTokens, StepTurnSample, Mover, Moves, Merged;
    match e
    case ClaudeLog(model, effort, duration, usage) => LogGrows(s, model, effort, duration, usage);
    case ClaudeMetric(model, effort, kind, value) => MetricGrows(s, model, effort, kind, value);
    case CodexStart(service, cid, provider, model, effort) =>
      MoverKeepsSum(s.ledger, Merged(s, StartedSession(cid, provider, model, effort)));
    case CodexSpan(service, cid, model, effort) => SpanGrows(s, service, cid, model, effort);
    case _ => SampleGrows(s, e);
  }
}
