/** The usage aggregator itself: maps updated in place, event by event, with saturating
    counters. The ghost ledger says what has been counted; as long as everything ever offered
    fits the counters, every map holds exactly the sums of its part of the ledger. */
module UsageAggregator {
  import opened Basics
  import opened UsageStats
  import opened BucketKeys
  import opened UsageLedger
  import opened LedgerSums
  import opened LedgerInvariants
  import opened AggregatorMaps
  import opened AggregatorSteps

  class Aggregator {
    var agents: Agents
    var canonicalModels: map<string, string>
    var metricModels: set<string>
    var claudeSources: map<SourceKey, ClaudeSource>
    var claudeMetricUsage: map<SourceKey, map<Bucket, Stats>>
    var lastSessions: map<string, Session>
    var sessions: map<string, Session>
    var tokenSources: map<string, TokenSource>
    var pendingSse: map<string, map<Bucket, Stats>>

    /** What is counted, everything ever offered, and whether a subtraction was ever cut off at zero. */
    ghost var ledger: seq<Entry>
    ghost var offered: Stats
    ghost var clamped: bool

    ghost function Abs(): State
      reads `ledger, `canonicalModels, `metricModels, `claudeSources, `lastSessions, `sessions, `tokenSources
    {
      State(ledger, canonicalModels, metricModels, claudeSources, lastSessions, sessions, tokenSources)
    }

    ghost predicate Exact()
      reads `clamped, `agents, `ledger, `claudeMetricUsage, `pendingSse
    {
      && !clamped
      && AgentsMatch(agents, ledger)
      && MetricsMatch(claudeMetricUsage, ledger)
      && PendingMatch(pendingSse, ledger)
    }

    ghost predicate Valid()
      reads this
    {
      && Invariant(Abs())
      && Tidy(agents)
      && MetricsHeld(claudeSources, claudeMetricUsage)
      && SumWhere(ledger, All()).AtMost(offered)
      && (offered.Fits() ==> Exact())
    }

    constructor ()
      ensures Valid() && Abs() == INITIAL && offered == Zero()
    {
      agents := map[];
      canonicalModels := map[];
      metricModels := {};
      claudeSources := map[];
      claudeMetricUsage := map[];
      lastSessions := map[];
      sessions := map[];
      tokenSources := map[];
      pendingSse := map[];
      ledger := [];
      offered := Zero();
      clamped := false;
    }

    // Single map updates

    method Store(a: Agent, b: Bucket, total: Stats, stats: Stats)
      requires Tidy(agents) && (stats.HasAnyValue() ==> Proper(a, b))
      modifies this`agents
      ensures Tidy(agents) && StoredAs(old(agents), agents, a, b, total, stats)
    {
      var entry := BucketStats(b, stats);
      StoredTidy(agents, a, b, total, entry);
      StoredViews(agents, a, b, total, entry);
      agents := Stored(agents, a, b, total, entry);
    }

    method RecordInto(a: Agent, b: Bucket, stats: Stats)
      requires Tidy(agents) && Proper(a, b)
      modifies this`agents
      ensures Tidy(agents) && Recorded(old(agents), agents, a, b, stats)
    {
      Store(a, b, Add(TotalIn(agents, a), stats), Add(At(agents, a, b), stats));
    }

    method SubtractFrom(a: Agent, b: Bucket, stats: Stats)
      requires Tidy(agents)
      modifies this`agents, this`clamped
      ensures Tidy(agents) && Subtracted(old(agents), agents, a, b, stats)
      ensures clamped == (old(clamped) || !stats.AtMost(TotalIn(old(agents), a))
                          || !stats.AtMost(At(old(agents), a, b)))
    {
      clamped := clamped || !stats.AtMost(TotalIn(agents, a)) || !stats.AtMost(At(agents, a, b));
      if a in agents {
        var left := Subtract(At(agents, a, b), stats);
        if left.HasAnyValue() {
          HeldBucket(agents, a, b);
        }
        Store(a, b, Subtract(agents[a].total, stats), left);
      }
    }

    method MoveBucketStats(from: Bucket, to: Bucket, stats: Stats)
      requires Tidy(agents) && from != to && Proper(Codex, to)
      modifies this`agents, this`clamped
      ensures Tidy(agents)
      ensures Codex in old(agents) ==> Codex in agents && Moved(old(agents), agents, Codex, from, to, stats)
      ensures clamped == (old(clamped) || !stats.AtMost(At(old(agents), Codex, from)))
    {
      clamped := clamped || !stats.AtMost(At(agents, Codex, from));
      if Codex in agents {
        var total, left := agents[Codex].total, Subtract(At(agents, Codex, from), stats);
        var sum := Add(At(agents, Codex, to), stats);
        if left.HasAnyValue() {
          HeldBucket(agents, Codex, from);
        }
        Store(Codex, from, total, left);
        ghost var mid := agents;
        Store(Codex, to, total, sum);
        MovedByTwo(old(agents), mid, agents, from, to, stats);
      }
    }

    // Claude

    /** Count one entry that is neither metric usage nor pending. */
    method Count(e: Entry)
      requires Tidy(agents) && !e.tag.ClaudeMetricUsage? && !e.Pending() && Proper(e.Agent(), e.bucket)
      modifies this`agents, this`ledger
      ensures Tidy(agents) && ledger == old(ledger) + [e]
      ensures old(Exact()) && SumWhere(ledger, All()).Fits() ==> Exact()
    {
      RecordInto(e.Agent(), e.bucket, e.stats);
      ledger := ledger + [e];
      if old(Exact()) && SumWhere(ledger, All()).Fits() {
        RecordFollows(old(agents), agents, old(ledger), e);
        MetricsFollowOthers(claudeMetricUsage, old(ledger), e);
        PendingFollowsOthers(pendingSse, old(ledger), e);
      }
    }

    /** Give back, bucket by bucket, what the metrics of a key had counted. */
    method RetractMetricUsage(key: SourceKey)
      requires Tidy(agents) && key in claudeMetricUsage && forall e | e in ledger :: e.stats.HasAnyValue()
      modifies this`agents, this`ledger, this`clamped, this`claudeMetricUsage
      ensures Tidy(agents) && ledger == Filter(old(ledger), IsNotMetricOf(key))
              && claudeMetricUsage == old(claudeMetricUsage) - {key}
      ensures old(Exact()) ==> Exact()
    {
      ghost var exact := Exact();
      var perBucket := claudeMetricUsage[key];
      claudeMetricUsage := claudeMetricUsage - {key};
      var remaining := perBucket.Keys;
      ghost var done: set<Bucket> := {};
      if exact {
        RetractStart(agents, ledger, key);
        assert forall b :: Amount(perBucket, b) == Amount(PerBucket(old(claudeMetricUsage), key), b);
      }
      while remaining != {}
        invariant remaining !! done && remaining + done == perBucket.Keys
        invariant Tidy(agents) && ledger == old(ledger) && claudeMetricUsage == old(claudeMetricUsage) - {key}
        invariant exact ==> !clamped && RetractedSoFar(agents, ledger, key, done)
        decreases remaining
      {
        var b :| b in remaining;
        ghost var before := agents;
        SubtractFrom(Claude, b, perBucket[b]);
        if exact {
          assert perBucket[b] == Amount(perBucket, b) == SumWhere(ledger, MetricAt(key, b));
          RetractOne(before, agents, ledger, key, done, b, perBucket[b]);
        }
        done := done + {b};
        remaining := remaining - {b};
      }
      if exact {
        assert done == perBucket.Keys;
        RetractAll(agents, ledger, key, perBucket);
        RetractLedgers(old(claudeMetricUsage), pendingSse, ledger, key);
      }
      ledger := Filter(ledger, IsNotMetricOf(key));
    }

    /** Empty one bucket of a bare name into the same effort of the full name. */
    method PourBucket(from: Bucket, to: Bucket)
      requires Tidy(agents) && Claude in agents && from != to && Proper(Claude, to)
      modifies this`agents
      ensures Tidy(agents) && Claude in agents && Poured(old(agents), agents, from, to)
    {
      var total, sum := agents[Claude].total, Add(At(agents, Claude, to), At(agents, Claude, from));
      Store(Claude, from, total, Zero());
      ghost var mid := agents;
      Store(Claude, to, total, sum);
      PouredByTwo(old(agents), mid, agents, from, to);
    }

    /** The Claude buckets of one model name, found by the prefix scan over the ordered keys. */
    method BucketsOfModel(model: string) returns (found: seq<Bucket>)
      requires Tidy(agents)
      ensures found != [] ==> Claude in agents
      ensures OnePerEffort(found, model)
      ensures forall b: Bucket | b.model == model && At(agents, Claude, b).HasAnyValue() :: b in found
    {
      found := [];
      if Claude in agents {
        var keys := ScanPrefix(agents[Claude].buckets.Keys, ModelPrefix(model));
        ScannedBuckets(agents, keys, model);
        found := BucketsUnder(agents[Claude].buckets, keys);
      }
    }

    /** Empty every one of the bare name's buckets into its full name. */
    method PourAll(bareBuckets: seq<Bucket>, bare: string, full: string)
      requires Tidy(agents) && bare != full && full != "" && AnthropicOnly(ledger) && OnePerEffort(bareBuckets, bare)
      requires bareBuckets != [] ==> Claude in agents
      modifies this`agents
      ensures Tidy(agents)
      ensures AgentsMatch(old(agents), ledger) && SumWhere(ledger, All()).Fits() ==>
                FoldedSoFar(agents, ledger, bare, full, Efforts(bareBuckets))
    {
      assert Efforts(bareBuckets[..0]) == {};
      hide AgentsMatch, FoldedSoFar, Tidy, SumWhere, Efforts, Poured, Key;
      ghost var exact := AgentsMatch(agents, ledger) && SumWhere(ledger, All()).Fits();
      if exact {
        FoldStart(agents, ledger, bare, full);
      }
      for i := 0 to |bareBuckets|
        invariant Tidy(agents) && (bareBuckets != [] ==> Claude in agents)
        invariant exact ==> FoldedSoFar(agents, ledger, bare, full, Efforts(bareBuckets[..i]))
      {
        NextEffort(bareBuckets, i, bare);
        var from := bareBuckets[i];
        ghost var before := agents;
        PourBucket(from, FromParts(from.provider, full, from.effort));
        if exact {
          FoldOne(before, agents, ledger, bare, full, Efforts(bareBuckets[..i]), from.effort);
        }
      }
      assert bareBuckets[..|bareBuckets|] == bareBuckets;
    }

    /** Move every bucket of the bare name to the same effort of the full name. */
    method MergeBareIntoFull(bare: string, full: string)
      requires Tidy(agents) && bare != full && full != "" && AnthropicOnly(ledger)
      requires forall e | e in ledger :: e.stats.HasAnyValue()
      requires forall e | e in ledger && e.tag.ClaudeMetricUsage? :: e.bucket.model != bare
      modifies this`agents, this`ledger
      ensures Tidy(agents) && ledger == Relabel(old(ledger), Promote(bare, full))
      ensures old(Exact()) && SumWhere(old(ledger), All()).Fits() ==> Exact()
    {
      var bareBuckets := BucketsOfModel(bare);
      PourAll(bareBuckets, bare, full);
      if old(Exact()) && SumWhere(ledger, All()).Fits() {
        forall e | e in ledger && e.Agent() == Claude && e.bucket.model == bare
          ensures e.bucket.effort in Efforts(bareBuckets) {
          EntryHasBucket(old(agents), ledger, e);
        }
        FoldAll(agents, ledger, bare, full, Efforts(bareBuckets));
        FoldLedgers(claudeMetricUsage, pendingSse, ledger, bare, full);
      }
      ledger := Relabel(ledger, Promote(bare, full));
    }

    /** Remember the name a metric reported. The result is whether the bare name is folded into it. */
    method RegisterName(full: string) returns (folds: bool)
      requires full != ""
      modifies this`metricModels, this`canonicalModels
      ensures metricModels == old(metricModels) + {full} && canonicalModels == RegisteredNames(old(Abs()), full)
      ensures folds == Folds(old(Abs()), full)
    {
      metricModels := metricModels + {full};
      var bare := Bare(full);
      if bare == "" || bare == full {
        if full !in canonicalModels {
          canonicalModels := canonicalModels[full := full];
        }
        return false;
      }
      if bare in metricModels {
        return false;
      }
      if bare in canonicalModels && canonicalModels[bare] == full {
        return false;
      }
      canonicalModels := canonicalModels[bare := full];
      folds := true;
    }

    method RegisterCanonicalModel(full: string)
      requires Tidy(agents) && Invariant(Abs()) && full != ""
      modifies this`agents, this`ledger, this`metricModels, this`canonicalModels
      ensures Tidy(agents) && Abs() == Register(old(Abs()), full)
      ensures old(Exact()) && SumWhere(old(ledger), All()).Fits() ==> Exact()
    {
      LedgerFacts(Abs());
      assert Folds(Abs(), full) ==> Bare(full) != full && Bare(full) !in metricModels;
      hide AgentsMatch, MetricsMatch, PendingMatch, Invariant, Tidy, SumWhere, Bare, RegisteredNames, Folds;
      var folds := RegisterName(full);
      if folds {
        MergeBareIntoFull(Bare(full), full);
      }
    }

    /** A log's usage is counted after the metric usage of its key has been given back. */
    method RecordClaudeLogUsage(b: Bucket, stats: Stats)
      requires Tidy(agents) && Proper(Claude, b) && forall e | e in ledger :: e.stats.HasAnyValue()
      requires MetricsHeld(claudeSources, claudeMetricUsage)
      modifies this`agents, this`ledger, this`clamped, this`claudeMetricUsage, this`claudeSources
      ensures Tidy(agents) && MetricsHeld(claudeSources, claudeMetricUsage)
      ensures !stats.HasUsage() ==> ledger == old(ledger) && claudeSources == old(claudeSources)
      ensures stats.HasUsage() ==>
                var key := UsageKey(b.model, b.effort);
                && claudeSources == old(claudeSources)[key := ClaudeLogs]
                && ledger == (if Get(old(claudeSources), key) == Some(ClaudeMetrics)
                              then Filter(old(ledger), IsNotMetricOf(key)) else old(ledger))
                             + [Entry(b, stats, ClaudeLogUsage)]
      ensures old(Exact()) && Plus(SumWhere(old(ledger), All()), stats).Fits() ==> Exact()
    {
      hide AgentsMatch, MetricsMatch, PendingMatch, SumWhere, UsageKey, Bare;
      if !stats.HasUsage() {
        return;
      }
      var key := UsageKey(b.model, b.effort);
      if key in claudeSources && claudeSources[key] == ClaudeMetrics && key in claudeMetricUsage {
        RetractMetricUsage(key);
        FilterShrinks(old(ledger), IsNotMetricOf(key));
      }
      label retracted:
      Count(Entry(b, stats, ClaudeLogUsage));
      AppendGrows(old@retracted(ledger), Entry(b, stats, ClaudeLogUsage));
      claudeSources := claudeSources[key := ClaudeLogs];
    }

    method IngestClaudeLog(model: string, effort: string, duration: nat, usage: Stats)
      requires Tidy(agents) && Invariant(Abs()) && MetricsHeld(claudeSources, claudeMetricUsage)
      modifies this`agents, this`ledger, this`clamped, this`claudeMetricUsage, this`claudeSources
      ensures Tidy(agents) && MetricsHeld(claudeSources, claudeMetricUsage)
      ensures Abs() == StepClaudeLog(old(Abs()), model, effort, duration, usage)
      ensures && old(Exact())
              && Plus(SumWhere(old(ledger), All()), Plus(RequestSample(duration), LogUsage(usage))).Fits() ==>
                Exact()
    {
      assert forall e | e in ledger :: e.stats.HasAnyValue();
      hide AgentsMatch, MetricsMatch, PendingMatch, SumWhere, Bare, Invariant, Plus, Stats.Fits;
      var raw := if model in metricModels || model !in canonicalModels then model else canonicalModels[model];
      var b := FromParts(ANTHROPIC, raw, effort);
      Count(Entry(b, RequestSample(duration), ClaudeRequest));
      AppendFits(old(ledger), Entry(b, RequestSample(duration), ClaudeRequest), LogUsage(usage));
      RecordClaudeLogUsage(b, LogUsage(usage));
    }

    method RecordClaudeMetricUsage(b: Bucket, stats: Stats) returns (counted: bool)
      requires Tidy(agents) && Proper(Claude, b) && MetricsHeld(claudeSources, claudeMetricUsage)
      modifies this`agents, this`ledger, this`claudeMetricUsage, this`claudeSources
      ensures Tidy(agents) && MetricsHeld(claudeSources, claudeMetricUsage)
      ensures counted <==> stats.HasUsage() && Get(old(claudeSources), UsageKey(b.model, b.effort)) != Some(ClaudeLogs)
      ensures !counted ==> ledger == old(ledger) && claudeSources == old(claudeSources)
      ensures counted ==>
                && ledger == old(ledger) + [Entry(b, stats, ClaudeMetricUsage)]
                && claudeSources == old(claudeSources)[UsageKey(b.model, b.effort) := ClaudeMetrics]
      ensures old(Exact()) && Plus(SumWhere(old(ledger), All()), stats).Fits() ==> Exact()
    {
      if !stats.HasUsage() {
        return false;
      }
      var key := UsageKey(b.model, b.effort);
      hide Exact, SumWhere, UsageKey, Bare;
      if key in claudeSources && claudeSources[key] == ClaudeLogs {
        return false;
      }
      claudeSources := claudeSources[key := ClaudeMetrics];
      RecordMetric(Entry(b, stats, ClaudeMetricUsage), key);
      counted := true;
    }

    /** Count metric usage, and remember what to give back should a log arrive. */
    method RecordMetric(e: Entry, key: SourceKey)
      requires Tidy(agents) && e.tag.ClaudeMetricUsage? && Proper(Claude, e.bucket) && key == EntryKey(e)
      modifies this`agents, this`ledger, this`claudeMetricUsage
      ensures Tidy(agents) && ledger == old(ledger) + [e]
      ensures claudeMetricUsage.Keys == old(claudeMetricUsage).Keys + {key}
      ensures old(Exact()) && Plus(SumWhere(old(ledger), All()), e.stats).Fits() ==> Exact()
    {
      hide SumWhere, Key, At, TotalIn, AgentsMatch, MetricsMatch, PendingMatch, UsageKey;
      RecordInto(Claude, e.bucket, e.stats);
      claudeMetricUsage := AddedAt(claudeMetricUsage, key, e.bucket, e.stats);
      ledger := ledger + [e];
      AppendGrows(old(ledger), e);
      if old(Exact()) && Plus(SumWhere(old(ledger), All()), e.stats).Fits() {
        RecordFollows(old(agents), agents, old(ledger), e);
        MetricsFollow(old(claudeMetricUsage), old(ledger), e);
        PendingFollowsOthers(pendingSse, old(ledger), e);
      }
    }

    method IngestClaudeMetric(model: string, effort: string, kind: ClaudePoint, value: nat) returns (hit: bool)
      requires Tidy(agents) && Invariant(Abs()) && MetricsHeld(claudeSources, claudeMetricUsage)
      modifies this`agents, this`ledger, this`metricModels, this`canonicalModels, this`claudeMetricUsage,
               this`claudeSources
      ensures Tidy(agents) && MetricsHeld(claudeSources, claudeMetricUsage)
      ensures Outcome(Abs(), hit) == StepClaudeMetric(old(Abs()), model, effort, kind, value)
      ensures old(Exact()) && Plus(SumWhere(old(ledger), All()), ClaudeSample(kind, value)).Fits() ==> Exact()
    {
      hide AgentsMatch, MetricsMatch, PendingMatch, SumWhere, Bare, Invariant;
      var name := NonEmpty(model);
      RegisterCanonicalModel(name);
      RegisterKeepsSum(old(Abs()), name);
      hit := RecordClaudeMetricUsage(FromParts(ANTHROPIC, name, effort), ClaudeSample(kind, value));
    }

    // Codex

    /** What the entries of one conversation in `pendingSse` must be for the move to be exact. */
    ghost predicate ExactFor(entries: map<Bucket, Stats>, cid: string)
      reads this`agents, this`ledger, this`clamped
    {
      && !clamped && AgentsMatch(agents, ledger) && SumWhere(ledger, All()).Fits()
      && (forall b :: Amount(entries, b) == SumWhere(ledger, PendingAt(cid, b)))
      && (forall b | b in entries :: entries[b].HasAnyValue())
    }

    method MoveOnePending(from: Bucket, stats: Stats, m: Session, ghost kept: map<Bucket, Stats>,
                          ghost done: set<Bucket>)
      requires Tidy(agents) && from !in done
      modifies this`agents, this`clamped
      ensures Tidy(agents)
      ensures !old(clamped) && ResolvedSoFar(old(agents), kept, ledger, m, done) && SumWhere(ledger, All()).Fits()
              && stats == SumWhere(ledger, PendingAt(m.cid, from)) && stats.HasAnyValue() ==>
                !clamped && ResolvedSoFar(agents, KeptWith(kept, m, Target(m, from), stats), ledger, m, done + {from})
    {
      var to := Target(m, from);
      TargetIsProper(m, from);
      hide ResolvedSoFar, Tidy, SumWhere, Target, Moved, At;
      ghost var exact := !clamped && ResolvedSoFar(agents, kept, ledger, m, done) && SumWhere(ledger, All()).Fits()
                         && stats == SumWhere(ledger, PendingAt(m.cid, from)) && stats.HasAnyValue();
      if from != to {
        if exact {
          ResolveHeld(agents, kept, ledger, m, done, from);
        }
        MoveBucketStats(from, to, stats);
      }
      if exact {
        ResolveOne(old(agents), agents, kept, ledger, m, done, from, stats);
      }
    }

    /** Move what waits for a conversation, bucket by bucket, to where its session says; what must
        go on waiting is collected apart, so that a bucket filled on the way is not moved again. */
    method MovePending(entries: map<Bucket, Stats>, m: Session) returns (kept: map<Bucket, Stats>, moved: bool)
      requires Tidy(agents)
      modifies this`agents, this`clamped
      ensures Tidy(agents)
      ensures moved <==> exists b :: b in entries && Target(m, b) != b
      ensures old(ExactFor(entries, m.cid)) ==>
                && !clamped && ResolvedSoFar(agents, kept, ledger, m, entries.Keys)
                && forall b | b in kept :: kept[b].HasAnyValue()
    {
      ghost var exact := ExactFor(entries, m.cid);
      kept, moved := map[], false;
      if exact {
        ResolveStart(agents, ledger, m);
        assert forall b | b in entries :: entries[b] == Amount(entries, b) == SumWhere(ledger, PendingAt(m.cid, b));
      }
      hide AgentsMatch, ResolvedSoFar, Tidy, SumWhere, Target, Stats.HasAnyValue, Stats.Fits, KeptWith;
      var remaining := entries.Keys;
      ghost var done: set<Bucket> := {};
      while remaining != {}
        invariant remaining !! done && remaining + done == entries.Keys
        invariant Tidy(agents)
        invariant moved <==> exists b :: b in done && Target(m, b) != b
        invariant exact ==> !clamped && ResolvedSoFar(agents, kept, ledger, m, done)
        invariant exact ==> forall b | b in kept :: kept[b].HasAnyValue()
        decreases remaining
      {
        var from :| from in remaining;
        var to := Target(m, from);
        MoveOnePending(from, entries[from], m, kept, done);
        if exact {
          KeptHasValue(kept, m, to, entries[from]);
        }
        kept := KeptWith(kept, m, to, entries[from]);
        moved := moved || from != to;
        done := done + {from};
        remaining := remaining - {from};
      }
      assert done == entries.Keys;
    }

    /** Usage in bucket `b` that still waits for some conversation's session. */
    method SumPendingForBucket(b: Bucket) returns (total: Stats)
      requires forall e | e in ledger :: e.stats.HasAnyValue()
      ensures PendingMatch(pendingSse, ledger) && SumWhere(ledger, All()).Fits() ==>
              total == SumWhere(ledger, AnyPendingAt(b))
    {
      ghost var exact := PendingMatch(pendingSse, ledger) && SumWhere(ledger, All()).Fits();
      total := Zero();
      var remaining := pendingSse.Keys;
      ghost var done: set<string> := {};
      SumNothing(ledger, PendingAmong({}, b));
      while remaining != {}
        invariant remaining !! done && remaining + done == pendingSse.Keys
        invariant exact ==> total == SumWhere(ledger, PendingAmong(done, b))
        decreases remaining
      {
        var cid :| cid in remaining;
        if b in pendingSse[cid] {
          total := Add(total, pendingSse[cid][b]);
        }
        if exact {
          PendingAmongOne(ledger, done, cid, b);
          PartFits(ledger, PendingAmong(done + {cid}, b));
          assert Amount(PerBucket(pendingSse, cid), b) == SumWhere(ledger, PendingAt(cid, b));
        }
        done := done + {cid};
        remaining := remaining - {cid};
      }
      if exact {
        assert done == pendingSse.Keys;
        PendingAmongAll(ledger, pendingSse, b);
      }
    }

    /** The session names a conversation: resolve what waits for it. */
    method MergePendingOf(m: Session) returns (moved: bool)
      requires Tidy(agents) && m.cid != "" && forall e | e in ledger :: e.stats.HasAnyValue()
      modifies this`agents, this`clamped, this`pendingSse, this`ledger
      ensures Tidy(agents) && ledger == Relabel(old(ledger), Mover(m))
      ensures old(Exact()) && SumWhere(old(ledger), All()).Fits() ==>
              Exact() && (moved <==> Moves(old(ledger), Mover(m)))
    {
      ghost var exact := Exact() && SumWhere(ledger, All()).Fits();
      var entries := PerBucket(pendingSse, m.cid);
      hide AgentsMatch, MetricsMatch, PendingMatch, ResolvedSoFar, Tidy, SumWhere, Moves, Target;
      if exact {
        PendingEntries(pendingSse, ledger, m);
      }
      if m.cid !in pendingSse {
        if exact {
          NothingToResolve(ledger, m);
        }
        ledger := Relabel(ledger, Mover(m));
        return false;
      }
      var kept;
      kept, moved := MovePending(entries, m);
      if exact {
        ResolvedMatches(agents, claudeMetricUsage, pendingSse, kept, ledger, m, entries.Keys);
      }
      pendingSse := if kept == map[] then pendingSse - {m.cid} else pendingSse[m.cid := kept];
      ledger := Relabel(ledger, Mover(m));
    }

    /** Move everything in bucket `from` that waits for no conversation. */
    method MoveLegacy(from: Bucket, to: Bucket) returns (moved: bool)
      requires Tidy(agents) && from != to && Proper(Codex, to) && forall e | e in ledger :: e.stats.HasAnyValue()
      modifies this`agents, this`clamped
      ensures Tidy(agents)
      ensures old(Exact()) && SumWhere(ledger, All()).Fits() ==>
                && !clamped && AgentsMatch(agents, Relabel(ledger, MoveSettled(from, to)))
                && (moved <==> Moves(ledger, MoveSettled(from, to)))
    {
      ghost var exact := Exact() && SumWhere(ledger, All()).Fits();
      hide AgentsMatch, MetricsMatch, Moved, SumWhere, Tidy, At, Subtract;
      var pendingTotal := SumPendingForBucket(from);
      var movable := Subtract(At(agents, Codex, from), pendingTotal);
      clamped := clamped || !pendingTotal.AtMost(At(agents, Codex, from));
      if exact {
        PendingIsExact(agents, ledger, from);
      }
      moved := movable.HasAnyValue();
      if moved {
        MoveBucketStats(from, to, movable);
      }
      if exact {
        LegacyFollows(old(agents), agents, ledger, from, to, movable);
      }
    }

    /** Old telemetry without conversation ids: move the rest of the unknown-effort bucket. */
    method MergeLegacy(m: Session) returns (moved: bool)
      requires Tidy(agents) && m.cid == "" && forall e | e in ledger :: e.stats.HasAnyValue()
      modifies this`agents, this`clamped, this`ledger
      ensures Tidy(agents) && ledger == Relabel(old(ledger), Mover(m))
      ensures old(Exact()) && SumWhere(old(ledger), All()).Fits() ==>
              Exact() && (moved <==> Moves(old(ledger), Mover(m)))
    {
      moved := false;
      if m.model == "" || m.effort == "" || m.effort == UNKNOWN {
        assert Relabel(ledger, Mover(m)) == ledger;
        return;
      }
      var from, to := FromParts(m.provider, m.model, UNKNOWN), FromParts(m.provider, m.model, m.effort);
      hide AgentsMatch, MetricsMatch, PendingMatch, Tidy, SumWhere, MoveSettled;
      moved := MoveLegacy(from, to);
      if old(Exact()) && SumWhere(ledger, All()).Fits() {
        SettledLedgers(claudeMetricUsage, pendingSse, ledger, from, to);
      }
      ledger := Relabel(ledger, Mover(m));
    }

    method MergePendingSse(m: Session) returns (moved: bool)
      requires Tidy(agents) && forall e | e in ledger :: e.stats.HasAnyValue()
      modifies this`agents, this`clamped, this`pendingSse, this`ledger
      ensures Tidy(agents) && ledger == Relabel(old(ledger), Mover(m))
      ensures old(Exact()) && SumWhere(old(ledger), All()).Fits() ==>
              Exact() && (moved <==> Moves(old(ledger), Mover(m)))
    {
      if m.cid != "" {
        moved := MergePendingOf(m);
      } else {
        moved := MergeLegacy(m);
      }
    }

    /** What is known about the conversation fills the gaps of the report. */
    method Complete(session: Session) returns (m: Session)
      ensures m == Merged(Abs(), session)
    {
      m := session;
      if m.cid != "" && m.cid in sessions {
        var prev := sessions[m.cid];
        if m.model == "" {
          m := m.(model := prev.model);
        }
        if m.effort == "" {
          m := m.(effort := prev.effort);
        }
        if !m.confirmed && prev.confirmed {
          m := m.(provider := prev.provider, confirmed := true);
        }
      }
    }

    method UpdateSession(service: string, session: Session, updateLast: bool) returns (moved: bool)
      requires Tidy(agents) && forall e | e in ledger :: e.stats.HasAnyValue()
      modifies this`agents, this`clamped, this`pendingSse, this`ledger, this`sessions, this`lastSessions
      ensures Tidy(agents) && Abs() == UsageLedger.UpdateSession(old(Abs()), service, session, updateLast).state
      ensures old(Exact()) && SumWhere(old(ledger), All()).Fits() ==>
                Exact() && moved == UsageLedger.UpdateSession(old(Abs()), service, session, updateLast).hit
    {
      hide AgentsMatch, MetricsMatch, PendingMatch, Tidy, SumWhere, Mover, Moves, Relabel, Merged;
      var m := Complete(session);
      if m.cid != "" {
        sessions := sessions[m.cid := m];
      }
      if updateLast {
        lastSessions := lastSessions[service := m];
      }
      moved := MergePendingSse(m);
    }

    method IngestStart(service: string, cid: string, provider: string, model: string,
                       effort: string) returns (hit: bool)
      requires Tidy(agents) && forall e | e in ledger :: e.stats.HasAnyValue()
      modifies this`agents, this`clamped, this`pendingSse, this`ledger, this`sessions, this`lastSessions
      ensures Tidy(agents) && Abs() == StepStart(old(Abs()), service, cid, provider, model, effort).state
      ensures old(Exact()) && SumWhere(old(ledger), All()).Fits() ==>
                Exact() && hit == StepStart(old(Abs()), service, cid, provider, model, effort).hit
    {
      hide UsageLedger.UpdateSession, AgentsMatch, MetricsMatch, PendingMatch, Tidy, SumWhere;
      if cid == "" && model == "" && effort == "" {
        return false;
      }
      hit := UpdateSession(service, StartedSession(cid, provider, model, effort), true);
    }

    method UpdateLastEffort(service: string, effort: string) returns (hit: bool)
      requires Tidy(agents) && effort != "" && forall e | e in ledger :: e.stats.HasAnyValue()
      modifies this`agents, this`clamped, this`pendingSse, this`ledger, this`lastSessions
      ensures Tidy(agents) && Abs() == StepSpan(old(Abs()), service, "", "", effort).state
      ensures old(Exact()) && SumWhere(old(ledger), All()).Fits() ==>
                Exact() && hit == StepSpan(old(Abs()), service, "", "", effort).hit
    {
      hide AgentsMatch, MetricsMatch, PendingMatch, Tidy, SumWhere, Mover, Moves, Relabel;
      var last := if service in lastSessions then lastSessions[service] else Session("", OPENAI, "", "", false);
      if last.effort == effort {
        return false;
      }
      last := last.(effort := effort);
      lastSessions := lastSessions[service := last];
      if last.cid != "" {
        return false;
      }
      hit := MergePendingSse(last);
    }

    method IngestSpan(service: string, cid: string, model: string, effort: string) returns (hit: bool)
      requires Tidy(agents) && forall e | e in ledger :: e.stats.HasAnyValue()
      modifies this`agents, this`clamped, this`pendingSse, this`ledger, this`sessions, this`lastSessions
      ensures Tidy(agents) && Abs() == StepSpan(old(Abs()), service, cid, model, effort).state
      ensures old(Exact()) && SumWhere(old(ledger), All()).Fits() ==>
                Exact() && hit == StepSpan(old(Abs()), service, cid, model, effort).hit
    {
      hide UsageLedger.UpdateSession, MergePending, AgentsMatch, MetricsMatch, PendingMatch, Tidy, SumWhere;
      if effort == "" {
        return false;
      }
      if cid == "" {
        hit := UpdateLastEffort(service, effort);
        return;
      }
      var session := if cid in sessions then sessions[cid].(effort := effort)
        else Session(cid, OPENAI, model, effort, false);
      var updateLast := service in lastSessions ==> lastSessions[service].cid == session.cid;
      hit := UpdateSession(service, session, updateLast);
    }

    /** Count a completion, and remember it while its session is not fully known. */
    method RecordSse(e: Entry)
      requires Tidy(agents) && e.tag.Sse? && Proper(Codex, e.bucket) && e.stats.HasAnyValue()
      modifies this`agents, this`ledger, this`pendingSse
      ensures Tidy(agents) && ledger == old(ledger) + [e]
      ensures old(Exact()) && Plus(SumWhere(old(ledger), All()), e.stats).Fits() ==> Exact()
    {
      hide SumWhere, Key, At, TotalIn, AgentsMatch, MetricsMatch, PendingMatch, AddedAt;
      RecordInto(Codex, e.bucket, e.stats);
      if e.tag.pending {
        pendingSse := AddedAt(pendingSse, e.tag.cid, e.bucket, e.stats);
      }
      ledger := ledger + [e];
      AppendGrows(old(ledger), e);
      if old(Exact()) && Plus(SumWhere(old(ledger), All()), e.stats).Fits() {
        RecordFollows(old(agents), agents, old(ledger), e);
        MetricsFollowOthers(claudeMetricUsage, old(ledger), e);
        if e.tag.pending {
          PendingFollows(old(pendingSse), old(ledger), e);
        } else {
          PendingFollowsOthers(pendingSse, old(ledger), e);
        }
      }
    }

    method IngestSse(service: string, cid: string, model: string, slug: string, effort: string,
                     t: SseTokens) returns (hit: bool)
      requires Tidy(agents)
      modifies this`agents, this`ledger, this`pendingSse, this`tokenSources
      ensures Tidy(agents) && Outcome(Abs(), hit) == StepSse(old(Abs()), service, cid, model, slug, effort, t)
      ensures old(Exact()) && Plus(SumWhere(old(ledger), All()), SseStats(t)).Fits() ==> Exact()
    {
      if !Counted(t) {
        return false;
      }
      var session := if cid != "" then Get(sessions, cid) else Get(lastSessions, service);
      var b := FromParts(ProviderOf(session), SseModel(session, model, slug),
                         if effort != "" then effort else EffortOf(session));
      var pending := cid != "" && (!Confirmed(session) || b.effort == UNKNOWN);
      if b.model in tokenSources && tokenSources[b.model] == TurnMetrics {
        return false;
      }
      assert SseStats(t).HasAnyValue();
      hide AgentsMatch, MetricsMatch, PendingMatch, SumWhere, SseStats, Tidy;
      RecordSse(Entry(b, SseStats(t), Sse(cid, effort, pending)));
      tokenSources := tokenSources[b.model := SseLogs];
      hit := true;
    }

    method IngestTokens(service: string, model: string, point: CodexPoint, value: nat) returns (hit: bool)
      requires Tidy(agents)
      modifies this`agents, this`ledger, this`tokenSources
      ensures Tidy(agents) && Outcome(Abs(), hit) == StepTokens(old(Abs()), service, model, point, value)
      ensures old(Exact()) && Plus(SumWhere(old(ledger), All()), CodexSample(point, value)).Fits() ==> Exact()
    {
      hide AgentsMatch, MetricsMatch, PendingMatch, SumWhere;
      var key := NonEmpty(model);
      if key in tokenSources && tokenSources[key] == SseLogs {
        return false;
      }
      if point == OtherCodexPoint || value == 0 {
        return false;
      }
      var last := Get(lastSessions, service);
      var e := Entry(FromParts(ProviderOf(last), model, EffortOf(last)), CodexSample(point, value), TurnTokens);
      Count(e);
      AppendGrows(old(ledger), e);
      tokenSources := tokenSources[key := TurnMetrics];
      hit := true;
    }

    /** Turn counts and durations. */
    method IngestTurnSample(service: string, model: string, sample: Stats, tag: Tag) returns (hit: bool)
      requires Tidy(agents) && (tag.TurnCount? || tag.TurnDuration?)
      modifies this`agents, this`ledger
      ensures Tidy(agents) && Outcome(Abs(), hit) == StepTurnSample(old(Abs()), service, model, sample, tag)
      ensures old(Exact()) && Plus(SumWhere(old(ledger), All()), sample).Fits() ==> Exact()
    {
      hide AgentsMatch, MetricsMatch, PendingMatch, SumWhere;
      if !sample.HasAnyValue() {
        return false;
      }
      var last := Get(lastSessions, service);
      var e := Entry(FromParts(ProviderOf(last), model, EffortOf(last)), sample, tag);
      Count(e);
      AppendGrows(old(ledger), e);
      hit := true;
    }

    method Dispatch(e: Event) returns (hit: bool)
      requires Tidy(agents) && Invariant(Abs()) && MetricsHeld(claudeSources, claudeMetricUsage)
      modifies this
      ensures Tidy(agents) && MetricsHeld(claudeSources, claudeMetricUsage) && offered == old(offered)
      ensures Abs() == Step(old(Abs()), e).state
      ensures old(Exact()) && Plus(SumWhere(old(ledger), All()), Offer(e)).Fits() ==>
              Exact() && hit == Step(old(Abs()), e).hit
    {
      LedgerFacts(Abs());
      hide Exact, Tidy, Invariant, SumWhere, StepClaudeLog, StepClaudeMetric, StepStart, StepSse, StepSpan, StepTokens,
           StepTurnSample, Plus, Stats.Fits;
      match e
      case ClaudeLog(model, effort, duration, usage) =>
        IngestClaudeLog(model, effort, duration, usage);
        hit := true;
      case ClaudeMetric(model, effort, kind, value) => hit := IngestClaudeMetric(model, effort, kind, value);
      case CodexStart(service, cid, provider, model, effort) =>
        hit := IngestStart(service, cid, provider, model, effort);
      case CodexSse(service, cid, model, slug, effort, t) => hit := IngestSse(service, cid, model, slug, effort, t);
      case CodexSpan(service, cid, model, effort) => hit := IngestSpan(service, cid, model, effort);
      case CodexTokens(service, model, point, value) => hit := IngestTokens(service, model, point, value);
      case CodexTurns(service, model, value) =>
        hit := IngestTurnSample(service, model, Zero().(requests := value), TurnCount);
      case CodexDuration(service, model, value) =>
        hit := IngestTurnSample(service, model, Zero().(duration := value), TurnDuration);
    }

    /** One event. Whatever the counters do, the tables and the ledger follow the specification;
        while everything offered fits the counters, so do all the sums and the return value. */
    method Ingest(e: Event) returns (hit: bool)
      requires Valid()
      modifies this
      ensures Valid() && offered == Plus(old(offered), Offer(e))
      ensures Abs() == Step(old(Abs()), e).state
      ensures offered.Fits() ==> hit == Step(old(Abs()), e).hit
    {
      hide Step, Invariant, Tidy, MetricsHeld, SumWhere, Offer, Exact, GrewBy, Plus, Stats.Fits, Stats.AtMost;
      StepKeeps(Abs(), e);
      StepGrows(Abs(), e);
      OfferCovers(ledger, Step(Abs(), e).state.ledger, offered, Offer(e));
      hit := Dispatch(e);
      offered := Plus(offered, Offer(e));
    }

    /** A batch: the events one after the other, and how many of them counted. */
    method IngestAll(es: seq<Event>) returns (count: nat)
      requires Valid()
      modifies this
      ensures Valid() && Abs() == RunFrom(old(Abs()), es).0
      ensures offered == Plus(old(offered), OfferAll(es))
      ensures offered.Fits() ==> count == RunFrom(old(Abs()), es).1
    {
      count := 0;
      for i := 0 to |es|
        invariant Valid() && Abs() == RunFrom(old(Abs()), es[..i]).0
        invariant offered == Plus(old(offered), OfferAll(es[..i]))
        invariant offered.Fits() ==> count == RunFrom(old(Abs()), es[..i]).1
      {
        assert es[..i + 1][..i] == es[..i];
        PlusLaws(old(offered), OfferAll(es[..i]), Offer(es[i]));
        var hit := Ingest(es[i]);
        count := if hit then count + 1 else count;
      }
      assert es[..|es|] == es;
    }
  }
}
