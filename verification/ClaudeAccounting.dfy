/** Claude usage arrives twice, in API request logs and in metrics. What is counted is, per model
    (without its variant suffix) and effort, the logs if there are any and else the metrics. */
module ClaudeAccounting {
  import opened Basics
  import opened UsageStats
  import opened BucketKeys
  import opened UsageLedger
  import opened LedgerInvariants

  /** A counted Claude sample without the bucket it happens to stand in. */
  datatype Contribution = Contribution(key: SourceKey, stats: Stats, tag: Tag)

  function Contributions(es: seq<Entry>): seq<Contribution> {
    if es == [] then []
    else
      var rest, e := Contributions(es[..|es| - 1]), es[|es| - 1];
      if e.Agent() == Claude then rest + [Contribution(EntryKey(e), e.stats, e.tag)] else rest
  }

  /** Everything Claude events offer for counting, in order of arrival. */
  function Offered(e: Event): seq<Contribution> {
    match e
    case ClaudeLog(model, effort, duration, usage) =>
      var key := UsageKey(model, effort);
      [Contribution(key, RequestSample(duration), ClaudeRequest)] +
      if LogUsage(usage).HasUsage() then [Contribution(key, LogUsage(usage), ClaudeLogUsage)] else []
    case ClaudeMetric(model, effort, kind, value) =>
      if ClaudeSample(kind, value).HasUsage()
      then [Contribution(UsageKey(model, effort), ClaudeSample(kind, value), ClaudeMetricUsage)] else []
    case _ => []
  }

  function AllOffered(es: seq<Event>): seq<Contribution> {
    if es == [] then [] else AllOffered(es[..|es| - 1]) + Offered(es[|es| - 1])
  }

  predicate LogsUsage(e: Event, key: SourceKey) {
    e.ClaudeLog? && LogUsage(e.usage).HasUsage() && UsageKey(e.model, e.effort) == key
  }

  /** The source keys for which some log carried usage. */
  function Logged(es: seq<Event>): set<SourceKey> {
    set e | e in es && e.ClaudeLog? && LogUsage(e.usage).HasUsage() :: UsageKey(e.model, e.effort)
  }

  predicate Counts(c: Contribution, logged: set<SourceKey>) {
    !(c.tag.ClaudeMetricUsage? && c.key in logged)
  }

  function Keep(cs: seq<Contribution>, logged: set<SourceKey>): seq<Contribution> {
    if cs == [] then []
    else
      var rest, c := Keep(cs[..|cs| - 1], logged), cs[|cs| - 1];
      if Counts(c, logged) then rest + [c] else rest
  }

  // Sequence facts

  lemma {:induction false} ContributionsAppend(es: seq<Entry>, e: Entry)
    ensures Contributions(es + [e]) ==
            if e.Agent() == Claude
            then Contributions(es) + [Contribution(EntryKey(e), e.stats, e.tag)]
            else Contributions(es)
  {
    assert (es + [e])[..|es|] == es;
  }

  lemma {:induction false} ContributionsRelabel(es: seq<Entry>, f: Entry -> Entry)
    requires forall e {:trigger f(e)} | e in es ::
               && f(e).Agent() == e.Agent()
               && (e.Agent() == Claude ==> EntryKey(f(e)) == EntryKey(e) && f(e).stats == e.stats && f(e).tag == e.tag)
    ensures Contributions(Relabel(es, f)) == Contributions(es)
  {
    if es != [] {
      var n := |es| - 1;
      assert Relabel(es, f)[..n] == Relabel(es[..n], f);
      ContributionsRelabel(es[..n], f);
      assert es[n] in es;
      assert Relabel(es, f)[n] == f(es[n]);
    }
  }

  lemma {:induction false} ContributionsFilter(es: seq<Entry>, key: SourceKey)
    ensures Contributions(Filter(es, IsNotMetricOf(key))) == Keep(Contributions(es), {key})
  {
    if es != [] {
      var n := |es| - 1;
      ContributionsFilter(es[..n], key);
      if IsNotMetricOf(key)(es[n]) {
        ContributionsAppend(Filter(es[..n], IsNotMetricOf(key)), es[n]);
      }
      if es[n].Agent() == Claude {
        KeepAppend(Contributions(es[..n]), Contribution(EntryKey(es[n]), es[n].stats, es[n].tag), {key});
      }
    }
  }

  lemma {:induction false} KeepAppend(cs: seq<Contribution>, c: Contribution, logged: set<SourceKey>)
    ensures Keep(cs + [c], logged) == if Counts(c, logged) then Keep(cs, logged) + [c] else Keep(cs, logged)
  {
    assert (cs + [c])[..|cs|] == cs;
  }

  lemma {:induction false} KeepConcat(cs: seq<Contribution>, ds: seq<Contribution>, logged: set<SourceKey>)
    ensures Keep(cs + ds, logged) == Keep(cs, logged) + Keep(ds, logged)
  {
    if ds == [] {
      assert cs + ds == cs;
    } else {
      var n := |ds| - 1;
      KeepConcat(cs, ds[..n], logged);
      assert (cs + ds)[..|cs + ds| - 1] == cs + ds[..n];
    }
  }

  lemma {:induction false} KeepKeep(cs: seq<Contribution>, a: set<SourceKey>, b: set<SourceKey>)
    ensures Keep(Keep(cs, a), b) == Keep(cs, a + b)
  {
    if cs != [] {
      var n := |cs| - 1;
      KeepKeep(cs[..n], a, b);
      if Counts(cs[n], a) {
        KeepAppend(Keep(cs[..n], a), cs[n], b);
      }
    }
  }

  lemma {:induction false} FilterNothing(es: seq<Entry>, p: Entry -> bool)
    requires forall e | e in es :: p(e)
    ensures Filter(es, p) == es
  {
    if es != [] {
      FilterNothing(es[..|es| - 1], p);
      assert es[|es| - 1] in es;
    }
  }

  // Keys

  lemma {:induction false} KeyOfNonEmpty(model: string, effort: string)
    ensures UsageKey(NonEmpty(model), NonEmpty(effort)) == UsageKey(model, effort)
  {
    assert '[' !in UNKNOWN;
    BareWithout(UNKNOWN);
    assert Bare("") == "";
    hide Bare;
  }

  /** Canonical renaming of a log's model never changes its source key. */
  lemma {:induction false} CanonicalKeepsKey(s: State, model: string, effort: string)
    requires GoodNames(s.canonicalModels)
    ensures UsageKey(CanonicalModel(s, model), effort) == UsageKey(model, effort)
  {
  }

  lemma {:induction false} LogBucketKey(s: State, model: string, effort: string)
    requires GoodNames(s.canonicalModels)
    ensures var b := FromParts(ANTHROPIC, CanonicalModel(s, model), effort);
            UsageKey(b.model, b.effort) == UsageKey(model, effort)
  {
    CanonicalKeepsKey(s, model, effort);
    KeyOfNonEmpty(CanonicalModel(s, model), effort);
  }

  // One step

  /** A log with usage always leaves a ledger free of metric samples of its key. */
  lemma {:induction false} LogLedger(s: State, model: string, effort: string, duration: nat, usage: Stats)
    requires GoodLedger(s) && LogUsage(usage).HasUsage()
    ensures var bucket := FromParts(ANTHROPIC, CanonicalModel(s, model), effort);
            StepClaudeLog(s, model, effort, duration, usage).ledger ==
            Filter(s.ledger + [Entry(bucket, RequestSample(duration), ClaudeRequest)],
                   IsNotMetricOf(UsageKey(bucket.model, bucket.effort)))
            + [Entry(bucket, LogUsage(usage), ClaudeLogUsage)]
  {
    var bucket := FromParts(ANTHROPIC, CanonicalModel(s, model), effort);
    var key := UsageKey(bucket.model, bucket.effort);
    var l1 := s.ledger + [Entry(bucket, RequestSample(duration), ClaudeRequest)];
    if Get(s.claudeSources, key) != Some(ClaudeMetrics) {
      forall e | e in l1 ensures IsNotMetricOf(key)(e) {
        assert e.tag.ClaudeRequest? || Good(s, e);
      }
      FilterNothing(l1, IsNotMetricOf(key));
    }
  }

  /** A request and its usage, after the metric samples of their key are taken out. */
  lemma {:induction false} LogUsageStep(es: seq<Entry>, r: Entry, u: Entry, key: SourceKey)
    requires r.tag == ClaudeRequest && u.tag == ClaudeLogUsage && EntryKey(r) == key && EntryKey(u) == key
    ensures Contributions(Filter(es + [r], IsNotMetricOf(key)) + [u]) ==
            Keep(Contributions(es), {key}) + [Contribution(key, r.stats, r.tag), Contribution(key, u.stats, u.tag)]
  {
    var cr, cu := Contribution(key, r.stats, r.tag), Contribution(key, u.stats, u.tag);
    ContributionsAppend(es, r);
    ContributionsFilter(es + [r], key);
    KeepAppend(Contributions(es), cr, {key});
    ContributionsAppend(Filter(es + [r], IsNotMetricOf(key)), u);
    assert Keep(Contributions(es), {key}) + [cr] + [cu] == Keep(Contributions(es), {key}) + [cr, cu];
  }

  lemma {:induction false} LogWithUsage(s: State, model: string, effort: string, duration: nat, usage: Stats)
    requires GoodLedger(s) && GoodNames(s.canonicalModels) && LogUsage(usage).HasUsage()
    ensures Contributions(StepClaudeLog(s, model, effort, duration, usage).ledger) ==
            Keep(Contributions(s.ledger), {UsageKey(model, effort)})
            + Offered(ClaudeLog(model, effort, duration, usage))
  {
    hide StepClaudeLog, FromParts, Contributions, Keep, Filter, Good, UsageKey, CanonicalModel, LogUsage, RequestSample;
    var bucket, key := FromParts(ANTHROPIC, CanonicalModel(s, model), effort), UsageKey(model, effort);
    LogBucketKey(s, model, effort);
    LogLedger(s, model, effort, duration, usage);
    LogUsageStep(s.ledger, Entry(bucket, RequestSample(duration), ClaudeRequest),
                 Entry(bucket, LogUsage(usage), ClaudeLogUsage), key);
  }

  lemma {:induction false} LogWithoutUsage(s: State, model: string, effort: string, duration: nat, usage: Stats)
    requires GoodNames(s.canonicalModels) && !LogUsage(usage).HasUsage()
    ensures Contributions(StepClaudeLog(s, model, effort, duration, usage).ledger) ==
            Contributions(s.ledger) + Offered(ClaudeLog(model, effort, duration, usage))
  {
    hide FromParts, Contributions, Keep, Filter, Good, UsageKey, CanonicalModel, LogUsage, RequestSample;
    var bucket := FromParts(ANTHROPIC, CanonicalModel(s, model), effort);
    LogBucketKey(s, model, effort);
    ContributionsAppend(s.ledger, Entry(bucket, RequestSample(duration), ClaudeRequest));
  }

  lemma {:induction false} LogStep(s: State, model: string, effort: string, duration: nat, usage: Stats)
    requires Invariant(s)
    ensures var s' := StepClaudeLog(s, model, effort, duration, usage);
            var cs := Contributions(s.ledger);
            Contributions(s'.ledger) ==
            (if LogUsage(usage).HasUsage() then Keep(cs, {UsageKey(model, effort)}) else cs)
            + Offered(ClaudeLog(model, effort, duration, usage))
  {
    hide StepClaudeLog, Contributions, Keep, Offered, UsageKey;
    if LogUsage(usage).HasUsage() {
      LogWithUsage(s, model, effort, duration, usage);
    } else {
      LogWithoutUsage(s, model, effort, duration, usage);
    }
  }

  lemma {:induction false} RegisterStep(s: State, full: string)
    ensures Contributions(Register(s, full).ledger) == Contributions(s.ledger)
  {
    if Folds(s, full) {
      forall e | e in s.ledger ensures EntryKey(Promote(Bare(full), full)(e)) == EntryKey(e) {
        PromoteKeepsKey(Bare(full), full, e);
      }
      ContributionsRelabel(s.ledger, Promote(Bare(full), full));
    }
  }

  lemma {:induction false} MetricStep(s: State, model: string, effort: string, kind: ClaudePoint, value: nat)
    ensures var s' := StepClaudeMetric(s, model, effort, kind, value).state;
            Contributions(s'.ledger) == Contributions(s.ledger) +
            if Get(s.claudeSources, UsageKey(model, effort)) == Some(ClaudeLogs) then []
            else Offered(ClaudeMetric(model, effort, kind, value))
  {
    var name := NonEmpty(model);
    RegisterStep(s, name);
    KeyOfNonEmpty(model, effort);
    ContributionsAppend(Register(s, name).ledger,
                        Entry(FromParts(ANTHROPIC, name, effort), ClaudeSample(kind, value), ClaudeMetricUsage));
  }

  lemma {:induction false} MoverStep(es: seq<Entry>, session: Session)
    ensures Contributions(Relabel(es, Mover(session))) == Contributions(es)
  {
    ContributionsRelabel(es, Mover(session));
  }

  lemma {:induction false} AppendStep(s: State, e: Event)
    requires IsSample(e)
    ensures Contributions(Step(s, e).state.ledger) == Contributions(s.ledger)
  {
    SampleStep(s, e);
    hide StepSse, StepTokens, StepTurnSample;
    if Step(s, e).hit {
      ContributionsAppend(s.ledger, Step(s, e).state.ledger[|s.ledger|]);
    }
  }

  lemma {:induction false} CodexStep(s: State, e: Event)
    requires !e.ClaudeLog? && !e.ClaudeMetric?
    ensures Contributions(Step(s, e).state.ledger) == Contributions(s.ledger)
  {
    match e
    case CodexStart(service, cid, provider, model, effort) =>
      MoverStep(s.ledger, Merged(s, StartedSession(cid, provider, model, effort)));
    case CodexSpan(service, cid, model, effort) =>
      SpanStep(s, service, cid, model, effort);
    case _ => AppendStep(s, e);
  }

  lemma {:induction false} SpanStep(s: State, service: string, cid: string, model: string, effort: string)
    ensures Contributions(StepSpan(s, service, cid, model, effort).state.ledger) == Contributions(s.ledger)
  {
    if cid == "" {
      var last := LastSession(s, service);
      MoverStep(s.ledger, last.(effort := effort));
    } else {
      var session := SpannedSession(s, cid, model, effort);
      MoverStep(s.ledger, Merged(s, session));
    }
  }

  lemma {:induction false} LogSources(s: State, model: string, effort: string, duration: nat, usage: Stats,
                                      key: SourceKey)
    requires GoodNames(s.canonicalModels)
    ensures Get(StepClaudeLog(s, model, effort, duration, usage).claudeSources, key) == Some(ClaudeLogs) <==>
            Get(s.claudeSources, key) == Some(ClaudeLogs)
              || (LogUsage(usage).HasUsage() && UsageKey(model, effort) == key)
  {
    LogBucketKey(s, model, effort);
    hide UsageKey, CanonicalModel, LogUsage, Filter;
  }

  lemma {:induction false} MetricSources(s: State, model: string, effort: string, kind: ClaudePoint, value: nat,
                                         key: SourceKey)
    ensures Get(StepClaudeMetric(s, model, effort, kind, value).state.claudeSources, key) == Some(ClaudeLogs) <==>
            Get(s.claudeSources, key) == Some(ClaudeLogs)
  {
    hide UsageKey, Relabel, RegisteredNames, Folds;
  }

  lemma {:induction false} SourcesStep(s: State, e: Event, key: SourceKey)
    requires Invariant(s)
    ensures Get(Step(s, e).state.claudeSources, key) == Some(ClaudeLogs) <==>
            Get(s.claudeSources, key) == Some(ClaudeLogs) || LogsUsage(e, key)
  {
    hide StepClaudeLog, StepClaudeMetric, StepStart, StepSpan, StepSse, StepTokens, StepTurnSample, UsageKey;
    if e.ClaudeLog? {
      LogSources(s, e.model, e.effort, e.duration, e.usage, key);
    } else if e.ClaudeMetric? {
      MetricSources(s, e.model, e.effort, e.kind, e.value, key);
    } else {
      CodexSources(s, e);
    }
  }

  lemma {:induction false} CodexSources(s: State, e: Event)
    requires !e.ClaudeLog? && !e.ClaudeMetric?
    ensures Step(s, e).state.claudeSources == s.claudeSources
  {
    if IsSample(e) {
      SampleStep(s, e);
      hide StepSse, StepTokens, StepTurnSample;
    } else {
      hide Merged, Mover, Moves, Relabel;
    }
  }

  function NewlyLogged(e: Event): set<SourceKey> {
    if e.ClaudeLog? && LogUsage(e.usage).HasUsage() then {UsageKey(e.model, e.effort)} else {}
  }

  lemma {:induction false} LoggedAppend(es: seq<Event>, e: Event)
    ensures Logged(es + [e]) == Logged(es) + NewlyLogged(e)
  {
    assert e in es + [e];
    assert forall x | x in es :: x in es + [e];
  }

  lemma {:induction false} LogRefines(s: State, e: Event, cs: seq<Contribution>, logged: set<SourceKey>)
    requires e.ClaudeLog? && Invariant(s) && Contributions(s.ledger) == Keep(cs, logged)
    ensures Contributions(Step(s, e).state.ledger) ==
            Keep(cs, logged + NewlyLogged(e)) + Keep(Offered(e), logged + NewlyLogged(e))
  {
    hide UsageKey, LogUsage, RequestSample, StepClaudeLog;
    LogStep(s, e.model, e.effort, e.duration, e.usage);
    KeepKeep(cs, logged, NewlyLogged(e));
    forall c | c in Offered(e) ensures Counts(c, logged + NewlyLogged(e)) {
    }
    KeepAll(Offered(e), logged + NewlyLogged(e));
    hide Step, Offered, Keep, Invariant, Contributions;
    assert NewlyLogged(e) == {} ==> logged + NewlyLogged(e) == logged;
  }

  lemma {:induction false} KeepAll(cs: seq<Contribution>, logged: set<SourceKey>)
    requires forall c | c in cs :: Counts(c, logged)
    ensures Keep(cs, logged) == cs
  {
    if cs != [] {
      KeepAll(cs[..|cs| - 1], logged);
      assert cs[|cs| - 1] in cs;
    }
  }

  lemma {:induction false} MetricRefines(s: State, e: Event, cs: seq<Contribution>, logged: set<SourceKey>)
    requires e.ClaudeMetric? && Contributions(s.ledger) == Keep(cs, logged)
    requires forall k :: Get(s.claudeSources, k) == Some(ClaudeLogs) <==> k in logged
    ensures Contributions(Step(s, e).state.ledger) == Keep(cs, logged) + Keep(Offered(e), logged)
  {
    MetricStep(s, e.model, e.effort, e.kind, e.value);
    if Offered(e) != [] {
      KeepAppend([], Offered(e)[0], logged);
    }
  }

  lemma {:induction false} StepRefines(s: State, e: Event, cs: seq<Contribution>, logged: set<SourceKey>)
    requires Invariant(s) && Contributions(s.ledger) == Keep(cs, logged)
    requires forall k :: Get(s.claudeSources, k) == Some(ClaudeLogs) <==> k in logged
    ensures Contributions(Step(s, e).state.ledger) == Keep(cs + Offered(e), logged + NewlyLogged(e))
  {
    KeepConcat(cs, Offered(e), logged + NewlyLogged(e));
    if e.ClaudeLog? {
      LogRefines(s, e, cs, logged);
    } else if e.ClaudeMetric? {
      MetricRefines(s, e, cs, logged);
      assert logged + NewlyLogged(e) == logged;
    } else {
      CodexStep(s, e);
      assert cs + Offered(e) == cs && logged + NewlyLogged(e) == logged;
    }
  }

  /** For every run: the Claude samples counted are exactly those offered, in order of arrival,
      minus the metric samples of keys for which a log has reported usage. */
  lemma {:induction false} Refinement(es: seq<Event>)
    ensures Contributions(Run(es).ledger) == Keep(AllOffered(es), Logged(es))
    ensures forall k :: Get(Run(es).claudeSources, k) == Some(ClaudeLogs) <==> k in Logged(es)
  {
    if es != [] {
      var before, e := es[..|es| - 1], es[|es| - 1];
      assert es == before + [e];
      Refinement(before);
      RunKeeps(before);
      LoggedAppend(before, e);
      StepRefines(Run(before), e, AllOffered(before), Logged(before));
      forall k ensures Get(Run(es).claudeSources, k) == Some(ClaudeLogs) <==> k in Logged(es) {
        SourcesStep(Run(before), e, k);
      }
    }
  }
}
