/** Claude totals as sums over events, and their independence of the order of arrival. */
module ClaudeTotals {
  import opened UsageStats
  import opened BucketKeys
  import opened UsageLedger
  import opened LedgerSums
  import opened ClaudeAccounting

  function Total(es: seq<Event>, f: Event -> Stats): Stats {
    if es == [] then Zero() else Plus(Total(es[..|es| - 1], f), f(es[|es| - 1]))
  }

  function SumCounted(cs: seq<Contribution>, p: Contribution -> bool): Stats {
    if cs == [] then Zero()
    else
      var rest, c := SumCounted(cs[..|cs| - 1], p), cs[|cs| - 1];
      if p(c) then Plus(rest, c.stats) else rest
  }

  /** The usage counted for one source key, over all buckets. */
  function UsageOfKey(key: SourceKey): Entry -> bool {
    (e: Entry) => e.Agent() == Claude && !e.tag.ClaudeRequest? && EntryKey(e) == key
  }

  function CountedUsageOf(key: SourceKey): Contribution -> bool {
    (c: Contribution) => !c.tag.ClaudeRequest? && c.key == key
  }

  /** Everything counted for one source key, requests included. */
  function AllOfKey(key: SourceKey): Entry -> bool {
    (e: Entry) => e.Agent() == Claude && EntryKey(e) == key
  }

  function CountedOf(key: SourceKey): Contribution -> bool {
    (c: Contribution) => c.key == key
  }

  function Anything(): Contribution -> bool {
    (c: Contribution) => true
  }

  /** What one event contributes to a key that is counted from its logs, or from its metrics. */
  function KeyShare(key: SourceKey, fromLogs: bool): Event -> Stats {
    (e: Event) =>
      if fromLogs then (if LogsUsage(e, key) then LogUsage(e.usage) else Zero())
      else if e.ClaudeMetric? && UsageKey(e.model, e.effort) == key then ClaudeSample(e.kind, e.value)
      else Zero()
  }

  /** The same with the requests and their durations. */
  function KeyTotal(key: SourceKey, fromLogs: bool): Event -> Stats {
    (e: Event) =>
      if e.ClaudeLog? && UsageKey(e.model, e.effort) == key then Plus(RequestSample(e.duration), LogUsage(e.usage))
      else if !fromLogs && e.ClaudeMetric? && UsageKey(e.model, e.effort) == key then ClaudeSample(e.kind, e.value)
      else Zero()
  }

  /** What one event contributes to the agent's total, given the keys counted from logs. */
  function AgentShare(logged: set<SourceKey>): Event -> Stats {
    (e: Event) =>
      if e.ClaudeLog? then Plus(RequestSample(e.duration), LogUsage(e.usage))
      else if e.ClaudeMetric? && UsageKey(e.model, e.effort) !in logged then ClaudeSample(e.kind, e.value)
      else Zero()
  }

  // Sums of counted contributions

  lemma {:induction false} SumThroughContributions(es: seq<Entry>, q: Entry -> bool, p: Contribution -> bool)
    requires forall e {:trigger q(e)} | e in es ::
               q(e) <==> e.Agent() == Claude && p(Contribution(EntryKey(e), e.stats, e.tag))
    ensures SumWhere(es, q) == SumCounted(Contributions(es), p)
  {
    hide UsageKey, Bare;
    if es != [] {
      var n := |es| - 1;
      SumThroughContributions(es[..n], q, p);
      assert es[n] in es;
      assert q(es[n]) <==> es[n].Agent() == Claude && p(Contribution(EntryKey(es[n]), es[n].stats, es[n].tag));
      if es[n].Agent() == Claude {
        var c := Contribution(EntryKey(es[n]), es[n].stats, es[n].tag);
        assert (Contributions(es[..n]) + [c])[..|Contributions(es[..n])|] == Contributions(es[..n]);
      }
    }
  }

  lemma {:induction false} SumCountedConcat(cs: seq<Contribution>, ds: seq<Contribution>, p: Contribution -> bool)
    ensures SumCounted(cs + ds, p) == Plus(SumCounted(cs, p), SumCounted(ds, p))
  {
    if ds == [] {
      assert cs + ds == cs;
      PlusLaws(SumCounted(cs, p), Zero(), Zero());
    } else {
      var n := |ds| - 1;
      SumCountedConcat(cs, ds[..n], p);
      assert (cs + ds)[..|cs + ds| - 1] == cs + ds[..n];
      PlusLaws(SumCounted(cs, p), SumCounted(ds[..n], p), ds[n].stats);
    }
  }

  lemma {:induction false} SumOffered(es: seq<Event>, logged: set<SourceKey>, p: Contribution -> bool,
                                      f: Event -> Stats)
    requires forall e {:trigger f(e)} | e in es :: SumCounted(Keep(Offered(e), logged), p) == f(e)
    ensures SumCounted(Keep(AllOffered(es), logged), p) == Total(es, f)
  {
    if es != [] {
      var n := |es| - 1;
      SumOffered(es[..n], logged, p, f);
      KeepConcat(AllOffered(es[..n]), Offered(es[n]), logged);
      SumCountedConcat(Keep(AllOffered(es[..n]), logged), Keep(Offered(es[n]), logged), p);
      assert f(es[n]) == SumCounted(Keep(Offered(es[n]), logged), p);
    }
  }

  function One(c: Contribution, logged: set<SourceKey>, p: Contribution -> bool): Stats {
    if Counts(c, logged) && p(c) then c.stats else Zero()
  }

  lemma {:induction false} SumOne(c: Contribution, logged: set<SourceKey>, p: Contribution -> bool)
    ensures SumCounted(Keep([c], logged), p) == One(c, logged, p)
  {
    KeepAppend([], c, logged);
    assert [] + [c] == [c];
    SumCountedConcat([], [c], p);
  }

  function ShareOf(e: Event, logged: set<SourceKey>, p: Contribution -> bool): Stats {
    if e.ClaudeLog? then
      Plus(One(Contribution(UsageKey(e.model, e.effort), RequestSample(e.duration), ClaudeRequest), logged, p),
           if LogUsage(e.usage).HasUsage()
           then One(Contribution(UsageKey(e.model, e.effort), LogUsage(e.usage), ClaudeLogUsage), logged, p)
           else Zero())
    else if e.ClaudeMetric? && ClaudeSample(e.kind, e.value).HasUsage() then
      One(Contribution(UsageKey(e.model, e.effort), ClaudeSample(e.kind, e.value), ClaudeMetricUsage), logged, p)
    else Zero()
  }

  lemma {:induction false} OfferedSum(e: Event, logged: set<SourceKey>, p: Contribution -> bool)
    ensures SumCounted(Keep(Offered(e), logged), p) == ShareOf(e, logged, p)
  {
    if e.ClaudeLog? {
      var request := Contribution(UsageKey(e.model, e.effort), RequestSample(e.duration), ClaudeRequest);
      var log := Contribution(UsageKey(e.model, e.effort), LogUsage(e.usage), ClaudeLogUsage);
      var logs := if LogUsage(e.usage).HasUsage() then [log] else [];
      assert Offered(e) == [request] + logs;
      SumOne(request, logged, p);
      SumOne(log, logged, p);
      KeepConcat([request], logs, logged);
      SumCountedConcat(Keep([request], logged), Keep(logs, logged), p);
    } else if e.ClaudeMetric? {
      SumOne(Contribution(UsageKey(e.model, e.effort), ClaudeSample(e.kind, e.value), ClaudeMetricUsage), logged, p);
    }
  }

  // Main results

  lemma {:induction false} NoUsageIsZero(e: Event)
    ensures e.ClaudeLog? && !LogUsage(e.usage).HasUsage() ==> LogUsage(e.usage) == Zero()
    ensures e.ClaudeMetric? && !ClaudeSample(e.kind, e.value).HasUsage() ==> ClaudeSample(e.kind, e.value) == Zero()
  {
  }

  /** A part of the counted entries sums up to the shares of the events. */
  lemma {:induction false} SumByShare(es: seq<Event>, q: Entry -> bool, p: Contribution -> bool, f: Event -> Stats)
    requires forall e {:trigger q(e)} | e in Run(es).ledger ::
               q(e) <==> e.Agent() == Claude && p(Contribution(EntryKey(e), e.stats, e.tag))
    requires forall e {:trigger f(e)} | e in es :: ShareOf(e, Logged(es), p) == f(e)
    ensures SumWhere(Run(es).ledger, q) == Total(es, f)
  {
    hide UsageKey, Bare, ShareOf, Keep, Logged;
    Refinement(es);
    SumThroughContributions(Run(es).ledger, q, p);
    forall e | e in es ensures SumCounted(Keep(Offered(e), Logged(es)), p) == f(e) {
      OfferedSum(e, Logged(es), p);
      assert ShareOf(e, Logged(es), p) == f(e);
    }
    SumOffered(es, Logged(es), p, f);
  }

  lemma {:induction false} UsageShare(e: Event, logged: set<SourceKey>, key: SourceKey)
    requires e.ClaudeLog? && LogUsage(e.usage).HasUsage() ==> UsageKey(e.model, e.effort) in logged
    ensures ShareOf(e, logged, CountedUsageOf(key)) == KeyShare(key, key in logged)(e)
  {
    NoUsageIsZero(e);
    hide UsageKey, RequestSample, LogUsage, ClaudeSample, Plus, Zero, Stats.HasUsage;
    PlusZero(LogUsage(if e.ClaudeLog? then e.usage else Zero()));
    PlusZero(Zero());
  }

  lemma {:induction false} WholeShare(e: Event, logged: set<SourceKey>, key: SourceKey)
    ensures ShareOf(e, logged, CountedOf(key)) == KeyTotal(key, key in logged)(e)
  {
    NoUsageIsZero(e);
    hide UsageKey, RequestSample, LogUsage, ClaudeSample, Plus, Zero, Stats.HasUsage;
    PlusLaws(RequestSample(if e.ClaudeLog? then e.duration else 0), Zero(), Zero());
    PlusLaws(Zero(), Zero(), Zero());
  }

  lemma {:induction false} AnyShare(e: Event, logged: set<SourceKey>)
    ensures ShareOf(e, logged, Anything()) == AgentShare(logged)(e)
  {
    NoUsageIsZero(e);
    hide UsageKey, RequestSample, LogUsage, ClaudeSample, Plus, Zero, Stats.HasUsage;
    PlusLaws(RequestSample(if e.ClaudeLog? then e.duration else 0), Zero(), Zero());
  }

  /** Per source key: the counted usage is the sum of its usage-bearing logs if there is one,
      and else the sum of its metrics. */
  lemma {:induction false} UsagePerKey(es: seq<Event>, key: SourceKey)
    ensures SumWhere(Run(es).ledger, UsageOfKey(key)) == Total(es, KeyShare(key, key in Logged(es)))
  {
    forall e | e in es ensures ShareOf(e, Logged(es), CountedUsageOf(key)) == KeyShare(key, key in Logged(es))(e) {
      UsageShare(e, Logged(es), key);
    }
    hide UsageKey, Bare, ShareOf, Run, Logged;
    SumByShare(es, UsageOfKey(key), CountedUsageOf(key), KeyShare(key, key in Logged(es)));
  }

  /** The same with every request of the key. */
  lemma {:induction false} StatsPerKey(es: seq<Event>, key: SourceKey)
    ensures SumWhere(Run(es).ledger, AllOfKey(key)) == Total(es, KeyTotal(key, key in Logged(es)))
  {
    forall e | e in es ensures ShareOf(e, Logged(es), CountedOf(key)) == KeyTotal(key, key in Logged(es))(e) {
      WholeShare(e, Logged(es), key);
    }
    hide UsageKey, Bare, ShareOf, Run, Logged;
    SumByShare(es, AllOfKey(key), CountedOf(key), KeyTotal(key, key in Logged(es)));
  }

  /** The agent's total: every request, every log's usage, and the metrics of keys no log covers. */
  lemma {:induction false} UsageOfAgent(es: seq<Event>)
    ensures SumWhere(Run(es).ledger, OfAgent(Claude)) == Total(es, AgentShare(Logged(es)))
  {
    forall e | e in es ensures ShareOf(e, Logged(es), Anything()) == AgentShare(Logged(es))(e) {
      AnyShare(e, Logged(es));
    }
    hide UsageKey, Bare, ShareOf, Run, Logged;
    SumByShare(es, OfAgent(Claude), Anything(), AgentShare(Logged(es)));
  }

  lemma {:induction false} TotalConcat(es: seq<Event>, fs: seq<Event>, f: Event -> Stats)
    ensures Total(es + fs, f) == Plus(Total(es, f), Total(fs, f))
  {
    if fs == [] {
      assert es + fs == es;
      PlusLaws(Total(es, f), Zero(), Zero());
    } else {
      var n := |fs| - 1;
      TotalConcat(es, fs[..n], f);
      assert (es + fs)[..|es + fs| - 1] == es + fs[..n];
      PlusLaws(Total(es, f), Total(fs[..n], f), f(fs[n]));
    }
  }

  /** The sum does not depend on where an event stands. */
  lemma {:induction false} TotalTakeOut(a: seq<Event>, e: Event, b: seq<Event>, f: Event -> Stats)
    ensures Total(a + [e] + b, f) == Plus(Total(a + b, f), f(e))
  {
    assert (a + [e])[..|a|] == a;
    TotalConcat(a + [e], b, f);
    TotalConcat(a, b, f);
    PlusLaws(Total(a, f), f(e), Total(b, f));
  }

  lemma {:induction false} TotalPermutation(es: seq<Event>, fs: seq<Event>, f: Event -> Stats)
    requires multiset(es) == multiset(fs)
    ensures Total(es, f) == Total(fs, f)
  {
    if es == [] {
      assert |multiset(fs)| == 0;
    } else {
      var n := |es| - 1;
      assert es == es[..n] + [es[n]];
      assert es[n] in multiset(fs);
      var i :| 0 <= i < |fs| && fs[i] == es[n];
      var a, b := fs[..i], fs[i + 1..];
      assert fs == a + [es[n]] + b;
      assert multiset(a + b) + multiset{es[n]} == multiset(fs) == multiset(es[..n]) + multiset{es[n]};
      assert multiset(a + b) == multiset(fs) - multiset{es[n]} == multiset(es[..n]);
      TotalPermutation(es[..n], a + b, f);
      TotalTakeOut(a, es[n], b, f);
    }
  }

  /** Neither the usage of any source key nor the agent's total depends on the order of arrival. */
  lemma {:induction false} OrderIndependence(es: seq<Event>, fs: seq<Event>)
    requires multiset(es) == multiset(fs)
    ensures forall key :: SumWhere(Run(es).ledger, UsageOfKey(key)) == SumWhere(Run(fs).ledger, UsageOfKey(key))
    ensures SumWhere(Run(es).ledger, OfAgent(Claude)) == SumWhere(Run(fs).ledger, OfAgent(Claude))
  {
    forall e ensures e in es <==> e in fs {
      assert e in multiset(es) <==> e in multiset(fs);
    }
    assert Logged(es) == Logged(fs);
    forall key ensures SumWhere(Run(es).ledger, UsageOfKey(key)) == SumWhere(Run(fs).ledger, UsageOfKey(key)) {
      UsagePerKey(es, key);
      UsagePerKey(fs, key);
      TotalPermutation(es, fs, KeyShare(key, key in Logged(es)));
    }
    UsageOfAgent(es);
    UsageOfAgent(fs);
    TotalPermutation(es, fs, AgentShare(Logged(es)));
  }
}
