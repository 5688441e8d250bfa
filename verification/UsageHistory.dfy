/** What the usage aggregator keeps and shows, told from the events alone. */
module UsageHistory {
  import opened UsageStats
  import opened BucketKeys
  import opened UsageLedger
  import opened LedgerSums
  import opened LedgerInvariants
  import opened AggregatorMaps
  import opened UsageAggregator
  import opened ClaudeAccounting
  import opened ClaudeHistory
  import opened CodexHistory
  import AggregatorTotals

  // What counts as a change

  /** Whether an event that arrives after `es` is to be reported as a change: every request log; a metric
      point with a value whose key no log has covered; every sample that is counted; and a report that
      moves something counted to another bucket. */
  predicate Changes(es: seq<Event>, e: Event) {
    if e.ClaudeLog? then true
    else if e.ClaudeMetric? then
      e.value > 0 && e.kind != OtherClaudePoint && UsageKey(e.model, e.effort) !in Logged(es)
    else if IsSample(e) then IsCounted(es, e)
    else exists x :: x in CodexEntries(es, |es|) && After(es, e, x).bucket != x.bucket
  }

  lemma {:induction false} ReportHits(s: State, es: seq<Event>, e: Event)
    requires (e.CodexStart? || e.CodexSpan?) && Told(s, es) && Invariant(s)
    ensures Step(s, e).hit <==> Moves(s.ledger, Following(es, e))
  {
    hide Step, Told, Good, GoodTables, Relabel;
    if e.CodexStart? {
      StartMoves(s, es, e);
    } else {
      SpanMoves(s, es, e);
    }
  }

  lemma {:induction false} OnlyCodexMoves(ledger: seq<Entry>, es: seq<Event>, e: Event)
    ensures Moves(ledger, Following(es, e)) <==>
              exists x :: x in Filter(ledger, OfAgent(Codex)) && After(es, e, x).bucket != x.bucket
  {
    hide Conversation, LastReport, OldReport;
    forall x | x in ledger && Following(es, e)(x).bucket != x.bucket ensures x in Filter(ledger, OfAgent(Codex)) {
    }
  }

  lemma {:induction false} PointHits(es: seq<Event>, e: Event)
    requires e.ClaudeMetric?
    ensures Step(Run(es), e).hit <==> Changes(es, e)
  {
    hide Logged, Run, Contributions, Keep, AllOffered, ClaudeSample, PointStats, Bare, Relabel;
    Refinement(es);
    SamplesAre(Zero(), 0, e.kind, e.value);
    KeyOfNonEmpty(e.model, e.effort);
  }

  /** An event is reported as a change if and only if it is one. */
  lemma {:induction false} HitsAreChanges(es: seq<Event>, e: Event)
    ensures Step(Run(es), e).hit <==> Changes(es, e)
  {
    hide Run, Told, IsCounted, After, Good, GoodTables, StepClaudeLog, StepClaudeMetric, StepStart, StepSpan, StepSse,
         StepTokens, StepTurnSample, CodexEntries, Logged, UsageKey;
    RunTold(es);
    if e.ClaudeMetric? {
      PointHits(es, e);
    } else if e.CodexStart? || e.CodexSpan? {
      RunKeeps(es);
      ReportHits(Run(es), es, e);
      OnlyCodexMoves(Run(es).ledger, es, e);
      CodexLedgerIs(es);
    } else if IsSample(e) {
      SampleAdds(Run(es), es, e);
    }
  }

  function ChangeCount(es: seq<Event>): nat {
    if es == [] then 0
    else
      var before, e := es[..|es| - 1], es[|es| - 1];
      ChangeCount(before) + if Changes(before, e) then 1 else 0
  }

  /** What a batch returns is the number of its changes. */
  lemma {:induction false} CountsAreChanges(es: seq<Event>)
    ensures RunFrom(INITIAL, es) == (Run(es), ChangeCount(es))
  {
    hide Changes, Step;
    if es != [] {
      CountsAreChanges(es[..|es| - 1]);
      HitsAreChanges(es[..|es| - 1], es[|es| - 1]);
    }
  }

  /** What an event carries, field by field. */
  function Carried(e: Event): Stats {
    match e
    case ClaudeLog(_, _, duration, u) => Stats(1, u.input, u.output, u.cacheRead, u.cacheCreation, 0, u.cost, duration)
    case ClaudeMetric(_, _, kind, value) => PointStats(kind, value)
    case CodexSse(_, _, _, _, _, t) => Stats(0, t.input, t.output, t.cacheRead, t.cacheWrite, t.reasoning, 0, 0)
    case CodexTokens(_, _, point, value) => TokenStats(point, value)
    case CodexTurns(_, _, value) => Stats(value, 0, 0, 0, 0, 0, 0, 0)
    case CodexDuration(_, _, value) => Stats(0, 0, 0, 0, 0, 0, 0, value)
    case _ => Stats(0, 0, 0, 0, 0, 0, 0, 0)
  }

  lemma {:induction false} OfferIs(e: Event)
    ensures Offer(e) == Carried(e)
  {
  }

  /** A metric point moves what is counted if and only if it renames the model of something counted. It
      is reported only for its own value, so such a move can go unreported. */
  lemma {:induction false} PointMovesIff(es: seq<Event>, e: Event)
    requires e.ClaudeMetric?
    ensures var s, after := Run(es), Step(Run(es), e).state.ledger;
            && |s.ledger| <= |after|
            && ((exists i :: 0 <= i < |s.ledger| && after[i].bucket != s.ledger[i].bucket) <==>
                exists x :: x in ClaudeEntries(es, |es|, Logged(es))
                            && Renamed(Names(es), e, x.bucket.model) != x.bucket.model)
  {
    hide Run, Names, Renamed, UsageKey, ClaudeSample, Register, Logged, Tabled;
    var s, f := Run(es), Renaming(Names(es), e);
    var after := Step(s, e).state.ledger;
    RunTabled(es);
    RegisterRenames(s, Names(es), e);
    ClaudeLedgerIs(es);
    assert forall i | 0 <= i < |s.ledger| :: after[i] == f(s.ledger[i]);
    if x :| x in Filter(s.ledger, OfAgent(Claude)) && f(x).bucket != x.bucket {
      var i :| 0 <= i < |s.ledger| && s.ledger[i] == x;
      assert after[i].bucket != s.ledger[i].bucket;
    }
    forall i | 0 <= i < |s.ledger| && after[i].bucket != s.ledger[i].bucket
      ensures s.ledger[i] in Filter(s.ledger, OfAgent(Claude)) {
      assert s.ledger[i].Agent() == Claude;
    }
  }

  /** A log for a bare name and then a point of no type for its variant: the request moves, unreported. */
  lemma {:induction false} UnreportedMove()
    ensures var log := ClaudeLog("m", "", 0, Zero());
            var o := Step(Run([log]), ClaudeMetric("m[1m]", "", OtherClaudePoint, 0));
            && !o.hit
            && |Run([log]).ledger| == 1 && Run([log]).ledger[0].bucket == Bucket("anthropic", "m", "unknown")
            && |o.state.ledger| == 1 && o.state.ledger[0].bucket == Bucket("anthropic", "m[1m]", "unknown")
  {
    var log := ClaudeLog("m", "", 0, Zero());
    assert [log][..0] == [];
    assert Run([log]) == StepClaudeLog(INITIAL, "m", "", 0, Zero());
    assert Bare("m[1m]") == "m" by {
      assert "m[1m]"[1..] == "[1m]";
    }
  }

  // What is shown

  function Entries(es: seq<Event>, a: Agent): seq<Entry> {
    match a
    case Claude => ClaudeEntries(es, |es|, Logged(es))
    case Codex => CodexEntries(es, |es|)
  }

  lemma {:induction false} EntriesAre(es: seq<Event>, a: Agent)
    ensures Filter(Run(es).ledger, OfAgent(a)) == Entries(es, a)
  {
    match a
    case Claude => ClaudeLedgerIs(es);
    case Codex => CodexLedgerIs(es);
  }

  /** Each agent's total and each of its buckets are exactly the sums of what the history counts there. */
  lemma {:induction false} ShownIsHistory(a: Aggregator, es: seq<Event>, agent: Agent, b: Bucket)
    requires a.Valid() && a.offered.Fits() && a.Abs() == RunFrom(INITIAL, es).0
    ensures TotalIn(a.agents, agent) == SumWhere(Entries(es, agent), All())
    ensures At(a.agents, agent, b) == SumWhere(Entries(es, agent), AggregatorTotals.Inside(b))
  {
    AggregatorTotals.RunFromStart(es);
    EntriesAre(es, agent);
    SumFilter(a.ledger, OfAgent(agent), All(), OfAgent(agent));
    SumFilter(a.ledger, OfAgent(agent), AggregatorTotals.Inside(b), InBucket(agent, b));
    assert At(a.agents, agent, b) == SumWhere(a.ledger, InBucket(agent, b));
    assert TotalIn(a.agents, agent) == SumWhere(a.ledger, OfAgent(agent));
  }

  /** No bucket of a bare name is shown once metrics have named a variant of it and not the name itself. */
  lemma {:induction false} BareNameNotShown(a: Aggregator, es: seq<Event>, bare: string, k: string)
    requires a.Valid() && a.offered.Fits() && a.Abs() == RunFrom(INITIAL, es).0
    requires bare != "" && bare != UNKNOWN && '[' !in bare && OnlyVariants(es, bare)
    requires Claude in a.agents && k in a.agents[Claude].buckets
    ensures a.agents[Claude].buckets[k].bucket.model != bare
  {
    AggregatorTotals.RunFromStart(es);
    BareNameEmptied(es, bare);
    var b := a.agents[Claude].buckets[k].bucket;
    forall e | e in a.ledger ensures e.stats.HasAnyValue() {
      assert Good(a.Abs(), e);
    }
    SumHasValue(a.ledger, InBucket(Claude, b));
    assert At(a.agents, Claude, b) == SumWhere(a.ledger, InBucket(Claude, b));
  }
}
