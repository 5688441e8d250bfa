/** What holds of every reachable ledger: which tables an entry agrees with, where pending
    usage stands, and which single source a model or a Claude key is counted from. */
module LedgerInvariants {
  import opened Basics
  import opened UsageStats
  import opened BucketKeys
  import opened UsageLedger

  predicate GoodClaude(s: State, e: Entry) {
    && e.bucket.provider == ANTHROPIC
    && (e.tag.ClaudeLogUsage? ==> Get(s.claudeSources, EntryKey(e)) == Some(ClaudeLogs))
    && (e.tag.ClaudeMetricUsage? ==>
          && Get(s.claudeSources, EntryKey(e)) == Some(ClaudeMetrics)
          && e.bucket.model in s.metricModels)
  }

  predicate GoodSse(s: State, e: Entry)
    requires e.tag.Sse?
  {
    var session := Get(s.sessions, e.tag.cid);
    && Get(s.tokenSources, e.bucket.model) == Some(SseLogs)
    && (e.tag.pending ==> e.tag.cid != "" && e.bucket.provider == ProviderOf(session))
    && (e.tag.cid != "" ==> (e.tag.pending <==> !Confirmed(session) || e.bucket.effort == UNKNOWN))
  }

  predicate Good(s: State, e: Entry) {
    && e.stats.HasAnyValue()
    && e.bucket.provider != "" && e.bucket.model != "" && e.bucket.effort != ""
    && (e.Agent() == Claude ==> GoodClaude(s, e))
    && (e.tag.Sse? ==> GoodSse(s, e))
    && (e.tag.TurnTokens? ==> Get(s.tokenSources, e.bucket.model) == Some(TurnMetrics))
  }

  predicate GoodSession(session: Session) {
    session.provider != "" && (!session.confirmed ==> session.provider == OPENAI)
  }

  /** A canonical name is a variant of the name it replaces. */
  ghost predicate GoodNames(names: map<string, string>) {
    forall m | m in names :: m != "" && names[m] != "" && NonEmpty(Bare(names[m])) == NonEmpty(Bare(m))
  }

  ghost predicate GoodTables(s: State) {
    && GoodNames(s.canonicalModels)
    && (forall c | c in s.sessions :: c != "" && s.sessions[c].cid == c && GoodSession(s.sessions[c]))
    && (forall v | v in s.lastSessions :: GoodSession(s.lastSessions[v]))
  }

  ghost predicate GoodLedger(s: State) {
    forall e | e in s.ledger :: Good(s, e)
  }

  ghost predicate Invariant(s: State) {
    GoodTables(s) && GoodLedger(s)
  }

  // Each step keeps the invariant

  /** An entry stays good while the tables it depends on stay. */
  lemma {:induction false} GoodFrame(s: State, s': State, e: Entry)
    requires Good(s, e)
    requires s'.sessions == s.sessions && s'.tokenSources == s.tokenSources && s.metricModels <= s'.metricModels
    requires e.tag.ClaudeLogUsage? || e.tag.ClaudeMetricUsage? ==>
               Get(s'.claudeSources, EntryKey(e)) == Get(s.claudeSources, EntryKey(e))
    ensures Good(s', e)
  {
  }

  lemma {:induction false} ClaudeLogKeeps(s: State, model: string, effort: string, duration: nat, usage: Stats)
    requires GoodLedger(s)
    ensures GoodLedger(StepClaudeLog(s, model, effort, duration, usage))
  {
    var s' := StepClaudeLog(s, model, effort, duration, usage);
    var bucket := FromParts(ANTHROPIC, CanonicalModel(s, model), effort);
    var request := Entry(bucket, RequestSample(duration), ClaudeRequest);
    var log := Entry(bucket, LogUsage(usage), ClaudeLogUsage);
    NewLogGood(s, model, effort, duration, usage);
    forall e | e in s'.ledger ensures Good(s', e) {
      if e in s.ledger {
        LogLeavesGood(s, model, effort, duration, usage, e);
      } else {
        hide Good, CanonicalModel, UsageKey, LogUsage, RequestSample;
        assert e == request || (LogUsage(usage).HasUsage() && e == log);
      }
    }
  }

  lemma {:induction false} NewLogGood(s: State, model: string, effort: string, duration: nat, usage: Stats)
    ensures var s' := StepClaudeLog(s, model, effort, duration, usage);
            var bucket := FromParts(ANTHROPIC, CanonicalModel(s, model), effort);
            && Good(s', Entry(bucket, RequestSample(duration), ClaudeRequest))
            && (LogUsage(usage).HasUsage() ==> Good(s', Entry(bucket, LogUsage(usage), ClaudeLogUsage)))
  {
    hide CanonicalModel, UsageKey, LogUsage, Filter;
  }

  /** What a log leaves in the ledger depends on nothing the log changed. */
  lemma {:induction false} LogLeavesGood(s: State, model: string, effort: string, duration: nat, usage: Stats, e: Entry)
    requires GoodLedger(s) && e in s.ledger && e in StepClaudeLog(s, model, effort, duration, usage).ledger
    ensures Good(StepClaudeLog(s, model, effort, duration, usage), e)
  {
    var s' := StepClaudeLog(s, model, effort, duration, usage);
    var bucket := FromParts(ANTHROPIC, CanonicalModel(s, model), effort);
    var key := UsageKey(bucket.model, bucket.effort);
    hide CanonicalModel, UsageKey, RequestSample;
    assert Good(s, e);
    if e.tag.ClaudeMetricUsage? && EntryKey(e) == key && LogUsage(usage).HasUsage() {
      assert false;
    }
    GoodFrame(s, s', e);
  }

  /** Promoting a bare name to a full one never moves usage to another source key. */
  lemma {:induction false} PromoteKeepsKey(bare: string, full: string, e: Entry)
    requires bare == Bare(full)
    ensures EntryKey(Promote(bare, full)(e)) == EntryKey(e)
  {
    BareOfBare(full);
  }

  lemma {:induction false} RegisterKeepsNames(s: State, full: string)
    requires GoodNames(s.canonicalModels) && full != ""
    ensures GoodNames(Register(s, full).canonicalModels)
  {
    BareOfBare(full);
  }

  lemma {:induction false} PromoteKeepsGood(s: State, s': State, bare: string, full: string, e: Entry)
    requires Good(s, e) && bare == Bare(full) && full != "" && bare !in s'.metricModels
    requires s' == s.(ledger := s'.ledger, metricModels := s'.metricModels, canonicalModels := s'.canonicalModels)
    requires s.metricModels <= s'.metricModels
    ensures Good(s', Promote(bare, full)(e))
  {
    PromoteKeepsKey(bare, full, e);
  }

  lemma {:induction false} RegisterKeeps(s: State, full: string)
    requires GoodLedger(s) && full != ""
    ensures GoodLedger(Register(s, full))
  {
    var s' := Register(s, full);
    var bare := Bare(full);
    forall e' | e' in s'.ledger ensures Good(s', e') {
      var i :| 0 <= i < |s'.ledger| && s'.ledger[i] == e';
      assert Good(s, s.ledger[i]);
      if Folds(s, full) {
        PromoteKeepsGood(s, s', bare, full, s.ledger[i]);
      } else {
        GoodFrame(s, s', e');
      }
    }
  }

  lemma {:induction false} ClaudeMetricKeeps(s: State, model: string, effort: string, kind: ClaudePoint, value: nat)
    requires GoodLedger(s)
    ensures GoodLedger(StepClaudeMetric(s, model, effort, kind, value).state)
  {
    var s1 := Register(s, NonEmpty(model));
    RegisterKeeps(s, NonEmpty(model));
    var s' := StepClaudeMetric(s, model, effort, kind, value).state;
    var entry := Entry(FromParts(ANTHROPIC, NonEmpty(model), effort), ClaudeSample(kind, value), ClaudeMetricUsage);
    forall e | e in s'.ledger ensures Good(s', e) {
      if e in s1.ledger {
        assert Good(s1, e);
        GoodFrame(s1, s', e);
      }
    }
  }

  lemma {:induction false} MergedIsGood(s: State, session: Session)
    requires Invariant(s) && GoodSession(session)
    ensures GoodSession(Merged(s, session)) && Merged(s, session).cid == session.cid
    ensures Confirmed(Get(s.sessions, session.cid)) && session.cid != "" ==> Merged(s, session).confirmed
  {
  }

  lemma {:induction false} ResolveKeeps(s: State, s': State, m: Session, e: Entry)
    requires Good(s, e) && m.cid != "" && m.provider != ""
    requires Confirmed(Get(s.sessions, m.cid)) ==> m.confirmed
    requires s' == s.(ledger := s'.ledger, sessions := s.sessions[m.cid := m], lastSessions := s'.lastSessions)
    ensures Good(s', Mover(m)(e))
  {
  }

  lemma {:induction false} MoveSettledKeeps(s: State, s': State, m: Session, e: Entry)
    requires Good(s, e) && m.cid == "" && m.provider != ""
    requires s' == s.(ledger := s'.ledger, lastSessions := s'.lastSessions)
    ensures Good(s', Mover(m)(e))
  {
  }

  lemma {:induction false} MergeKeeps(s: State, s': State, m: Session)
    requires GoodLedger(s) && m.provider != ""
    requires Confirmed(Get(s.sessions, m.cid)) ==> m.confirmed
    requires s' == s.(ledger := Relabel(s.ledger, Mover(m)),
                      sessions := if m.cid != "" then s.sessions[m.cid := m] else s.sessions,
                      lastSessions := s'.lastSessions)
    ensures GoodLedger(s')
  {
    forall e' | e' in s'.ledger ensures Good(s', e') {
      var i :| 0 <= i < |s'.ledger| && s'.ledger[i] == e';
      assert Good(s, s.ledger[i]);
      if m.cid == "" {
        MoveSettledKeeps(s, s', m, s.ledger[i]);
      } else {
        ResolveKeeps(s, s', m, s.ledger[i]);
      }
    }
  }

  lemma {:induction false} UpdateSessionKeeps(s: State, service: string, session: Session, updateLast: bool)
    requires Invariant(s) && GoodSession(session)
    ensures Invariant(UpdateSession(s, service, session, updateLast).state)
  {
    MergedIsGood(s, session);
    MergeKeeps(s, UpdateSession(s, service, session, updateLast).state, Merged(s, session));
  }

  lemma {:induction false} SpanKeeps(s: State, service: string, cid: string, model: string, effort: string)
    requires Invariant(s)
    ensures Invariant(StepSpan(s, service, cid, model, effort).state)
  {
    if effort != "" && cid != "" {
      var session := SpannedSession(s, cid, model, effort);
      UpdateSessionKeeps(s, service, session, service in s.lastSessions ==> s.lastSessions[service].cid == session.cid);
    } else if effort != "" {
      LastEffortKeeps(s, service, model, effort);
    }
  }

  lemma {:induction false} LastEffortKeeps(s: State, service: string, model: string, effort: string)
    requires Invariant(s) && effort != ""
    ensures Invariant(StepSpan(s, service, "", model, effort).state)
  {
    var last := LastSession(s, service);
    var s1 := s.(lastSessions := s.lastSessions[service := last.(effort := effort)]);
    forall e | e in s1.ledger ensures Good(s1, e) {
      assert Good(s, e);
      GoodFrame(s, s1, e);
    }
    assert GoodTables(s1);
    hide Good, Mover, Moves, Relabel;
    if last.cid == "" {
      MergeKeeps(s1, MergePending(s1, last.(effort := effort)).state, last.(effort := effort));
    }
  }

  lemma {:induction false} SseKeeps(s: State, service: string, cid: string, model: string, slug: string,
                                    effort: string, t: SseTokens)
    requires Invariant(s)
    ensures Invariant(StepSse(s, service, cid, model, slug, effort, t).state)
  {
  }

  lemma {:induction false} TokensKeep(s: State, service: string, model: string, point: CodexPoint, value: nat)
    requires Invariant(s)
    ensures Invariant(StepTokens(s, service, model, point, value).state)
  {
  }

  lemma {:induction false} TurnSampleKeeps(s: State, service: string, model: string, sample: Stats, tag: Tag)
    requires Invariant(s) && (tag.TurnCount? || tag.TurnDuration?)
    ensures Invariant(StepTurnSample(s, service, model, sample, tag).state)
  {
  }

  lemma {:induction false} StepKeeps(s: State, e: Event)
    requires Invariant(s)
    ensures Invariant(Step(s, e).state)
  {
    match e
    case ClaudeLog(model, effort, duration, usage) => ClaudeLogKeeps(s, model, effort, duration, usage);
    case ClaudeMetric(model, effort, kind, value) =>
      ClaudeMetricKeeps(s, model, effort, kind, value);
      RegisterKeepsNames(s, NonEmpty(model));

    case CodexStart(service, cid, provider, model, effort) =>
      UpdateSessionKeeps(s, service, StartedSession(cid, provider, model, effort), true);
    case CodexSse(service, cid, model, slug, effort, t) => SseKeeps(s, service, cid, model, slug, effort, t);
    case CodexSpan(service, cid, model, effort) => SpanKeeps(s, service, cid, model, effort);
    case CodexTokens(service, model, point, value) => TokensKeep(s, service, model, point, value);
    case CodexTurns(service, model, value) => TurnSampleKeeps(s, service, model, Zero().(requests := value), TurnCount);
    case CodexDuration(service, model, value) =>
      TurnSampleKeeps(s, service, model, Zero().(duration := value), TurnDuration);
  }

  lemma {:induction false} RunKeeps(es: seq<Event>)
    ensures Invariant(Run(es))
  {
    if es != [] {
      RunKeeps(es[..|es| - 1]);
      StepKeeps(Run(es[..|es| - 1]), es[|es| - 1]);
    }
  }
}
