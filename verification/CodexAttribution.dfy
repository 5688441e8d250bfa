/** Codex usage: what one conversation's events can and cannot do to another's, and where
    each completion ends up whatever the order of arrival. */
module CodexAttribution {
  import opened UsageStats
  import opened BucketKeys
  import opened UsageLedger
  import opened LedgerSums
  import opened LedgerInvariants

  predicate Touches(e: Event, c: string) {
    (e.CodexStart? || e.CodexSse? || e.CodexSpan?) && e.cid == c
  }

  function SseOf(c: string): Entry -> bool {
    (e: Entry) => e.tag.Sse? && e.tag.cid == c
  }

  /** The completions of conversation `c` as they are counted now, in order of arrival. */
  function View(s: State, c: string): seq<Entry> {
    Filter(s.ledger, SseOf(c))
  }

  // Isolation

  lemma {:induction false} MergeIsolates(s: State, session: Session, c: string)
    requires GoodLedger(s) && session.cid != c && c != ""
    ensures View(MergePending(s, session).state, c) == View(s, c)
  {
    var f := Mover(session);
    forall e | e in s.ledger
      ensures SseOf(c)(f(e)) == SseOf(c)(e) && (SseOf(c)(e) ==> f(e) == e)
    {
      assert Good(s, e);
    }
    FilterSame(s.ledger, f, SseOf(c));
  }

  lemma {:induction false} UpdateSessionIsolates(s: State, service: string, session: Session, updateLast: bool,
                                                 c: string)
    requires GoodLedger(s) && c != "" && session.cid != c
    ensures var s' := UpdateSession(s, service, session, updateLast).state;
            View(s', c) == View(s, c) && Get(s'.sessions, c) == Get(s.sessions, c)
  {
    MergeIsolates(s, Merged(s, session), c);
  }

  lemma {:induction false} SpanIsolates(s: State, service: string, cid: string, model: string, effort: string,
                                        c: string)
    requires Invariant(s) && c != "" && cid != c
    ensures var s' := StepSpan(s, service, cid, model, effort).state;
            View(s', c) == View(s, c) && Get(s'.sessions, c) == Get(s.sessions, c)
  {
    if effort != "" && cid != "" {
      var session := SpannedSession(s, cid, model, effort);
      UpdateSessionIsolates(s, service, session,
                            service in s.lastSessions ==> s.lastSessions[service].cid == session.cid, c);
    } else if effort != "" {
      var last := LastSession(s, service);
      var s1 := s.(lastSessions := s.lastSessions[service := last.(effort := effort)]);
      assert forall e | e in s1.ledger :: Good(s, e) && Good(s1, e);
      if last.cid == "" {
        MergeIsolates(s1, last.(effort := effort), c);
      }
    }
  }

  lemma {:induction false} ClaudeLogIsolates(s: State, model: string, effort: string, duration: nat, usage: Stats,
                                             c: string)
    ensures View(StepClaudeLog(s, model, effort, duration, usage), c) == View(s, c)
  {
    hide CanonicalModel, UsageKey, RequestSample, LogUsage;
    var bucket := FromParts(ANTHROPIC, CanonicalModel(s, model), effort);
    var request := Entry(bucket, RequestSample(duration), ClaudeRequest);
    var log := Entry(bucket, LogUsage(usage), ClaudeLogUsage);
    var l1 := s.ledger + [request];
    var drop := IsNotMetricOf(UsageKey(bucket.model, bucket.effort));
    FilterAppend(s.ledger, request, SseOf(c));
    FilterFilter(l1, drop, SseOf(c));
    FilterAppend(Filter(l1, drop), log, SseOf(c));
    FilterAppend(l1, log, SseOf(c));
  }

  lemma {:induction false} ClaudeMetricIsolates(s: State, model: string, effort: string, kind: ClaudePoint,
                                                value: nat, c: string)
    ensures View(StepClaudeMetric(s, model, effort, kind, value).state, c) == View(s, c)
  {
    var name := NonEmpty(model);
    FilterSame(s.ledger, Promote(Bare(name), name), SseOf(c));
    var added := Entry(FromParts(ANTHROPIC, name, effort), ClaudeSample(kind, value), ClaudeMetricUsage);
    FilterAppend(Register(s, name).ledger, added, SseOf(c));
  }

  lemma {:induction false} TurnMetricsIsolate(s: State, e: Event, c: string)
    requires e.CodexTokens? || e.CodexTurns? || e.CodexDuration?
    ensures View(Step(s, e).state, c) == View(s, c)
  {
    if Step(s, e).hit {
      FilterAppend(s.ledger, Step(s, e).state.ledger[|s.ledger|], SseOf(c));
    }
  }

  lemma {:induction false} SseIsolates(s: State, e: Event, c: string)
    requires e.CodexSse? && e.cid != c
    ensures View(Step(s, e).state, c) == View(s, c)
  {
    if Step(s, e).hit {
      FilterAppend(s.ledger, Step(s, e).state.ledger[|s.ledger|], SseOf(c));
    }
  }

  /** An event of anyone else leaves a conversation's session, and every completion counted for
      it, exactly where they were: same bucket, same amounts, same pending state. */
  lemma {:induction false} Isolation(s: State, e: Event, c: string)
    requires Invariant(s) && c != "" && !Touches(e, c)
    ensures View(Step(s, e).state, c) == View(s, c)
    ensures Get(Step(s, e).state.sessions, c) == Get(s.sessions, c)
  {
    hide View, Good, UsageKey, Mover, Moves, Folds, RegisteredNames, CanonicalModel;
    match e
    case ClaudeLog(model, effort, duration, usage) => ClaudeLogIsolates(s, model, effort, duration, usage, c);
    case ClaudeMetric(model, effort, kind, value) => ClaudeMetricIsolates(s, model, effort, kind, value, c);
    case CodexStart(service, cid, provider, model, effort) =>
      UpdateSessionIsolates(s, service, StartedSession(cid, provider, model, effort), true, c);
    case CodexSse(_, _, _, _, _, _) => SseIsolates(s, e, c);
    case CodexSpan(service, cid, model, effort) => SpanIsolates(s, service, cid, model, effort, c);
    case CodexTokens(_, _, _, _) => TurnMetricsIsolate(s, e, c);
    case CodexTurns(_, _, _) => TurnMetricsIsolate(s, e, c);
    case CodexDuration(_, _, _) => TurnMetricsIsolate(s, e, c);
  }

  // Sessions

  predicate Learned(before: Session, after: Session) {
    && (before.confirmed ==> after.confirmed)
    && (before.model != "" ==> after.model != "")
    && (before.effort != "" ==> after.effort != "")
  }

  lemma {:induction false} UpdateSessionLearns(s: State, service: string, session: Session, updateLast: bool, c: string)
    requires c in s.sessions && c != ""
    ensures var s' := UpdateSession(s, service, session, updateLast).state;
            && c in s'.sessions && Learned(s.sessions[c], s'.sessions[c])
            && (s.sessions[c].confirmed && !(session.cid == c && session.confirmed) ==>
                  s'.sessions[c].provider == s.sessions[c].provider)
  {
  }

  lemma {:induction false} StartLearns(s: State, service: string, cid: string, provider: string, model: string,
                                       effort: string, c: string)
    requires c in s.sessions && c != ""
    ensures var s' := StepStart(s, service, cid, provider, model, effort).state;
            && c in s'.sessions && Learned(s.sessions[c], s'.sessions[c])
            && (s.sessions[c].confirmed && s'.sessions[c].provider != s.sessions[c].provider ==>
                  cid == c && provider == s'.sessions[c].provider)
  {
    var session := StartedSession(cid, provider, model, effort);
    UpdateSessionLearns(s, service, session, true, c);
    hide Mover, Moves, Relabel;
  }

  lemma {:induction false} SpanLearns(s: State, service: string, cid: string, model: string, effort: string, c: string)
    requires GoodTables(s) && c in s.sessions
    ensures var s' := StepSpan(s, service, cid, model, effort).state;
            && c in s'.sessions && Learned(s.sessions[c], s'.sessions[c])
            && s'.sessions[c].provider == s.sessions[c].provider
  {
    if effort != "" && cid != "" {
      var session := SpannedSession(s, cid, model, effort);
      SpanSessions(s, service, session, service in s.lastSessions ==> s.lastSessions[service].cid == session.cid, c);
    }
  }

  /** A span's report keeps the provider its conversation has. */
  lemma {:induction false} SpanSessions(s: State, service: string, session: Session, updateLast: bool, c: string)
    requires GoodTables(s) && c in s.sessions && session.effort != ""
    requires session.cid == c ==> session.(effort := s.sessions[c].effort) == s.sessions[c]
    ensures var s' := UpdateSession(s, service, session, updateLast).state;
            && c in s'.sessions && Learned(s.sessions[c], s'.sessions[c])
            && s'.sessions[c].provider == s.sessions[c].provider
  {
    hide Mover, Moves, Relabel;
  }

  /** Once confirmed, a provider stays confirmed, and changes only when a start of the same
      conversation reports another one; a known model or effort is never forgotten. */
  lemma {:induction false} SessionsOnlyLearn(s: State, e: Event, c: string)
    requires Invariant(s) && c in s.sessions
    ensures var s' := Step(s, e).state;
            && c in s'.sessions && Learned(s.sessions[c], s'.sessions[c])
            && (s.sessions[c].confirmed && s'.sessions[c].provider != s.sessions[c].provider ==>
                  e.CodexStart? && e.cid == c && e.provider == s'.sessions[c].provider)
  {
    hide StepStart, StepSpan, StepSse, StepTokens, StepTurnSample, Filter, Good, UsageKey, Folds, RegisteredNames;
    match e
    case CodexStart(service, cid, provider, model, effort) => StartLearns(s, service, cid, provider, model, effort, c);
    case CodexSpan(service, cid, model, effort) => SpanLearns(s, service, cid, model, effort, c);
    case ClaudeLog(_, _, _, _) =>
    case ClaudeMetric(_, _, _, _) =>
    case _ => SampleStep(s, e);
  }

  /** In every reachable state, a completion with a conversation id is pending exactly while its
      provider is unconfirmed or its effort unknown, and pending usage stands under the
      conversation's current provider, or the default one if none was reported. */
  lemma {:induction false} PendingShape(es: seq<Event>, e: Entry)
    requires e in Run(es).ledger && e.tag.Sse? && e.tag.cid != ""
    ensures e.tag.pending <==> !Confirmed(Get(Run(es).sessions, e.tag.cid)) || e.bucket.effort == UNKNOWN
    ensures e.tag.pending ==> e.bucket.provider == ProviderOf(Get(Run(es).sessions, e.tag.cid))
  {
    RunKeeps(es);
    assert Good(Run(es), e);
  }

  // Token sources

  predicate CountsTokens(e: Entry) {
    e.tag.Sse? || e.tag.TurnTokens?
  }

  lemma {:induction false} TokenSourceNeverChanges(s: State, e: Event, model: string)
    requires model in s.tokenSources
    ensures Get(Step(s, e).state.tokenSources, model) == Get(s.tokenSources, model)
  {
    match e
    case CodexSse(service, cid, m, slug, effort, t) =>
      assert s.tokenSources[model] == SseLogs || s.tokenSources[model] == TurnMetrics;
    case CodexTokens(service, m, point, value) =>
      assert s.tokenSources[model] == SseLogs || s.tokenSources[model] == TurnMetrics;
    case _ =>
  }

  lemma {:induction false} TokenSourceSticks(es: seq<Event>, n: nat, model: string)
    requires n <= |es| && model in Run(es[..n]).tokenSources
    ensures Get(Run(es).tokenSources, model) == Get(Run(es[..n]).tokenSources, model)
  {
    if n < |es| {
      assert es[..|es| - 1][..n] == es[..n];
      TokenSourceSticks(es[..|es| - 1], n, model);
      TokenSourceNeverChanges(Run(es[..|es| - 1]), es[|es| - 1], model);
    } else {
      assert es[..n] == es;
    }
  }

  /** For every model, all counted tokens come from completions or all come from turn metrics. */
  lemma {:induction false} SingleTokenSource(es: seq<Event>, d: Entry, e: Entry)
    requires d in Run(es).ledger && e in Run(es).ledger && CountsTokens(d) && CountsTokens(e)
    requires d.bucket.model == e.bucket.model
    ensures d.tag.Sse? <==> e.tag.Sse?
  {
    RunKeeps(es);
    assert Good(Run(es), d) && Good(Run(es), e);
  }

  /** What stays the same about a contribution when its conversation is resolved. */
  datatype Origin = Origin(model: string, stats: Stats, tag: Tag)

  function OriginOf(e: Entry): Origin {
    Origin(e.bucket.model, e.stats, if e.tag.Sse? then e.tag.(pending := false) else e.tag)
  }

  /** The origins of all counted Codex contributions, in order of arrival. */
  function CodexOrigins(es: seq<Entry>): seq<Origin> {
    if es == [] then []
    else
      var rest, e := CodexOrigins(es[..|es| - 1]), es[|es| - 1];
      if e.Agent() == Codex then rest + [OriginOf(e)] else rest
  }

  lemma {:induction false} OriginsAppend(es: seq<Entry>, e: Entry)
    ensures CodexOrigins(es + [e]) == if e.Agent() == Codex then CodexOrigins(es) + [OriginOf(e)] else CodexOrigins(es)
  {
    assert (es + [e])[..|es|] == es;
  }

  lemma {:induction false} OriginsRelabel(es: seq<Entry>, f: Entry -> Entry)
    requires forall e {:trigger f(e)} | e in es ::
               f(e).Agent() == e.Agent() && (e.Agent() == Codex ==> OriginOf(f(e)) == OriginOf(e))
    ensures CodexOrigins(Relabel(es, f)) == CodexOrigins(es)
  {
    if es != [] {
      var n := |es| - 1;
      assert Relabel(es, f)[..n] == Relabel(es[..n], f);
      OriginsRelabel(es[..n], f);
      assert es[n] in es;
      assert Relabel(es, f)[n] == f(es[n]);
    }
  }

  lemma {:induction false} OriginsFilter(es: seq<Entry>, keep: Entry -> bool)
    requires forall e {:trigger keep(e)} | e in es :: e.Agent() == Codex ==> keep(e)
    ensures CodexOrigins(Filter(es, keep)) == CodexOrigins(es)
  {
    if es != [] {
      var n := |es| - 1;
      OriginsFilter(es[..n], keep);
      assert es[n] in es;
      if keep(es[n]) {
        OriginsAppend(Filter(es[..n], keep), es[n]);
      }
    }
  }

  lemma {:induction false} MoverKeepsOrigins(es: seq<Entry>, session: Session)
    requires forall e | e in es :: e.bucket.model != ""
    ensures CodexOrigins(Relabel(es, Mover(session))) == CodexOrigins(es)
  {
    OriginsRelabel(es, Mover(session));
  }

  lemma {:induction false} ClaudeLogKeepsOrigins(s: State, model: string, effort: string, duration: nat, usage: Stats)
    ensures CodexOrigins(StepClaudeLog(s, model, effort, duration, usage).ledger) == CodexOrigins(s.ledger)
  {
    hide UsageKey, CanonicalModel, LogUsage, RequestSample;
    var bucket := FromParts(ANTHROPIC, CanonicalModel(s, model), effort);
    var key := UsageKey(bucket.model, bucket.effort);
    var request := Entry(bucket, RequestSample(duration), ClaudeRequest);
    OriginsAppend(s.ledger, request);
    OriginsFilter(s.ledger + [request], IsNotMetricOf(key));
    OriginsAppend(s.ledger + [request], Entry(bucket, LogUsage(usage), ClaudeLogUsage));
    OriginsAppend(Filter(s.ledger + [request], IsNotMetricOf(key)), Entry(bucket, LogUsage(usage), ClaudeLogUsage));
  }

  lemma {:induction false} ClaudeMetricKeepsOrigins(s: State, model: string, effort: string, kind: ClaudePoint,
                                                    value: nat)
    ensures CodexOrigins(StepClaudeMetric(s, model, effort, kind, value).state.ledger) == CodexOrigins(s.ledger)
  {
    var name := NonEmpty(model);
    var s1 := Register(s, name);
    if Folds(s, name) {
      OriginsRelabel(s.ledger, Promote(Bare(name), name));
    }
    OriginsAppend(s1.ledger, Entry(FromParts(ANTHROPIC, name, effort), ClaudeSample(kind, value), ClaudeMetricUsage));
  }

  lemma {:induction false} SpanKeepsOrigins(s: State, service: string, cid: string, model: string, effort: string)
    requires GoodLedger(s)
    ensures CodexOrigins(StepSpan(s, service, cid, model, effort).state.ledger) == CodexOrigins(s.ledger)
  {
    assert forall e | e in s.ledger :: Good(s, e) && e.bucket.model != "";
    if cid == "" {
      var last := LastSession(s, service);
      MoverKeepsOrigins(s.ledger, last.(effort := effort));
    } else {
      var session := SpannedSession(s, cid, model, effort);
      MoverKeepsOrigins(s.ledger, Merged(s, session));
    }
  }

  lemma {:induction false} SampleAddsOrigin(s: State, e: Event)
    requires IsSample(e)
    ensures var after := CodexOrigins(Step(s, e).state.ledger);
            CodexOrigins(s.ledger) <= after && |after| <= |CodexOrigins(s.ledger)| + 1
  {
    SampleStep(s, e);
    hide StepSse, StepTokens, StepTurnSample;
    var after := Step(s, e).state.ledger;
    if Step(s, e).hit {
      OriginsAppend(s.ledger, after[|s.ledger|]);
    }
  }

  lemma {:induction false} StartKeepsOrigins(s: State, service: string, cid: string, provider: string, model: string,
                                             effort: string)
    requires GoodLedger(s)
    ensures CodexOrigins(StepStart(s, service, cid, provider, model, effort).state.ledger) == CodexOrigins(s.ledger)
  {
    assert forall d | d in s.ledger :: Good(s, d) && d.bucket.model != "";
    var session := StartedSession(cid, provider, model, effort);
    MoverKeepsOrigins(s.ledger, Merged(s, session));
  }

  /** Every counted Codex contribution stays counted, once for each time it was, in the same order,
      with the same model, amounts and origin; an event adds at most one, at the end. */
  lemma {:induction false} CodexEntriesStay(s: State, e: Event)
    requires GoodLedger(s)
    ensures CodexOrigins(s.ledger) <= CodexOrigins(Step(s, e).state.ledger)
    ensures |CodexOrigins(Step(s, e).state.ledger)| <= |CodexOrigins(s.ledger)| + 1
  {
    hide StepClaudeLog, StepClaudeMetric, StepStart, StepSpan, StepSse, StepTokens, StepTurnSample, Good;
    match e
    case ClaudeLog(model, effort, duration, usage) => ClaudeLogKeepsOrigins(s, model, effort, duration, usage);
    case ClaudeMetric(model, effort, kind, value) => ClaudeMetricKeepsOrigins(s, model, effort, kind, value);
    case CodexSpan(service, cid, model, effort) => SpanKeepsOrigins(s, service, cid, model, effort);
    case CodexStart(service, cid, provider, model, effort) =>
      StartKeepsOrigins(s, service, cid, provider, model, effort);
    case _ => SampleAddsOrigin(s, e);
  }

  lemma {:induction false} OriginCounted(es: seq<Entry>, o: Origin)
    ensures o in CodexOrigins(es) <==> exists d :: d in es && d.Agent() == Codex && OriginOf(d) == o
  {
    if es != [] {
      var front, last := es[..|es| - 1], es[|es| - 1];
      OriginCounted(front, o);
      assert es == front + [last];
    }
  }

  ghost predicate TokensCounted(s: State, model: string) {
    exists d :: d in s.ledger && CountsTokens(d) && d.bucket.model == model
  }

  /** A model has a token source exactly when tokens of that model are counted: points without
      a value never choose one, and no move between buckets crosses models. */
  lemma {:induction false} SourceMeansTokens(es: seq<Event>, model: string)
    ensures model in Run(es).tokenSources <==> TokensCounted(Run(es), model)
  {
    var s' := Run(es);
    RunKeeps(es);
    if TokensCounted(s', model) {
      var d :| d in s'.ledger && CountsTokens(d) && d.bucket.model == model;
      assert Good(s', d);
    }
    if es != [] {
      var s, e := Run(es[..|es| - 1]), es[|es| - 1];
      RunKeeps(es[..|es| - 1]);
      SourceMeansTokens(es[..|es| - 1], model);
      SourceStepMeansTokens(s, e, model);
    }
  }

  lemma {:induction false} SourceStepMeansTokens(s: State, e: Event, model: string)
    requires GoodLedger(s) && (model in s.tokenSources ==> TokensCounted(s, model))
    ensures model in Step(s, e).state.tokenSources ==> TokensCounted(Step(s, e).state, model)
  {
    var s' := Step(s, e).state;
    if model in s.tokenSources {
      TokensStayCounted(s, e, model);
    } else if model in s'.tokenSources {
      NewSourceCounts(s, e, model);
    }
  }

  lemma {:induction false} TokensStayCounted(s: State, e: Event, model: string)
    requires GoodLedger(s) && TokensCounted(s, model)
    ensures TokensCounted(Step(s, e).state, model)
  {
    var s' := Step(s, e).state;
    var d :| d in s.ledger && CountsTokens(d) && d.bucket.model == model;
    CodexEntriesStay(s, e);
    OriginCounted(s.ledger, OriginOf(d));
    OriginCounted(s'.ledger, OriginOf(d));
    hide Step, GoodLedger, CodexOrigins;
    var d' :| d' in s'.ledger && d'.Agent() == Codex && OriginOf(d') == OriginOf(d);
    assert CountsTokens(d') && d'.bucket.model == model;
  }

  lemma {:induction false} NewSourceCounts(s: State, e: Event, model: string)
    requires model !in s.tokenSources && model in Step(s, e).state.tokenSources
    ensures TokensCounted(Step(s, e).state, model)
  {
    var s' := Step(s, e).state;
    hide Mover, Moves, Relabel, Filter, UsageKey, Folds, RegisteredNames, SseStats, CodexSample;
    match e
    case CodexSse(_, _, _, _, _, _) =>
      assert CountsTokens(s'.ledger[|s.ledger|]) && s'.ledger[|s.ledger|].bucket.model == model;
    case CodexTokens(_, _, _, _) =>
      assert CountsTokens(s'.ledger[|s.ledger|]) && s'.ledger[|s.ledger|].bucket.model == model;
    case _ =>
  }
}
