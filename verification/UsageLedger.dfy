/** What the aggregator is meant to hold: a ledger with one entry per contribution that is
    currently counted, each knowing the event it came from and the bucket it stands in,
    next to the small lookup tables that decide where the next contribution goes.
    Every event is one pure step. */
module UsageLedger {
  import opened Basics
  import opened UsageStats
  import opened BucketKeys

  const OPENAI := "OpenAI"

  // Decoded events. A missing attribute is the empty string.

  datatype ClaudePoint = TokenInput | TokenOutput | TokenCacheRead | TokenCacheCreation | Cost | OtherClaudePoint
  datatype CodexPoint = Input | Output | CachedInput | CacheWriteInput | ReasoningOutput | OtherCodexPoint
  datatype SseTokens = SseTokens(input: nat, output: nat, cacheRead: nat, cacheWrite: nat, reasoning: nat, tool: nat)

  datatype Event =
    | ClaudeLog(model: string, effort: string, duration: nat, usage: Stats)
    | ClaudeMetric(model: string, effort: string, kind: ClaudePoint, value: nat)
    | CodexStart(service: string, cid: string, provider: string, model: string, effort: string)
    | CodexSse(service: string, cid: string, model: string, slug: string, effort: string, tokens: SseTokens)
    | CodexSpan(service: string, cid: string, model: string, effort: string)
    | CodexTokens(service: string, model: string, point: CodexPoint, value: nat)
    | CodexTurns(service: string, model: string, value: nat)
    | CodexDuration(service: string, model: string, value: nat)

  // Ledger

  datatype Tag =
    | ClaudeRequest
    | ClaudeLogUsage
    | ClaudeMetricUsage
    | Sse(cid: string, ownEffort: string, pending: bool)
    | TurnTokens
    | TurnCount
    | TurnDuration

  datatype Agent = Claude | Codex

  datatype Entry = Entry(bucket: Bucket, stats: Stats, tag: Tag) {
    function Agent(): Agent {
      if tag.ClaudeRequest? || tag.ClaudeLogUsage? || tag.ClaudeMetricUsage? then Claude else Codex
    }
    predicate Pending() {
      tag.Sse? && tag.pending
    }
  }

  function Relabel(es: seq<Entry>, f: Entry -> Entry): (r: seq<Entry>)
    ensures |r| == |es|
    ensures forall i | 0 <= i < |es| :: r[i] == f(es[i])
  {
    seq(|es|, i requires 0 <= i < |es| => f(es[i]))
  }

  function Filter(es: seq<Entry>, p: Entry -> bool): (r: seq<Entry>)
    ensures forall e | e in r :: e in es && p(e)
    ensures forall e | e in es && p(e) :: e in r
  {
    if es == [] then []
    else
      var rest := Filter(es[..|es| - 1], p);
      if p(es[|es| - 1]) then rest + [es[|es| - 1]] else rest
  }

  // Lookup tables

  function Get<K, V>(m: map<K, V>, k: K): Option<V> {
    if k in m then Some(m[k]) else None
  }

  datatype SourceKey = SourceKey(model: string, effort: string)
  datatype ClaudeSource = ClaudeLogs | ClaudeMetrics
  datatype TokenSource = SseLogs | TurnMetrics

  /** A conversation as far as it is known; `confirmed` says the provider was really reported. */
  datatype Session = Session(cid: string, provider: string, model: string, effort: string, confirmed: bool)

  datatype State = State(
    ledger: seq<Entry>,
    canonicalModels: map<string, string>,
    metricModels: set<string>,
    claudeSources: map<SourceKey, ClaudeSource>,
    lastSessions: map<string, Session>,
    sessions: map<string, Session>,
    tokenSources: map<string, TokenSource>)

  const INITIAL: State := State([], map[], {}, map[], map[], map[], map[])

  datatype Outcome = Outcome(state: State, hit: bool)

  /** Variants of one model report as one source: the key drops everything from the first `[`. */
  function UsageKey(model: string, effort: string): SourceKey {
    SourceKey(NonEmpty(Bare(model)), NonEmpty(effort))
  }

  function EntryKey(e: Entry): SourceKey {
    UsageKey(e.bucket.model, e.bucket.effort)
  }

  // Claude

  function ClaudeSample(kind: ClaudePoint, value: nat): Stats {
    match kind
    case TokenInput => Zero().(input := value)
    case TokenOutput => Zero().(output := value)
    case TokenCacheRead => Zero().(cacheRead := value)
    case TokenCacheCreation => Zero().(cacheCreation := value)
    case Cost => Zero().(cost := value)
    case OtherClaudePoint => Zero()
  }

  function RequestSample(duration: nat): Stats {
    Zero().(requests := 1, duration := duration)
  }

  /** Only these fields are read from an API request log. */
  function LogUsage(usage: Stats): Stats {
    usage.(requests := 0, reasoning := 0, duration := 0)
  }

  function CanonicalModel(s: State, raw: string): string {
    if raw in s.metricModels || raw !in s.canonicalModels then raw else s.canonicalModels[raw]
  }

  function IsNotMetricOf(key: SourceKey): Entry -> bool {
    (e: Entry) => !(e.tag.ClaudeMetricUsage? && EntryKey(e) == key)
  }

  function StepClaudeLog(s: State, model: string, effort: string, duration: nat, usage: Stats): State {
    var bucket := FromParts(ANTHROPIC, CanonicalModel(s, model), effort);
    var s1 := s.(ledger := s.ledger + [Entry(bucket, RequestSample(duration), ClaudeRequest)]);
    if !LogUsage(usage).HasUsage() then s1
    else
      var key := UsageKey(bucket.model, bucket.effort);
      var kept := if Get(s.claudeSources, key) == Some(ClaudeMetrics)
                  then Filter(s1.ledger, IsNotMetricOf(key)) else s1.ledger;
      s1.(ledger := kept + [Entry(bucket, LogUsage(usage), ClaudeLogUsage)],
          claudeSources := s.claudeSources[key := ClaudeLogs])
  }

  function Promote(bare: string, full: string): Entry -> Entry {
    (e: Entry) => if e.Agent() == Claude && e.bucket.model == bare
                  then e.(bucket := e.bucket.(model := full)) else e
  }

  /** Is `full` a new variant name whose bare name metrics do not use themselves? */
  predicate Folds(s: State, full: string) {
    var bare := Bare(full);
    && bare != "" && bare != full && bare !in s.metricModels
    && Get(s.canonicalModels, bare) != Some(full)
  }

  /** The name an API request log should be read as from now on. */
  function RegisteredNames(s: State, full: string): map<string, string> {
    var bare := Bare(full);
    if Folds(s, full) then s.canonicalModels[bare := full]
    else if (bare == "" || bare == full) && full !in s.canonicalModels then s.canonicalModels[full := full]
    else s.canonicalModels
  }

  /** A metric reported the name `full`: remember it, and fold the bare name into it unless
      metrics use the bare name itself. */
  function Register(s: State, full: string): State {
    s.(metricModels := s.metricModels + {full},
       canonicalModels := RegisteredNames(s, full),
       ledger := if Folds(s, full) then Relabel(s.ledger, Promote(Bare(full), full)) else s.ledger)
  }

  function StepClaudeMetric(s: State, model: string, effort: string, kind: ClaudePoint, value: nat): Outcome {
    var name := NonEmpty(model);
    var s1 := Register(s, name);
    var sample := ClaudeSample(kind, value);
    var bucket := FromParts(ANTHROPIC, name, effort);
    var key := UsageKey(bucket.model, bucket.effort);
    if !sample.HasUsage() || Get(s1.claudeSources, key) == Some(ClaudeLogs) then Outcome(s1, false)
    else Outcome(s1.(ledger := s1.ledger + [Entry(bucket, sample, ClaudeMetricUsage)],
                     claudeSources := s1.claudeSources[key := ClaudeMetrics]), true)
  }

  // Codex

  function ProviderOf(session: Option<Session>): string {
    if session.Some? then session.value.provider else OPENAI
  }

  function EffortOf(session: Option<Session>): string {
    if session.Some? then session.value.effort else ""
  }

  predicate Confirmed(session: Option<Session>) {
    session.Some? && session.value.confirmed
  }

  predicate IsPendingOf(cid: string, e: Entry) {
    e.Pending() && e.tag.cid == cid
  }

  /** Where usage pending in bucket `from` goes once provider and effort are as given. */
  function ResolvedBucket(from: Bucket, provider: string, effort: string): Bucket {
    FromParts(provider, from.model, if from.effort == UNKNOWN then NonEmpty(effort) else from.effort)
  }

  function Resolve(cid: string, provider: string, effort: string, confirmed: bool): Entry -> Entry {
    (e: Entry) => if IsPendingOf(cid, e)
                  then var to := ResolvedBucket(e.bucket, provider, effort);
                       e.(bucket := to, tag := e.tag.(pending := !confirmed || to.effort == UNKNOWN))
                  else e
  }

  function MoveSettled(from: Bucket, to: Bucket): Entry -> Entry {
    (e: Entry) => if e.Agent() == Codex && e.bucket == from && !e.Pending() then e.(bucket := to) else e
  }

  /** How a session report moves usage. With a conversation id it resolves that conversation's
      pending usage; without one (old telemetry) it empties the unknown-effort bucket of its
      model, except for usage that waits for a conversation of its own. */
  function Mover(session: Session): Entry -> Entry {
    if session.cid != "" then Resolve(session.cid, session.provider, session.effort, session.confirmed)
    else if session.model == "" || session.effort == "" || session.effort == UNKNOWN then (e: Entry) => e
    else MoveSettled(FromParts(session.provider, session.model, UNKNOWN),
                     FromParts(session.provider, session.model, session.effort))
  }

  predicate Moves(es: seq<Entry>, f: Entry -> Entry) {
    exists e :: e in es && f(e).bucket != e.bucket
  }

  /** The return value says whether the breakdown changed. */
  function MergePending(s: State, session: Session): Outcome {
    Outcome(s.(ledger := Relabel(s.ledger, Mover(session))), Moves(s.ledger, Mover(session)))
  }

  /** What is already known about the conversation fills the gaps of the new report. */
  function Merged(s: State, session: Session): Session {
    if session.cid != "" && session.cid in s.sessions then
      var prev := s.sessions[session.cid];
      session.(
        model := if session.model == "" then prev.model else session.model,
        effort := if session.effort == "" then prev.effort else session.effort,
        provider := if !session.confirmed && prev.confirmed then prev.provider else session.provider,
        confirmed := session.confirmed || prev.confirmed)
    else session
  }

  function UpdateSession(s: State, service: string, session: Session, updateLast: bool): Outcome {
    var m := Merged(s, session);
    MergePending(
      s.(sessions := if m.cid != "" then s.sessions[m.cid := m] else s.sessions,
         lastSessions := if updateLast then s.lastSessions[service := m] else s.lastSessions),
      m)
  }

  /** The session a start event reports. */
  function StartedSession(cid: string, provider: string, model: string, effort: string): Session {
    Session(cid, if provider != "" then provider else OPENAI, model, effort, provider != "")
  }

  /** The session a span with a conversation id reports: what is known of it, with a new effort. */
  function SpannedSession(s: State, cid: string, model: string, effort: string): Session {
    if cid in s.sessions then s.sessions[cid].(effort := effort) else Session(cid, OPENAI, model, effort, false)
  }

  function LastSession(s: State, service: string): Session {
    if service in s.lastSessions then s.lastSessions[service] else Session("", OPENAI, "", "", false)
  }

  function StepStart(s: State, service: string, cid: string, provider: string, model: string, effort: string): Outcome {
    if cid == "" && model == "" && effort == "" then Outcome(s, false)
    else UpdateSession(s, service, StartedSession(cid, provider, model, effort), true)
  }

  function StepSpan(s: State, service: string, cid: string, model: string, effort: string): Outcome {
    if effort == "" then Outcome(s, false)
    else if cid == "" then
      var last := LastSession(s, service);
      if last.effort == effort then Outcome(s, false)
      else
        var s1 := s.(lastSessions := s.lastSessions[service := last.(effort := effort)]);
        if last.cid != "" then Outcome(s1, false) else MergePending(s1, last.(effort := effort))
    else
      var session := SpannedSession(s, cid, model, effort);
      UpdateSession(s, service, session,
                    service in s.lastSessions ==> s.lastSessions[service].cid == session.cid)
  }

  /** Completions that carry no usage, or only tool context, are not usage. */
  predicate Counted(t: SseTokens) {
    && !(t.input != 0 && t.input == t.tool && t.output == 0 && t.cacheRead == 0 && t.cacheWrite == 0
         && t.reasoning == 0)
    && !(t.input == 0 && t.output == 0 && t.cacheRead == 0 && t.cacheWrite == 0 && t.reasoning == 0)
  }

  function SseStats(t: SseTokens): Stats {
    Stats(0, t.input, t.output, t.cacheRead, t.cacheWrite, t.reasoning, 0, 0)
  }

  function SseModel(session: Option<Session>, model: string, slug: string): string {
    if model != "" then model else if slug != "" then slug
    else if session.Some? then session.value.model else ""
  }

  function StepSse(s: State, service: string, cid: string, model: string, slug: string, effort: string,
                   t: SseTokens): Outcome {
    if !Counted(t) then Outcome(s, false)
    else
      var session := if cid != "" then Get(s.sessions, cid) else Get(s.lastSessions, service);
      var bucket := FromParts(ProviderOf(session), SseModel(session, model, slug),
                              if effort != "" then effort else EffortOf(session));
      var pending := cid != "" && (!Confirmed(session) || bucket.effort == UNKNOWN);
      if Get(s.tokenSources, bucket.model) == Some(TurnMetrics) then Outcome(s, false)
      else Outcome(s.(ledger := s.ledger + [Entry(bucket, SseStats(t), Sse(cid, effort, pending))],
                      tokenSources := s.tokenSources[bucket.model := SseLogs]), true)
  }

  function CodexSample(point: CodexPoint, value: nat): Stats {
    match point
    case Input => Zero().(input := value)
    case Output => Zero().(output := value)
    case CachedInput => Zero().(cacheRead := value)
    case CacheWriteInput => Zero().(cacheCreation := value)
    case ReasoningOutput => Zero().(reasoning := value)
    case OtherCodexPoint => Zero()
  }

  /** Turn metrics name no conversation; they take provider and effort from the last session of their service. */
  function TurnBucket(s: State, service: string, model: string): Bucket {
    var last := Get(s.lastSessions, service);
    FromParts(ProviderOf(last), model, EffortOf(last))
  }

  function StepTokens(s: State, service: string, model: string, point: CodexPoint, value: nat): Outcome {
    var key := NonEmpty(model);
    if Get(s.tokenSources, key) == Some(SseLogs) || point == OtherCodexPoint || value == 0 then Outcome(s, false)
    else Outcome(s.(ledger := s.ledger + [Entry(TurnBucket(s, service, model), CodexSample(point, value), TurnTokens)],
                    tokenSources := s.tokenSources[key := TurnMetrics]), true)
  }

  function StepTurnSample(s: State, service: string, model: string, sample: Stats, tag: Tag): Outcome {
    if !sample.HasAnyValue() then Outcome(s, false)
    else Outcome(s.(ledger := s.ledger + [Entry(TurnBucket(s, service, model), sample, tag)]), true)
  }

  // Runs

  function Step(s: State, e: Event): Outcome {
    match e
    case ClaudeLog(model, effort, duration, usage) => Outcome(StepClaudeLog(s, model, effort, duration, usage), true)
    case ClaudeMetric(model, effort, kind, value) => StepClaudeMetric(s, model, effort, kind, value)
    case CodexStart(service, cid, provider, model, effort) => StepStart(s, service, cid, provider, model, effort)
    case CodexSse(service, cid, model, slug, effort, t) => StepSse(s, service, cid, model, slug, effort, t)
    case CodexSpan(service, cid, model, effort) => StepSpan(s, service, cid, model, effort)
    case CodexTokens(service, model, point, value) => StepTokens(s, service, model, point, value)
    case CodexTurns(service, model, value) => StepTurnSample(s, service, model, Zero().(requests := value), TurnCount)
    case CodexDuration(service, model, value) =>
      StepTurnSample(s, service, model, Zero().(duration := value), TurnDuration)
  }

  function Run(es: seq<Event>): State {
    if es == [] then INITIAL else Step(Run(es[..|es| - 1]), es[|es| - 1]).state
  }

  /** A run from some state, with the number of events that reported a change. */
  function RunFrom(s: State, es: seq<Event>): (State, nat) {
    if es == [] then (s, 0)
    else
      var before := RunFrom(s, es[..|es| - 1]);
      var o := Step(before.0, es[|es| - 1]);
      (o.state, if o.hit then before.1 + 1 else before.1)
  }

  /** The most an event can add to the counters, whatever the state. */
  function Offer(e: Event): Stats {
    match e
    case ClaudeLog(_, _, duration, usage) => Plus(RequestSample(duration), LogUsage(usage))
    case ClaudeMetric(_, _, kind, value) => ClaudeSample(kind, value)
    case CodexStart(_, _, _, _, _) => Zero()
    case CodexSse(_, _, _, _, _, t) => SseStats(t)
    case CodexSpan(_, _, _, _) => Zero()
    case CodexTokens(_, _, point, value) => CodexSample(point, value)
    case CodexTurns(_, _, value) => Zero().(requests := value)
    case CodexDuration(_, _, value) => Zero().(duration := value)
  }

  function OfferAll(es: seq<Event>): Stats {
    if es == [] then Zero() else Plus(OfferAll(es[..|es| - 1]), Offer(es[|es| - 1]))
  }

  /** The events that only count: all they do is add one Codex entry, perhaps choosing its model's
      token source. */
  predicate IsSample(e: Event) {
    e.CodexSse? || e.CodexTokens? || e.CodexTurns? || e.CodexDuration?
  }

  lemma {:induction false} SampleStep(s: State, e: Event)
    requires IsSample(e)
    ensures var o := Step(s, e);
            && o.state == s.(ledger := o.state.ledger, tokenSources := o.state.tokenSources)
            && (if o.hit then
                  && |o.state.ledger| == |s.ledger| + 1
                  && o.state.ledger == s.ledger + [o.state.ledger[|s.ledger|]]
                  && o.state.ledger[|s.ledger|].Agent() == Codex
                  && o.state.ledger[|s.ledger|].stats == Offer(e)
                else o.state == s)
  {
  }
}
