/** The Codex part of the ledger told from the events alone: what each report made known, which
    completions and turn metrics are counted, where each stood on arrival, and what moved it since. */
module CodexHistory {
  import opened Basics
  import opened UsageStats
  import opened BucketKeys
  import opened UsageLedger
  import opened LedgerSums
  import opened LedgerInvariants

  // What was reported

  /** An event that says something about conversation `c`. */
  predicate ReportsOn(e: Event, c: string) {
    c != "" && ((e.CodexStart? && e.cid == c) || (e.CodexSpan? && e.cid == c && e.effort != ""))
  }

  predicate Reported(es: seq<Event>, c: string) {
    exists e :: e in es && ReportsOn(e, c)
  }

  /** The provider that a start of the conversation named last. */
  function LastProvider(es: seq<Event>, c: string): Option<string> {
    if es == [] then None
    else
      var e := es[|es| - 1];
      if e.CodexStart? && e.cid == c && e.provider != "" then Some(e.provider)
      else LastProvider(es[..|es| - 1], c)
  }

  /** The effort that a start or span of the conversation named last. */
  function LastEffort(es: seq<Event>, c: string): string {
    if es == [] then ""
    else
      var e := es[|es| - 1];
      if (e.CodexStart? || e.CodexSpan?) && e.cid == c && e.effort != "" then e.effort
      else LastEffort(es[..|es| - 1], c)
  }

  /** The model that a start named last, or the span that was the first report. */
  function LastModel(es: seq<Event>, c: string): string {
    if es == [] then ""
    else
      var front, e := es[..|es| - 1], es[|es| - 1];
      if e.CodexStart? && e.cid == c && e.model != "" then e.model
      else if ReportsOn(e, c) && !Reported(front, c) then e.model
      else LastModel(front, c)
  }

  /** A conversation as its own reports describe it. */
  function Conversation(es: seq<Event>, c: string): Option<Session> {
    if !Reported(es, c) then None
    else
      var p := LastProvider(es, c);
      Some(Session(c, if p.Some? then p.value else "OpenAI", LastModel(es, c), LastEffort(es, c), p.Some?))
  }

  /** What the last event of `es` makes of the last report of a service. */
  function ReportWith(es: seq<Event>, e: Event, service: string, last: Option<Session>): Option<Session> {
    if e.CodexStart? && e.service == service && e.cid != "" then Conversation(es, e.cid)
    else if e.CodexStart? && e.service == service && (e.model != "" || e.effort != "") then
      Some(Session("", if e.provider != "" then e.provider else "OpenAI", e.model, e.effort, e.provider != ""))
    else if e.CodexSpan? && e.service == service && e.effort != "" then
      if e.cid == "" then
        Some(if last.Some? then last.value.(effort := e.effort) else Session("", "OpenAI", "", e.effort, false))
      else if last == None || last.value.cid == e.cid then Conversation(es, e.cid)
      else last
    else last
  }

  /** What the service's turn metrics, and completions without a conversation, are read with: the
      conversation started last, as it was known then, kept up to date by its own spans; or what a start
      without conversation said; with the effort of the last span without one. */
  function LastReport(es: seq<Event>, service: string): Option<Session> {
    if es == [] then None
    else ReportWith(es, es[|es| - 1], service, LastReport(es[..|es| - 1], service))
  }

  lemma {:induction false} ReportedMore(es: seq<Event>, e: Event, c: string)
    ensures Reported(es + [e], c) <==> Reported(es, c) || ReportsOn(e, c)
  {
    assert forall x :: x in es + [e] <==> x in es || x == e;
  }

  lemma {:induction false} FrontIs(es: seq<Event>, e: Event)
    ensures (es + [e])[..|es + [e]| - 1] == es && (es + [e])[|es + [e]| - 1] == e
  {
  }

  lemma {:induction false} LastReportMore(es: seq<Event>, e: Event)
    ensures forall v :: LastReport(es + [e], v) == ReportWith(es + [e], e, v, LastReport(es, v))
  {
    hide ReportWith;
    FrontIs(es, e);
  }

  lemma {:induction false} NothingKnown(es: seq<Event>, c: string)
    requires c != "" && !Reported(es, c)
    ensures LastProvider(es, c) == None && LastModel(es, c) == "" && LastEffort(es, c) == ""
  {
    if es != [] {
      var front, e := es[..|es| - 1], es[|es| - 1];
      assert es == front + [e];
      ReportedMore(front, e, c);
      NothingKnown(front, c);
    }
  }

  /** What one report adds. */
  lemma {:induction false} StartSays(es: seq<Event>, e: Event, c: string)
    requires e.CodexStart? && e.cid == c && c != ""
    ensures var p := if e.provider != "" then Some(e.provider) else LastProvider(es, c);
            Conversation(es + [e], c) ==
            Some(Session(c, if p.Some? then p.value else "OpenAI",
                         if e.model != "" then e.model else LastModel(es, c),
                         if e.effort != "" then e.effort else LastEffort(es, c), p.Some?))
  {
    FrontIs(es, e);
    ReportedMore(es, e, c);
    if !Reported(es, c) {
      NothingKnown(es, c);
    }
    hide Reported;
  }

  lemma {:induction false} SpanSays(es: seq<Event>, e: Event, c: string)
    requires e.CodexSpan? && e.cid == c && c != "" && e.effort != ""
    ensures var before := Conversation(es, c);
            Conversation(es + [e], c) ==
            Some(if before.Some? then before.value.(effort := e.effort)
                 else Session(c, "OpenAI", e.model, e.effort, false))
  {
    hide Reported;
    FrontIs(es, e);
    ReportedMore(es, e, c);
    if !Reported(es, c) {
      NothingKnown(es, c);
    }
  }

  lemma {:induction false} OthersSayNothing(es: seq<Event>, e: Event, c: string)
    requires !ReportsOn(e, c)
    ensures Conversation(es + [e], c) == Conversation(es, c)
  {
    FrontIs(es, e);
    ReportedMore(es, e, c);
  }

  // The session tables hold what was reported

  ghost predicate Remembered(s: State, es: seq<Event>) {
    && (forall c :: Get(s.sessions, c) == Conversation(es, c))
    && (forall v :: Get(s.lastSessions, v) == LastReport(es, v))
  }

  /** What a start of a conversation is merged into is what its reports say with it. */
  lemma {:induction false} StartMerges(s: State, es: seq<Event>, e: Event)
    requires e.CodexStart? && e.cid != "" && Invariant(s) && Get(s.sessions, e.cid) == Conversation(es, e.cid)
    ensures Conversation(es + [e], e.cid) == Some(Merged(s, StartedSession(e.cid, e.provider, e.model, e.effort)))
  {
    hide Reported, LastProvider, LastModel, LastEffort, Good;
    StartSays(es, e, e.cid);
    if e.cid !in s.sessions {
      assert !Reported(es, e.cid);
      NothingKnown(es, e.cid);
    }
  }

  lemma {:induction false} SpanMerges(s: State, es: seq<Event>, e: Event)
    requires e.CodexSpan? && e.cid != "" && e.effort != ""
    requires Invariant(s) && Get(s.sessions, e.cid) == Conversation(es, e.cid)
    ensures Conversation(es + [e], e.cid) == Some(Merged(s, SpannedSession(s, e.cid, e.model, e.effort)))
    ensures SpannedSession(s, e.cid, e.model, e.effort).cid == e.cid
  {
    hide Reported, LastProvider, LastModel, LastEffort, Good;
    SpanSays(es, e, e.cid);
  }

  lemma {:induction false} StartTables(s: State, e: Event)
    requires e.CodexStart?
    ensures var session, s' := StartedSession(e.cid, e.provider, e.model, e.effort), Step(s, e).state;
            && s'.sessions == (if e.cid != "" then s.sessions[e.cid := Merged(s, session)] else s.sessions)
            && s'.lastSessions == (if e.cid == "" && e.model == "" && e.effort == "" then s.lastSessions
                                   else s.lastSessions[e.service := Merged(s, session)])
            && (e.cid == "" ==> Merged(s, session) == session)
  {
    hide Mover, Moves, Relabel;
  }

  lemma {:induction false} SpanTables(s: State, e: Event)
    requires Invariant(s) && e.CodexSpan? && e.effort != "" && e.cid != ""
    ensures var session, s' := SpannedSession(s, e.cid, e.model, e.effort), Step(s, e).state;
            && session.cid == e.cid
            && s'.sessions == s.sessions[e.cid := Merged(s, session)]
            && s'.lastSessions == if e.service in s.lastSessions ==> s.lastSessions[e.service].cid == e.cid
                                  then s.lastSessions[e.service := Merged(s, session)] else s.lastSessions
  {
    hide Mover, Moves, Relabel, Good;
  }

  lemma {:induction false} SpanWithoutId(s: State, e: Event)
    requires e.CodexSpan? && e.effort != "" && e.cid == ""
    ensures var s' := Step(s, e).state;
            && s'.sessions == s.sessions
            && s'.lastSessions == if LastSession(s, e.service).effort == e.effort then s.lastSessions
                                  else s.lastSessions[e.service := LastSession(s, e.service).(effort := e.effort)]
  {
    hide Mover, Moves, Relabel;
  }

  lemma {:induction false} StartRemembered(s: State, es: seq<Event>, e: Event)
    requires Invariant(s) && Remembered(s, es) && e.CodexStart?
    ensures Remembered(Step(s, e).state, es + [e])
  {
    hide Step, Conversation, Merged, Good, LastReport;
    LastReportMore(es, e);
    StartTables(s, e);
    if e.cid != "" {
      StartMerges(s, es, e);
    }
    OthersUnreported(es, e);
  }

  lemma {:induction false} OthersUnreported(es: seq<Event>, e: Event)
    ensures forall c | !ReportsOn(e, c) :: Conversation(es + [e], c) == Conversation(es, c)
  {
    forall c | !ReportsOn(e, c) ensures Conversation(es + [e], c) == Conversation(es, c) {
      OthersSayNothing(es, e, c);
    }
  }

  lemma {:induction false} SpanRemembered(s: State, es: seq<Event>, e: Event)
    requires Invariant(s) && Remembered(s, es) && e.CodexSpan?
    ensures Remembered(Step(s, e).state, es + [e])
  {
    hide Conversation, Merged, Good, SpannedSession, UpdateSession, MergePending, LastReport;
    LastReportMore(es, e);
    OthersUnreported(es, e);
    if e.effort != "" && e.cid != "" {
      SpanTables(s, e);
      SpanMerges(s, es, e);
    } else if e.effort != "" {
      SpanWithoutId(s, e);
      assert e.service in s.lastSessions <==> LastReport(es, e.service).Some?;
    }
  }

  lemma {:induction false} OtherRemembered(s: State, es: seq<Event>, e: Event)
    requires Remembered(s, es) && !e.CodexStart? && !e.CodexSpan?
    ensures Remembered(Step(s, e).state, es + [e])
  {
    hide StepSse, StepTokens, StepTurnSample, Conversation, Relabel, Filter, CanonicalModel, UsageKey, LastReport;
    LastReportMore(es, e);
    if IsSample(e) {
      SampleStep(s, e);
    }
    OthersUnreported(es, e);
  }

  /** After every run the tables hold, for each conversation and each service, what was reported. */
  lemma {:induction false} SessionsAreReports(es: seq<Event>)
    ensures forall c :: Get(Run(es).sessions, c) == Conversation(es, c)
    ensures forall v :: Get(Run(es).lastSessions, v) == LastReport(es, v)
  {
    if es != [] {
      var before, e := es[..|es| - 1], es[|es| - 1];
      assert es == before + [e];
      SessionsAreReports(before);
      RunKeeps(before);
      if e.CodexStart? {
        StartRemembered(Run(before), before, e);
      } else if e.CodexSpan? {
        SpanRemembered(Run(before), before, e);
      } else {
        OtherRemembered(Run(before), before, e);
      }
    }
  }

  // What is counted

  /** A completion is counted unless all it carries is input, and that is nothing or only tool context. */
  predicate Countable(t: SseTokens) {
    t.output > 0 || t.cacheRead > 0 || t.cacheWrite > 0 || t.reasoning > 0 || (t.input > 0 && t.input != t.tool)
  }

  /** A completion with a conversation is read with that conversation alone. */
  function SessionFor(es: seq<Event>, e: Event): Option<Session>
    requires e.CodexSse?
  {
    if e.cid != "" then Conversation(es, e.cid) else LastReport(es, e.service)
  }

  function NameFor(es: seq<Event>, e: Event): string
    requires e.CodexSse?
  {
    var session := SessionFor(es, e);
    if e.model != "" then e.model else if e.slug != "" then e.slug
    else if session.Some? && session.value.model != "" then session.value.model else "unknown"
  }

  /** What the tokens of a model are counted from: whichever arrived first. */
  function FirstSource(es: seq<Event>, m: string): Option<TokenSource> {
    if es == [] then None
    else
      var front, e := es[..|es| - 1], es[|es| - 1];
      if FirstSource(front, m).Some? then FirstSource(front, m)
      else if e.CodexSse? && Countable(e.tokens) && NameFor(front, e) == m then Some(SseLogs)
      else if e.CodexTokens? && e.value > 0 && e.point != OtherCodexPoint && NonEmpty(e.model) == m
      then Some(TurnMetrics) else None
  }

  /** Whether event `e` is counted when it arrives after `es`. */
  predicate IsCounted(es: seq<Event>, e: Event) {
    match e
    case CodexSse(_, _, _, _, _, t) => Countable(t) && FirstSource(es, NameFor(es, e)) != Some(TurnMetrics)
    case CodexTokens(_, model, point, value) =>
      value > 0 && point != OtherCodexPoint && FirstSource(es, NonEmpty(model)) != Some(SseLogs)
    case CodexTurns(_, _, value) => value > 0
    case CodexDuration(_, _, value) => value > 0
    case _ => false
  }

  function TokenStats(point: CodexPoint, value: nat): Stats {
    Stats(0,
          if point == Input then value else 0,
          if point == Output then value else 0,
          if point == CachedInput then value else 0,
          if point == CacheWriteInput then value else 0,
          if point == ReasoningOutput then value else 0,
          0, 0)
  }

  /** The bucket of a turn metric: the service's last report and the metric's own model. */
  function TurnPlace(es: seq<Event>, service: string, model: string): Bucket {
    match LastReport(es, service)
    case None => Bucket("OpenAI", NonEmpty(model), "unknown")
    case Some(last) => Bucket(last.provider, NonEmpty(model), NonEmpty(last.effort))
  }

  /** A completion on arrival: under its own effort or else the session's, and pending while its
      conversation's provider is not given or its effort unknown. */
  function CompletionEntry(es: seq<Event>, e: Event): Entry
    requires e.CodexSse?
  {
    var t, session := e.tokens, SessionFor(es, e);
    var effort := NonEmpty(if e.effort != "" then e.effort else if session.Some? then session.value.effort else "");
    Entry(Bucket(if session.Some? then session.value.provider else "OpenAI", NameFor(es, e), effort),
          Stats(0, t.input, t.output, t.cacheRead, t.cacheWrite, t.reasoning, 0, 0),
          Sse(e.cid, e.effort, e.cid != "" && (session.None? || !session.value.confirmed || effort == "unknown")))
  }

  /** What event `e` is counted as when it arrives after `es`. */
  function Arriving(es: seq<Event>, e: Event): Entry
    requires IsSample(e)
  {
    match e
    case CodexTokens(service, model, point, value) =>
      Entry(TurnPlace(es, service, model), TokenStats(point, value), TurnTokens)
    case CodexTurns(service, model, value) =>
      Entry(TurnPlace(es, service, model), Stats(value, 0, 0, 0, 0, 0, 0, 0), TurnCount)
    case CodexDuration(service, model, value) =>
      Entry(TurnPlace(es, service, model), Stats(0, 0, 0, 0, 0, 0, 0, value), TurnDuration)
    case _ => CompletionEntry(es, e)
  }

  /** A session report without conversation id that says something new. */
  predicate OldReport(es: seq<Event>, e: Event) {
    || (e.CodexStart? && e.cid == "" && (e.model != "" || e.effort != ""))
    || (e.CodexSpan? && e.cid == "" && e.effort != ""
        && var last := LastReport(es, e.service);
           last.None? || (last.value.cid == "" && last.value.effort != e.effort))
  }

  /** What event `e`, arriving after `es`, does to something counted before. A report on a conversation
      places what is pending of it anew. A report without one gives its effort to what is counted, not
      pending, under its provider and model without effort. */
  function After(es: seq<Event>, e: Event, x: Entry): Entry {
    if ReportsOn(e, if x.tag.Sse? then x.tag.cid else "") && x.tag.pending then
      var c := Conversation(es + [e], x.tag.cid);
      var effort := if x.bucket.effort != "unknown" || c.None? then x.bucket.effort else NonEmpty(c.value.effort);
      x.(bucket := Bucket(if c.Some? then c.value.provider else "OpenAI", x.bucket.model, effort),
         tag := x.tag.(pending := c.None? || !c.value.confirmed || effort == "unknown"))
    else if OldReport(es, e) then
      match LastReport(es + [e], e.service)
      case None => x
      case Some(r) =>
        if r.model != "" && r.effort != "" && r.effort != "unknown" && x.Agent() == Codex && !x.Pending()
           && x.bucket == Bucket(r.provider, r.model, "unknown")
        then x.(bucket := Bucket(r.provider, r.model, r.effort)) else x
    else x
  }

  /** How the sample at position `k` is counted at the end. */
  function Now(es: seq<Event>, k: nat): Entry
    requires k < |es| && IsSample(es[k])
  {
    if |es| == k + 1 then Arriving(es[..k], es[k])
    else After(es[..|es| - 1], es[|es| - 1], Now(es[..|es| - 1], k))
  }

  /** How what is counted of the first `n` events is counted at the end. */
  function CodexEntries(es: seq<Event>, n: nat): seq<Entry>
    requires n <= |es|
  {
    if n == 0 then []
    else CodexEntries(es, n - 1)
         + if IsSample(es[n - 1]) && IsCounted(es[..n - 1], es[n - 1]) then [Now(es, n - 1)] else []
  }

  // The ledger holds exactly that

  lemma {:induction false} FirstSourceMore(es: seq<Event>, e: Event, m: string)
    ensures FirstSource(es + [e], m) ==
            if FirstSource(es, m).Some? then FirstSource(es, m)
            else if e.CodexSse? && Countable(e.tokens) && NameFor(es, e) == m then Some(SseLogs)
            else if e.CodexTokens? && e.value > 0 && e.point != OtherCodexPoint && NonEmpty(e.model) == m
            then Some(TurnMetrics) else None
  {
    hide NameFor;
    FrontIs(es, e);
  }

  lemma {:induction false} CountableIs(t: SseTokens)
    ensures Counted(t) <==> Countable(t)
  {
  }

  lemma {:induction false} NameIs(es: seq<Event>, e: Event)
    requires e.CodexSse?
    ensures NameFor(es, e) == NonEmpty(SseModel(SessionFor(es, e), e.model, e.slug))
  {
    hide SessionFor;
  }

  /** The tables agree with the history. */
  ghost predicate Told(s: State, es: seq<Event>) {
    && Remembered(s, es)
    && (forall m :: Get(s.tokenSources, m) == FirstSource(es, m))
    && (forall v :: LastReport(es, v).Some? ==> LastReport(es, v).value.provider != "")
    && (forall c :: Conversation(es, c).Some? ==> Conversation(es, c).value.provider != "")
  }

  /** A sample leaves the tables, save for the source of its model, and adds its entry if it is counted. */
  ghost predicate Adds(s: State, es: seq<Event>, e: Event)
    requires IsSample(e)
  {
    var o := Step(s, e);
    && (o.hit <==> IsCounted(es, e))
    && o.state.ledger == (if IsCounted(es, e) then s.ledger + [Arriving(es, e)] else s.ledger)
    && (forall m :: Get(o.state.tokenSources, m) == FirstSource(es + [e], m))
  }

  lemma {:induction false} OneOfTwo(source: Option<TokenSource>)
    ensures source in {None, Some(SseLogs), Some(TurnMetrics)}
  {
    if source.Some? {
      match source.value
      case SseLogs =>
      case TurnMetrics =>
    }
  }

  lemma {:induction false} CompletionAdds(s: State, es: seq<Event>, e: Event)
    requires e.CodexSse? && Told(s, es)
    ensures Adds(s, es, e)
  {
    hide FirstSource, Conversation, LastReport, SseModel, NameFor, Counted, Countable;
    CountableIs(e.tokens);
    NameIs(es, e);
    var session := if e.cid != "" then Get(s.sessions, e.cid) else Get(s.lastSessions, e.service);
    assert session == SessionFor(es, e);
    forall m ensures Get(Step(s, e).state.tokenSources, m) == FirstSource(es + [e], m) {
      FirstSourceMore(es, e, m);
      assert FirstSource(es, m) in {None, Some(SseLogs), Some(TurnMetrics)} by { OneOfTwo(FirstSource(es, m)); }
    }
  }

  lemma {:induction false} TokensAdd(s: State, es: seq<Event>, e: Event)
    requires e.CodexTokens? && Told(s, es)
    ensures Adds(s, es, e)
  {
    hide FirstSource, Conversation, LastReport;
    forall m ensures Get(Step(s, e).state.tokenSources, m) == FirstSource(es + [e], m) {
      FirstSourceMore(es, e, m);
      assert FirstSource(es, m) in {None, Some(SseLogs), Some(TurnMetrics)} by { OneOfTwo(FirstSource(es, m)); }
    }
  }

  lemma {:induction false} TurnsAdd(s: State, es: seq<Event>, e: Event)
    requires (e.CodexTurns? || e.CodexDuration?) && Told(s, es)
    ensures Adds(s, es, e)
  {
    hide FirstSource, Conversation, LastReport;
    assert Step(s, e).state.tokenSources == s.tokenSources;
    forall m ensures Get(Step(s, e).state.tokenSources, m) == FirstSource(es + [e], m) {
      FirstSourceMore(es, e, m);
    }
  }

  lemma {:induction false} OthersLeaveSources(s: State, es: seq<Event>, e: Event)
    requires !IsSample(e) && Told(s, es)
    ensures forall m :: Get(Step(s, e).state.tokenSources, m) == FirstSource(es + [e], m)
  {
    hide FirstSource, Conversation, LastReport, Merged, Mover, Moves, Relabel, Filter, CanonicalModel, UsageKey;
    forall m ensures FirstSource(es + [e], m) == FirstSource(es, m) {
      FirstSourceMore(es, e, m);
    }
  }

  lemma {:induction false} SampleAdds(s: State, es: seq<Event>, e: Event)
    requires IsSample(e) && Told(s, es)
    ensures Adds(s, es, e)
  {
    hide Told, Adds;
    if e.CodexSse? {
      CompletionAdds(s, es, e);
    } else if e.CodexTokens? {
      TokensAdd(s, es, e);
    } else {
      TurnsAdd(s, es, e);
    }
  }

  lemma {:induction false} RunTold(es: seq<Event>)
    ensures Told(Run(es), es)
    decreases es, 1
  {
    SessionsAreReports(es);
    RunKeeps(es);
    hide Run, Good, FirstSource, Conversation, LastReport;
    SourcesAre(es);
    forall v | LastReport(es, v).Some? ensures LastReport(es, v).value.provider != "" {
      assert v in Run(es).lastSessions;
    }
    forall c | Conversation(es, c).Some? ensures Conversation(es, c).value.provider != "" {
      assert c in Run(es).sessions;
    }
  }

  lemma {:induction false} SourcesAre(es: seq<Event>)
    ensures forall m :: Get(Run(es).tokenSources, m) == FirstSource(es, m)
    decreases es, 0
  {
    if es != [] {
      var before, e := es[..|es| - 1], es[|es| - 1];
      assert es == before + [e];
      RunTold(before);
      if IsSample(e) {
        SampleAdds(Run(before), before, e);
      } else {
        OthersLeaveSources(Run(before), before, e);
      }
    }
  }

  function Following(es: seq<Event>, e: Event): Entry -> Entry {
    (x: Entry) => After(es, e, x)
  }

  /** What resolving a conversation does to an entry, told from its reports. */
  lemma {:induction false} ResolvesAs(s: State, es: seq<Event>, e: Event, m: Session, x: Entry)
    requires Good(s, x) && ReportsOn(e, m.cid) && Conversation(es + [e], m.cid) == Some(m)
    requires m.provider != "" && !OldReport(es, e)
    ensures Mover(m)(x) == After(es, e, x)
  {
    hide Conversation, LastReport, OldReport;
  }

  /** What a report without conversation does to an entry. */
  lemma {:induction false} SettlesAs(s: State, es: seq<Event>, e: Event, m: Session, x: Entry)
    requires Good(s, x) && (e.CodexStart? || e.CodexSpan?) && e.cid == "" && m.cid == "" && m.provider != ""
    requires OldReport(es, e) && LastReport(es + [e], e.service) == Some(m)
    ensures Mover(m)(x) == After(es, e, x)
  {
    hide Conversation, LastReport, OldReport;
  }

  lemma {:induction false} StartMoves(s: State, es: seq<Event>, e: Event)
    requires e.CodexStart? && Told(s, es) && Invariant(s)
    ensures Step(s, e).state.ledger == Relabel(s.ledger, Following(es, e))
    ensures Step(s, e).hit <==> Moves(s.ledger, Following(es, e))
  {
    hide Conversation, LastReport, Mover, Moves, Good, Merged, After, FirstSource;
    var session := StartedSession(e.cid, e.provider, e.model, e.effort);
    LastReportMore(es, e);
    MergedIsGood(s, session);
    if e.cid != "" {
      StartMerges(s, es, e);
      forall x | x in s.ledger ensures Mover(Merged(s, session))(x) == After(es, e, x) {
        ResolvesAs(s, es, e, Merged(s, session), x);
      }
      MovesAlike(s.ledger, Mover(Merged(s, session)), Following(es, e));
    } else if e.model != "" || e.effort != "" {
      StartTables(s, e);
      forall x | x in s.ledger ensures Mover(session)(x) == After(es, e, x) {
        SettlesAs(s, es, e, session, x);
      }
      MovesAlike(s.ledger, Mover(session), Following(es, e));
    } else {
      NothingMoves(s.ledger, es, e);
    }
  }

  lemma {:induction false} NothingMoves(ledger: seq<Entry>, es: seq<Event>, e: Event)
    requires !OldReport(es, e) && (e.CodexStart? || e.CodexSpan? ==> e.cid == "" || (e.CodexSpan? && e.effort == ""))
    ensures Relabel(ledger, Following(es, e)) == ledger && !Moves(ledger, Following(es, e))
  {
    hide Conversation, LastReport, OldReport;
  }

  lemma {:induction false} MovesAlike(ledger: seq<Entry>, f: Entry -> Entry, g: Entry -> Entry)
    requires forall x | x in ledger :: f(x) == g(x)
    ensures Moves(ledger, f) <==> Moves(ledger, g)
  {
  }

  lemma {:induction false} SpanMoves(s: State, es: seq<Event>, e: Event)
    requires e.CodexSpan? && Told(s, es) && Invariant(s)
    ensures Step(s, e).state.ledger == Relabel(s.ledger, Following(es, e))
    ensures Step(s, e).hit <==> Moves(s.ledger, Following(es, e))
  {
    hide Conversation, LastReport, Mover, Moves, Good, Merged, After, FirstSource;
    LastReportMore(es, e);
    if e.effort == "" {
      NothingMoves(s.ledger, es, e);
    } else if e.cid != "" {
      var session := SpannedSession(s, e.cid, e.model, e.effort);
      SpanMerges(s, es, e);
      MergedIsGood(s, session);
      forall x | x in s.ledger ensures Mover(Merged(s, session))(x) == After(es, e, x) {
        ResolvesAs(s, es, e, Merged(s, session), x);
      }
      MovesAlike(s.ledger, Mover(Merged(s, session)), Following(es, e));
    } else {
      LastEffortMoves(s, es, e);
    }
  }

  lemma {:induction false} LastEffortMoves(s: State, es: seq<Event>, e: Event)
    requires e.CodexSpan? && e.effort != "" && e.cid == "" && Told(s, es) && Invariant(s)
    ensures Step(s, e).state.ledger == Relabel(s.ledger, Following(es, e))
    ensures Step(s, e).hit <==> Moves(s.ledger, Following(es, e))
  {
    hide Conversation, LastReport, Mover, Moves, Good, After, FirstSource;
    LastReportMore(es, e);
    var last := LastSession(s, e.service);
    assert Get(s.lastSessions, e.service) == LastReport(es, e.service);
    if last.effort != e.effort && last.cid == "" {
      forall x | x in s.ledger ensures Mover(last.(effort := e.effort))(x) == After(es, e, x) {
        SettlesAs(s, es, e, last.(effort := e.effort), x);
      }
      MovesAlike(s.ledger, Mover(last.(effort := e.effort)), Following(es, e));
    } else {
      NothingMoves(s.ledger, es, e);
    }
  }

  // Every run

  function Codexes(s: State): seq<Entry> {
    Filter(s.ledger, OfAgent(Codex))
  }

  lemma {:induction false} NowMore(es: seq<Event>, e: Event, k: nat)
    requires k < |es| && IsSample(es[k])
    ensures Now(es + [e], k) == After(es, e, Now(es, k))
  {
    hide After, Arriving;
    FrontIs(es, e);
  }

  lemma {:induction false} EntriesMore(es: seq<Event>, e: Event, n: nat)
    requires n <= |es|
    ensures CodexEntries(es + [e], n) == Relabel(CodexEntries(es, n), Following(es, e))
  {
    hide IsCounted, Now, After;
    if n > 0 {
      EntriesMore(es, e, n - 1);
      assert (es + [e])[..n - 1] == es[..n - 1] && (es + [e])[n - 1] == es[n - 1];
      if IsSample(es[n - 1]) {
        NowMore(es, e, n - 1);
      }
    }
  }

  /** What the newest event adds to what was counted before. */
  lemma {:induction false} EntriesAre(es: seq<Event>, e: Event)
    ensures CodexEntries(es + [e], |es| + 1) ==
            Relabel(CodexEntries(es, |es|), Following(es, e))
            + if IsSample(e) && IsCounted(es, e) then [Arriving(es, e)] else []
  {
    hide IsCounted, After, Arriving;
    EntriesMore(es, e, |es|);
    assert (es + [e])[..|es|] == es && (es + [e])[|es|] == e;
  }

  lemma {:induction false} NoReportMoves(ledger: seq<Entry>, es: seq<Event>, e: Event)
    requires !e.CodexStart? && !e.CodexSpan?
    ensures Relabel(ledger, Following(es, e)) == ledger
  {
    hide Conversation, LastReport;
  }

  lemma {:induction false} ReportIs(es: seq<Event>, e: Event)
    requires (e.CodexStart? || e.CodexSpan?) && Codexes(Run(es)) == CodexEntries(es, |es|)
    ensures Codexes(Step(Run(es), e).state) == CodexEntries(es + [e], |es| + 1)
  {
    hide Run, Step, Told, Good, GoodTables, Relabel, Filter, CodexEntries;
    RunTold(es);
    RunKeeps(es);
    EntriesAre(es, e);
    if e.CodexStart? {
      StartMoves(Run(es), es, e);
    } else {
      SpanMoves(Run(es), es, e);
    }
    CodexesFollow(Run(es).ledger, es, e);
  }

  lemma {:induction false} CodexesFollow(ledger: seq<Entry>, es: seq<Event>, e: Event)
    ensures Filter(Relabel(ledger, Following(es, e)), OfAgent(Codex)) ==
            Relabel(Filter(ledger, OfAgent(Codex)), Following(es, e))
  {
    hide Conversation, LastReport, OldReport;
    FilterRelabel(ledger, Following(es, e), OfAgent(Codex));
  }

  lemma {:induction false} SampleIs(es: seq<Event>, e: Event)
    requires IsSample(e) && Codexes(Run(es)) == CodexEntries(es, |es|)
    ensures Codexes(Step(Run(es), e).state) == CodexEntries(es + [e], |es| + 1)
  {
    hide Run, Step, Told, Relabel, CodexEntries, IsCounted, After;
    RunTold(es);
    EntriesAre(es, e);
    SampleAdds(Run(es), es, e);
    NoReportMoves(CodexEntries(es, |es|), es, e);
    FilterAppend(Run(es).ledger, Arriving(es, e), OfAgent(Codex));
  }

  lemma {:induction false} LogLeavesCodexes(s: State, model: string, effort: string, duration: nat, usage: Stats)
    ensures Filter(StepClaudeLog(s, model, effort, duration, usage).ledger, OfAgent(Codex)) == Codexes(s)
  {
    hide CanonicalModel, UsageKey, LogUsage, RequestSample, Filter, FromParts;
    var bucket := FromParts(ANTHROPIC, CanonicalModel(s, model), effort);
    var key := UsageKey(bucket.model, bucket.effort);
    var request := Entry(bucket, RequestSample(duration), ClaudeRequest);
    var log := Entry(bucket, LogUsage(usage), ClaudeLogUsage);
    FilterAppend(s.ledger, request, OfAgent(Codex));
    FilterFilter(s.ledger + [request], IsNotMetricOf(key), OfAgent(Codex));
    FilterAppend(s.ledger + [request], log, OfAgent(Codex));
    FilterAppend(Filter(s.ledger + [request], IsNotMetricOf(key)), log, OfAgent(Codex));
  }

  lemma {:induction false} MetricLeavesCodexes(s: State, model: string, effort: string, kind: ClaudePoint, value: nat)
    ensures Filter(StepClaudeMetric(s, model, effort, kind, value).state.ledger, OfAgent(Codex)) == Codexes(s)
  {
    hide UsageKey, ClaudeSample, RegisteredNames, Folds, Filter, Relabel;
    var full := NonEmpty(model);
    FilterSame(s.ledger, Promote(Bare(full), full), OfAgent(Codex));
    FilterAppend(Register(s, full).ledger,
                 Entry(FromParts(ANTHROPIC, full, effort), ClaudeSample(kind, value), ClaudeMetricUsage),
                 OfAgent(Codex));
  }

  lemma {:induction false} ClaudeLeavesCodexes(s: State, e: Event)
    requires e.ClaudeLog? || e.ClaudeMetric?
    ensures Codexes(Step(s, e).state) == Codexes(s)
  {
    hide StepClaudeLog, StepClaudeMetric, Filter;
    match e
    case ClaudeLog(model, effort, duration, usage) => LogLeavesCodexes(s, model, effort, duration, usage);
    case ClaudeMetric(model, effort, kind, value) => MetricLeavesCodexes(s, model, effort, kind, value);
  }

  /** After every run, the Codex part of the ledger is, entry by entry and in order, what the history
      says: the completions with usage and the turn metrics with a value, tokens only from whichever
      source a model's tokens came from first, each placed by the reports before it and moved by the
      reports after it. */
  lemma {:induction false} CodexLedgerIs(es: seq<Event>)
    ensures Filter(Run(es).ledger, OfAgent(Codex)) == CodexEntries(es, |es|)
  {
    if es != [] {
      var before, e := es[..|es| - 1], es[|es| - 1];
      assert es == before + [e];
      CodexLedgerIs(before);
      if e.CodexStart? || e.CodexSpan? {
        ReportIs(before, e);
      } else if IsSample(e) {
        SampleIs(before, e);
      } else {
        ClaudeLeavesCodexes(Run(before), e);
        EntriesAre(before, e);
        NoReportMoves(CodexEntries(before, |before|), before, e);
      }
    }
  }

  // Turn metrics

  predicate IsReportOf(e: Event, service: string) {
    (e.CodexStart? || e.CodexSpan?) && e.service == service
  }

  predicate IsTurnMetricOf(e: Event, service: string) {
    (e.CodexTokens? || e.CodexTurns? || e.CodexDuration?) && e.service == service
  }

  lemma {:induction false} StartIsLastReport(front: seq<Event>, start: Event, rest: seq<Event>)
    requires start.CodexStart? && start.provider != "" && start.effort != ""
    requires forall e | e in rest :: !IsReportOf(e, start.service)
    ensures var last := LastReport(front + [start] + rest, start.service);
            last.Some? && last.value.provider == start.provider && last.value.effort == start.effort
    decreases |rest|
  {
    hide Conversation, LastReport;
    if rest == [] {
      assert front + [start] + [] == front + [start];
      LastReportMore(front, start);
      if start.cid != "" {
        StartSays(front, start, start.cid);
      }
    } else {
      var before, e := rest[..|rest| - 1], rest[|rest| - 1];
      assert front + [start] + rest == (front + [start] + before) + [e] && e in rest;
      StartIsLastReport(front, start, before);
      LastReportMore(front + [start] + before, e);
    }
  }

  /** Whatever came before it, a start that names provider and effort decides where the turn metrics of
      its service stand, until the service's next start or span. */
  lemma {:induction false} TurnMetricsFollowStart(front: seq<Event>, start: Event, rest: seq<Event>, e: Event)
    requires start.CodexStart? && start.provider != "" && start.effort != ""
    requires forall x | x in rest :: !IsReportOf(x, start.service)
    requires IsTurnMetricOf(e, start.service)
    ensures var s := Run(front + [start] + rest);
            var o := Step(s, e);
            if o.hit then
              && |o.state.ledger| == |s.ledger| + 1 && o.state.ledger[..|s.ledger|] == s.ledger
              && o.state.ledger[|s.ledger|].bucket ==
                 Bucket(start.provider, if e.model == "" then "unknown" else e.model, start.effort)
            else o.state.ledger == s.ledger
  {
    var es := front + [start] + rest;
    hide Run, Step, Told, LastReport, IsCounted;
    StartIsLastReport(front, start, rest);
    RunTold(es);
    SampleAdds(Run(es), es, e);
  }
}
