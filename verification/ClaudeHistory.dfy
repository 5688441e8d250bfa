/** The Claude part of the ledger told from the events alone: under which name each log and each
    metric sample stands, and which samples are counted. */
module ClaudeHistory {
  import opened Basics
  import opened UsageStats
  import opened BucketKeys
  import opened UsageLedger
  import opened LedgerSums
  import opened LedgerInvariants
  import opened ClaudeAccounting

  // Names

  /** The names under which metrics arrived, in order. */
  function Names(es: seq<Event>): seq<string> {
    if es == [] then []
    else
      var front, last := Names(es[..|es| - 1]), es[|es| - 1];
      if last.ClaudeMetric? then front + [if last.model == "" then "unknown" else last.model] else front
  }

  /** The latest longer name whose part before the first `[` is `bare`. */
  function LastVariant(names: seq<string>, bare: string): Option<string> {
    if names == [] then None
    else
      var last := names[|names| - 1];
      if last != bare && Bare(last) == bare then Some(last) else LastVariant(names[..|names| - 1], bare)
  }

  /** The name a log's model is read as, given the names metrics used before: a name that metrics use
      is itself; otherwise the latest variant of it, if there is one. */
  function ReadAs(names: seq<string>, raw: string): string {
    if raw == "" || raw in names || LastVariant(names, raw) == None then raw else LastVariant(names, raw).value
  }

  /** What becomes of the usage under `name` when a metric arrives: it goes to a new variant of the name,
      unless metrics use the name itself. */
  function Renamed(names: seq<string>, e: Event, name: string): string {
    if e.ClaudeMetric? && e.model != name && Bare(e.model) == name && name != "" && name !in names
       && LastVariant(names, name) != Some(e.model)
    then e.model else name
  }

  /** The name under which something counted at position `k` as `name` stands at the end. */
  function StandsUnder(es: seq<Event>, k: nat, name: string): string
    requires k < |es|
  {
    if |es| == k + 1 then name
    else Renamed(Names(es[..|es| - 1]), es[|es| - 1], StandsUnder(es[..|es| - 1], k, name))
  }

  // Entries

  function RequestStats(duration: nat): Stats {
    Stats(1, 0, 0, 0, 0, 0, 0, duration)
  }

  function LoggedStats(u: Stats): Stats {
    Stats(0, u.input, u.output, u.cacheRead, u.cacheCreation, 0, u.cost, 0)
  }

  function PointStats(kind: ClaudePoint, value: nat): Stats {
    Stats(0,
          if kind == TokenInput then value else 0,
          if kind == TokenOutput then value else 0,
          if kind == TokenCacheRead then value else 0,
          if kind == TokenCacheCreation then value else 0,
          0,
          if kind == Cost then value else 0,
          0)
  }

  predicate CarriesUsage(u: Stats) {
    u.input > 0 || u.output > 0 || u.cacheRead > 0 || u.cacheCreation > 0 || u.cost > 0
  }

  /** What the log at position `k` is counted as at the end. */
  function OfLog(es: seq<Event>, k: nat): seq<Entry>
    requires k < |es| && es[k].ClaudeLog?
  {
    var e := es[k];
    var b := Bucket("anthropic", StandsUnder(es, k, NonEmpty(ReadAs(Names(es[..k]), e.model))), NonEmpty(e.effort));
    if CarriesUsage(e.usage)
    then [Entry(b, RequestStats(e.duration), ClaudeRequest), Entry(b, LoggedStats(e.usage), ClaudeLogUsage)]
    else [Entry(b, RequestStats(e.duration), ClaudeRequest)]
  }

  /** What a metric point is counted as: nothing without a value, or when a log of its key, before or
      after it, carries usage. */
  function OfPoint(e: Event, logged: set<SourceKey>): seq<Entry>
    requires e.ClaudeMetric?
  {
    if e.value == 0 || e.kind == OtherClaudePoint || UsageKey(e.model, e.effort) in logged then []
    else [Entry(Bucket("anthropic", NonEmpty(e.model), NonEmpty(e.effort)), PointStats(e.kind, e.value),
                ClaudeMetricUsage)]
  }

  function Left(es: seq<Event>, k: nat, logged: set<SourceKey>): seq<Entry>
    requires k < |es|
  {
    if es[k].ClaudeLog? then OfLog(es, k) else if es[k].ClaudeMetric? then OfPoint(es[k], logged) else []
  }

  /** What the first `n` events are counted as at the end. */
  function ClaudeEntries(es: seq<Event>, n: nat, logged: set<SourceKey>): seq<Entry>
    requires n <= |es|
  {
    if n == 0 then [] else ClaudeEntries(es, n - 1, logged) + Left(es, n - 1, logged)
  }

  // The tables hold what the names say

  lemma {:induction false} NamesMore(es: seq<Event>, e: Event)
    ensures Names(es + [e]) == if e.ClaudeMetric? then Names(es) + [NonEmpty(e.model)] else Names(es)
  {
    assert (es + [e])[..|es|] == es;
  }

  ghost predicate Tabled(s: State, names: seq<string>) {
    && (forall n :: n in s.metricModels <==> n in names)
    && (forall n | n != "" && n !in names :: Get(s.canonicalModels, n) == LastVariant(names, n))
  }

  lemma {:induction false} RegisterTabled(s: State, names: seq<string>, full: string)
    requires Tabled(s, names) && full != ""
    ensures Tabled(Register(s, full), names + [full])
  {
    var more := names + [full];
    assert more[..|names|] == names;
    hide Bare;
    forall n | n != "" && n !in more
      ensures Get(RegisteredNames(s, full), n) == LastVariant(more, n) {
      assert n != full;
    }
  }

  lemma {:induction false} SameNames(s: State, e: Event)
    requires !e.ClaudeMetric?
    ensures var s' := Step(s, e).state; s'.metricModels == s.metricModels && s'.canonicalModels == s.canonicalModels
  {
    hide StepSse, StepTokens, StepTurnSample, Merged, Mover, Moves, Relabel, Filter, CanonicalModel, UsageKey;
    if IsSample(e) {
      SampleStep(s, e);
    }
  }

  lemma {:induction false} StepTabled(s: State, names: seq<string>, e: Event)
    requires Tabled(s, names)
    ensures Tabled(Step(s, e).state, if e.ClaudeMetric? then names + [NonEmpty(e.model)] else names)
  {
    hide LastVariant, Register, UsageKey, ClaudeSample;
    if e.ClaudeMetric? {
      RegisterTabled(s, names, NonEmpty(e.model));
    } else {
      SameNames(s, e);
    }
  }

  lemma {:induction false} RunTabled(es: seq<Event>)
    ensures Tabled(Run(es), Names(es))
  {
    if es != [] {
      RunTabled(es[..|es| - 1]);
      StepTabled(Run(es[..|es| - 1]), Names(es[..|es| - 1]), es[|es| - 1]);
    }
  }

  lemma {:induction false} VariantIsLonger(names: seq<string>, bare: string)
    ensures var v := LastVariant(names, bare);
            v.Some? ==> v.value in names && v.value != bare && Bare(v.value) == bare && '[' in v.value
  {
    if names != [] {
      var last := names[|names| - 1];
      if last != bare && Bare(last) == bare {
        if '[' !in last {
          BareWithout(last);
        }
      } else {
        VariantIsLonger(names[..|names| - 1], bare);
      }
    }
  }

  /** The table gives every log the name its history asks for. */
  lemma {:induction false} CanonicalIs(es: seq<Event>, raw: string)
    ensures CanonicalModel(Run(es), raw) == ReadAs(Names(es), raw)
  {
    RunTabled(es);
    RunKeeps(es);
    NamesNonEmpty(es);
    hide Run, Names, LastVariant, Bare, Good, GoodLedger;
  }

  lemma {:induction false} NamesNonEmpty(es: seq<Event>)
    ensures "" !in Names(es)
  {
    if es != [] {
      NamesNonEmpty(es[..|es| - 1]);
    }
  }

  // One event more

  lemma {:induction false} FilterConcat(es: seq<Entry>, fs: seq<Entry>, p: Entry -> bool)
    ensures Filter(es + fs, p) == Filter(es, p) + Filter(fs, p)
  {
    hide Filter;
    if fs == [] {
      assert es + fs == es;
      FilterOfNone(p);
    } else {
      var front, last := fs[..|fs| - 1], fs[|fs| - 1];
      FilterConcat(es, front, p);
      assert es + fs == (es + front) + [last] && fs == front + [last];
      FilterAppend(es + front, last, p);
      FilterAppend(front, last, p);
    }
  }

  lemma {:induction false} FilterOfNone(p: Entry -> bool)
    ensures Filter([], p) == []
  {
  }

  lemma {:induction false} RelabelConcat(es: seq<Entry>, fs: seq<Entry>, f: Entry -> Entry)
    ensures Relabel(es + fs, f) == Relabel(es, f) + Relabel(fs, f)
  {
  }

  lemma {:induction false} RelabelNothing(f: Entry -> Entry)
    ensures Relabel([], f) == []
  {
  }

  lemma {:induction false} FilterCommutes(es: seq<Entry>, p: Entry -> bool, q: Entry -> bool)
    ensures Filter(Filter(es, p), q) == Filter(Filter(es, q), p)
  {
    if es != [] {
      var front, last := es[..|es| - 1], es[|es| - 1];
      FilterCommutes(front, p, q);
      FilterAppend(Filter(front, p), last, q);
      FilterAppend(Filter(front, q), last, p);
    }
  }

  /** How a metric renames what is counted already. */
  function Renaming(names: seq<string>, e: Event): Entry -> Entry {
    (x: Entry) => if x.Agent() == Claude then x.(bucket := x.bucket.(model := Renamed(names, e, x.bucket.model))) else x
  }

  lemma {:induction false} RegisterRenames(s: State, names: seq<string>, e: Event)
    requires Tabled(s, names) && e.ClaudeMetric?
    ensures Register(s, NonEmpty(e.model)).ledger == Relabel(s.ledger, Renaming(names, e))
  {
    var full := NonEmpty(e.model);
    var f := Renaming(names, e);
    BareWithout(UNKNOWN);
    if Folds(s, full) {
      forall x ensures Promote(Bare(full), full)(x) == f(x) {
      }
    } else {
      assert forall x :: f(x) == x;
    }
  }

  lemma {:induction false} NamesBefore(es: seq<Event>, k: nat)
    requires k < |es| && es[k].ClaudeMetric?
    ensures NonEmpty(es[k].model) in Names(es)
  {
    if k < |es| - 1 {
      NamesBefore(es[..|es| - 1], k);
    }
  }

  lemma {:induction false} StandsMore(es: seq<Event>, e: Event, k: nat, name: string)
    requires k < |es|
    ensures StandsUnder(es + [e], k, name) == Renamed(Names(es), e, StandsUnder(es, k, name))
  {
    assert (es + [e])[..|es|] == es;
  }

  lemma {:induction false} LeftRenamed(es: seq<Event>, e: Event, k: nat, logged: set<SourceKey>)
    requires k < |es| && e.ClaudeMetric?
    ensures Left(es + [e], k, logged) == Relabel(Left(es, k, logged), Renaming(Names(es), e))
  {
    var all := es + [e];
    assert all[..k] == es[..k] && all[k] == es[k];
    if es[k].ClaudeLog? {
      StandsMore(es, e, k, NonEmpty(ReadAs(Names(es[..k]), es[k].model)));
    } else if es[k].ClaudeMetric? {
      NamesBefore(es, k);
      hide Names;
    }
  }

  /** A log takes out the metric samples of its key, if it carries usage, and renames nothing. */
  lemma {:induction false} LeftUnlessLogged(es: seq<Event>, e: Event, k: nat, logged: set<SourceKey>, key: SourceKey)
    requires k < |es| && !e.ClaudeMetric?
    ensures Left(es + [e], k, logged) == Left(es, k, logged)
    ensures Left(es, k, logged + {key}) == Filter(Left(es, k, logged), IsNotMetricOf(key))
  {
    var all := es + [e];
    assert all[..k] == es[..k] && all[k] == es[k];
    if es[k].ClaudeLog? {
      StandsMore(es, e, k, NonEmpty(ReadAs(Names(es[..k]), es[k].model)));
      FilterNothing(Left(es, k, logged), IsNotMetricOf(key));
    } else if es[k].ClaudeMetric? {
      KeyOfNonEmpty(es[k].model, es[k].effort);
      hide UsageKey, PointStats;
    }
  }

  lemma {:induction false} EntriesRenamed(es: seq<Event>, e: Event, n: nat, logged: set<SourceKey>)
    requires n <= |es| && e.ClaudeMetric?
    ensures ClaudeEntries(es + [e], n, logged) == Relabel(ClaudeEntries(es, n, logged), Renaming(Names(es), e))
  {
    hide Left, Renaming, Relabel, Names;
    var f := Renaming(Names(es), e);
    if n > 0 {
      EntriesRenamed(es, e, n - 1, logged);
      LeftRenamed(es, e, n - 1, logged);
      RelabelConcat(ClaudeEntries(es, n - 1, logged), Left(es, n - 1, logged), f);
    } else {
      RelabelNothing(f);
    }
  }

  lemma {:induction false} EntriesUnlessLogged(es: seq<Event>, e: Event, n: nat, logged: set<SourceKey>, key: SourceKey)
    requires n <= |es| && !e.ClaudeMetric?
    ensures ClaudeEntries(es + [e], n, logged) == ClaudeEntries(es, n, logged)
    ensures ClaudeEntries(es, n, logged + {key}) == Filter(ClaudeEntries(es, n, logged), IsNotMetricOf(key))
  {
    hide Left, UsageKey, IsNotMetricOf;
    if n > 0 {
      EntriesUnlessLogged(es, e, n - 1, logged, key);
      LeftUnlessLogged(es, e, n - 1, logged, key);
      FilterConcat(ClaudeEntries(es, n - 1, logged), Left(es, n - 1, logged), IsNotMetricOf(key));
    }
  }

  // Every run

  function Claudes(s: State): seq<Entry> {
    Filter(s.ledger, OfAgent(Claude))
  }

  lemma {:induction false} SamplesAre(usage: Stats, duration: nat, kind: ClaudePoint, value: nat)
    ensures RequestSample(duration) == RequestStats(duration)
    ensures LogUsage(usage) == LoggedStats(usage) && (LogUsage(usage).HasUsage() <==> CarriesUsage(usage))
    ensures ClaudeSample(kind, value) == PointStats(kind, value)
    ensures ClaudeSample(kind, value).HasUsage() <==> value != 0 && kind != OtherClaudePoint
  {
  }

  lemma {:induction false} ClaudesMore(es: seq<Entry>, e: Entry)
    requires e.Agent() == Claude
    ensures Filter(es + [e], OfAgent(Claude)) == Filter(es, OfAgent(Claude)) + [e]
  {
    FilterAppend(es, e, OfAgent(Claude));
  }

  /** Taking out a key's metric samples, on a ledger with a request added and the usage added behind. */
  lemma {:induction false} ClaudesLogged(es: seq<Entry>, request: Entry, log: Entry, key: SourceKey)
    requires request.tag == ClaudeRequest && log.tag == ClaudeLogUsage
    ensures Filter(Filter(es + [request], IsNotMetricOf(key)) + [log], OfAgent(Claude)) ==
            Filter(Filter(es, OfAgent(Claude)), IsNotMetricOf(key)) + [request, log]
  {
    hide Filter;
    assert IsNotMetricOf(key)(request);
    ClaudesMore(es, request);
    FilterCommutes(es + [request], IsNotMetricOf(key), OfAgent(Claude));
    ClaudesMore(Filter(es + [request], IsNotMetricOf(key)), log);
    FilterAppend(Filter(es, OfAgent(Claude)), request, IsNotMetricOf(key));
  }

  /** What a log adds, written with the names and numbers of the history. */
  lemma {:induction false} LogLeaves(es: seq<Event>, e: Event, logged: set<SourceKey>)
    requires e.ClaudeLog?
    ensures var bucket := FromParts(ANTHROPIC, CanonicalModel(Run(es), e.model), e.effort);
            var request := Entry(bucket, RequestSample(e.duration), ClaudeRequest);
            var log := Entry(bucket, LogUsage(e.usage), ClaudeLogUsage);
            Left(es + [e], |es|, logged) == if LogUsage(e.usage).HasUsage() then [request, log] else [request]
  {
    hide CanonicalModel, ReadAs, Names, Run, LogUsage, RequestSample, LoggedStats, RequestStats, CarriesUsage;
    assert (es + [e])[..|es|] == es;
    CanonicalIs(es, e.model);
    SamplesAre(e.usage, e.duration, Cost, 0);
  }

  lemma {:induction false} LogIs(es: seq<Event>, e: Event)
    requires e.ClaudeLog? && Claudes(Run(es)) == ClaudeEntries(es, |es|, Logged(es))
    ensures Claudes(Step(Run(es), e).state) == ClaudeEntries(es + [e], |es| + 1, Logged(es + [e]))
  {
    hide Run, Left, CanonicalModel, UsageKey, LogUsage, RequestSample, Logged, FromParts;
    var s, key := Run(es), UsageKey(e.model, e.effort);
    var bucket := FromParts(ANTHROPIC, CanonicalModel(s, e.model), e.effort);
    var request := Entry(bucket, RequestSample(e.duration), ClaudeRequest);
    var log := Entry(bucket, LogUsage(e.usage), ClaudeLogUsage);
    RunKeeps(es);
    LogBucketKey(s, e.model, e.effort);
    LoggedAppend(es, e);
    LogLeaves(es, e, Logged(es + [e]));
    EntriesUnlessLogged(es, e, |es|, Logged(es), key);
    EntriesUnlessLogged(es, e, |es|, Logged(es) + {key}, key);
    if LogUsage(e.usage).HasUsage() {
      LogLedger(s, e.model, e.effort, e.duration, e.usage);
      ClaudesLogged(s.ledger, request, log, key);
    } else {
      ClaudesMore(s.ledger, request);
      assert Logged(es) + {} == Logged(es);
    }
  }

  lemma {:induction false} PointLeaves(es: seq<Event>, e: Event)
    requires e.ClaudeMetric?
    ensures var s := Register(Run(es), NonEmpty(e.model));
            Left(es + [e], |es|, Logged(es)) ==
            if ClaudeSample(e.kind, e.value).HasUsage()
               && Get(s.claudeSources, UsageKey(NonEmpty(e.model), NonEmpty(e.effort))) != Some(ClaudeLogs)
            then [Entry(FromParts(ANTHROPIC, NonEmpty(e.model), e.effort), ClaudeSample(e.kind, e.value),
                        ClaudeMetricUsage)]
            else []
  {
    hide ClaudeSample, PointStats, UsageKey, Logged, Run, Contributions, Keep, AllOffered;
    Refinement(es);
    SamplesAre(Zero(), 0, e.kind, e.value);
    KeyOfNonEmpty(e.model, e.effort);
  }

  lemma {:induction false} ClaudesRenamed(es: seq<Entry>, names: seq<string>, e: Event)
    ensures Filter(Relabel(es, Renaming(names, e)), OfAgent(Claude)) ==
            Relabel(Filter(es, OfAgent(Claude)), Renaming(names, e))
  {
    FilterRelabel(es, Renaming(names, e), OfAgent(Claude));
  }

  lemma {:induction false} PointIs(es: seq<Event>, e: Event)
    requires e.ClaudeMetric? && Claudes(Run(es)) == ClaudeEntries(es, |es|, Logged(es))
    ensures Claudes(Step(Run(es), e).state) == ClaudeEntries(es + [e], |es| + 1, Logged(es + [e]))
  {
    hide Run, Left, UsageKey, Logged, Register, Renaming, ClaudeSample, Filter, Tabled, Names;
    var s, g := Run(es), Renaming(Names(es), e);
    var s1 := Register(s, NonEmpty(e.model));
    var sample := Entry(FromParts(ANTHROPIC, NonEmpty(e.model), e.effort), ClaudeSample(e.kind, e.value),
                        ClaudeMetricUsage);
    RunTabled(es);
    RegisterRenames(s, Names(es), e);
    ClaudesRenamed(s.ledger, Names(es), e);
    EntriesRenamed(es, e, |es|, Logged(es));
    LoggedAppend(es, e);
    assert Logged(es) + {} == Logged(es);
    PointLeaves(es, e);
    ClaudesMore(s1.ledger, sample);
  }

  lemma {:induction false} MoverLeavesClaudes(es: seq<Entry>, session: Session)
    ensures Filter(Relabel(es, Mover(session)), OfAgent(Claude)) == Filter(es, OfAgent(Claude))
  {
    FilterSame(es, Mover(session), OfAgent(Claude));
  }

  lemma {:induction false} CodexLeavesClaudes(s: State, e: Event)
    requires !e.ClaudeLog? && !e.ClaudeMetric?
    ensures Claudes(Step(s, e).state) == Claudes(s)
  {
    match e
    case CodexStart(service, cid, provider, model, effort) =>
      MoverLeavesClaudes(s.ledger, Merged(s, StartedSession(cid, provider, model, effort)));
    case CodexSpan(service, cid, model, effort) =>
      MoverLeavesClaudes(s.ledger, LastSession(s, service).(effort := effort));
      MoverLeavesClaudes(s.ledger, Merged(s, SpannedSession(s, cid, model, effort)));
    case _ => SampleLeavesClaudes(s, e);
  }

  lemma {:induction false} SampleLeavesClaudes(s: State, e: Event)
    requires IsSample(e)
    ensures Claudes(Step(s, e).state) == Claudes(s)
  {
    hide StepSse, StepTokens, StepTurnSample;
    SampleStep(s, e);
    if Step(s, e).hit {
      FilterAppend(s.ledger, Step(s, e).state.ledger[|s.ledger|], OfAgent(Claude));
    }
  }

  /** After every run, the Claude part of the ledger is, entry by entry and in order, what the history
      says: each log's request, and its usage if it carries any, under the name metrics had given the
      model when it arrived or gave it later; and each metric point with a value under its own name,
      unless some log of its key carries usage. */
  lemma {:induction false} ClaudeLedgerIs(es: seq<Event>)
    ensures Filter(Run(es).ledger, OfAgent(Claude)) == ClaudeEntries(es, |es|, Logged(es))
  {
    if es != [] {
      var before, e := es[..|es| - 1], es[|es| - 1];
      assert es == before + [e];
      ClaudeLedgerIs(before);
      if e.ClaudeLog? {
        LogIs(before, e);
      } else if e.ClaudeMetric? {
        PointIs(before, e);
      } else {
        OtherIs(before, e);
      }
    }
  }

  lemma {:induction false} NothingLeft(es: seq<Event>, e: Event)
    requires !e.ClaudeLog? && !e.ClaudeMetric?
    ensures Left(es + [e], |es|, Logged(es)) == []
  {
  }

  lemma {:induction false} OtherIs(es: seq<Event>, e: Event)
    requires !e.ClaudeLog? && !e.ClaudeMetric? && Claudes(Run(es)) == ClaudeEntries(es, |es|, Logged(es))
    ensures Claudes(Step(Run(es), e).state) == ClaudeEntries(es + [e], |es| + 1, Logged(es + [e]))
  {
    hide Run, Step, Logged, Claudes, UsageKey, Left;
    CodexLeavesClaudes(Run(es), e);
    EntriesUnlessLogged(es, e, |es|, Logged(es), UsageKey("", ""));
    LoggedAppend(es, e);
    assert Logged(es) + {} == Logged(es);
    NothingLeft(es, e);
  }

  /** Whether a metric point is covered by a log: some log with usage has the same effort and, up to the
      first `[`, the same name, a missing one being `unknown`. */
  lemma {:induction false} CoveredIff(es: seq<Event>, e: Event)
    requires e.ClaudeMetric?
    ensures UsageKey(e.model, e.effort) in Logged(es) <==>
              exists l :: l in es && l.ClaudeLog? && CarriesUsage(l.usage)
                          && NonEmpty(Bare(l.model)) == NonEmpty(Bare(e.model))
                          && NonEmpty(l.effort) == NonEmpty(e.effort)
  {
    hide Bare;
    forall l: Event | l.ClaudeLog? ensures LogUsage(l.usage).HasUsage() <==> CarriesUsage(l.usage) {
      SamplesAre(l.usage, l.duration, Cost, 0);
    }
  }

  // Bare names

  /** Metrics have named a variant of `bare`, and never the bare name itself. */
  ghost predicate OnlyVariants(es: seq<Event>, bare: string) {
    && (exists e :: e in es && e.ClaudeMetric? && Bare(e.model) == bare && e.model != bare)
    && (forall e | e in es && e.ClaudeMetric? :: e.model != bare)
  }

  predicate OnlyLonger(names: seq<string>, bare: string) {
    bare !in names && LastVariant(names, bare).Some?
  }

  lemma {:induction false} NameIn(es: seq<Event>, name: string)
    requires name != "" && name != UNKNOWN
    ensures name in Names(es) <==> exists e :: e in es && e.ClaudeMetric? && e.model == name
  {
    if es != [] {
      var before, last := es[..|es| - 1], es[|es| - 1];
      NameIn(before, name);
      assert forall e :: e in es <==> e in before || e == last;
    }
  }

  lemma {:induction false} VariantIn(es: seq<Event>, bare: string)
    requires bare != UNKNOWN
    ensures LastVariant(Names(es), bare).Some? <==>
              exists e :: e in es && e.ClaudeMetric? && Bare(NonEmpty(e.model)) == bare && NonEmpty(e.model) != bare
  {
    hide Bare;
    if es != [] {
      var before, last := es[..|es| - 1], es[|es| - 1];
      VariantIn(before, bare);
      assert forall e :: e in es <==> e in before || e == last;
      assert last.ClaudeMetric? ==> Names(es)[..|Names(before)|] == Names(before);
    }
  }

  lemma {:induction false} BareOfUnnamed(model: string, bare: string)
    requires bare != "" && bare != UNKNOWN
    ensures Bare(NonEmpty(model)) == bare <==> Bare(model) == bare
    ensures NonEmpty(model) == bare <==> model == bare
  {
    BareWithout(UNKNOWN);
  }

  lemma {:induction false} NamesAre(es: seq<Event>, bare: string)
    requires bare != "" && bare != UNKNOWN && OnlyVariants(es, bare)
    ensures OnlyLonger(Names(es), bare)
  {
    NameIn(es, bare);
    VariantIn(es, bare);
    forall e: Event | e.ClaudeMetric?
      ensures Bare(NonEmpty(e.model)) == bare <==> Bare(e.model) == bare
      ensures NonEmpty(e.model) == bare <==> e.model == bare {
      BareOfUnnamed(e.model, bare);
    }
    hide Bare, NonEmpty, Names, LastVariant;
  }

  predicate NoneUnder(ledger: seq<Entry>, bare: string) {
    forall x | x in ledger && x.Agent() == Claude :: x.bucket.model != bare
  }

  lemma {:induction false} ReadNotBare(names: seq<string>, raw: string, bare: string)
    requires bare != "" && bare != UNKNOWN && '[' !in bare && OnlyLonger(names, bare)
    ensures NonEmpty(ReadAs(names, raw)) != bare
  {
    VariantIsLonger(names, raw);
  }

  lemma {:induction false} LogNotBare(es: seq<Event>, e: Event, bare: string)
    requires e.ClaudeLog? && bare != "" && bare != UNKNOWN && '[' !in bare && OnlyLonger(Names(es), bare)
    requires NoneUnder(Run(es).ledger, bare)
    ensures NoneUnder(Step(Run(es), e).state.ledger, bare)
  {
    hide Run, CanonicalModel, ReadAs, Names, OnlyLonger, UsageKey, LogUsage, RequestSample;
    CanonicalIs(es, e.model);
    ReadNotBare(Names(es), e.model, bare);
  }

  lemma {:induction false} RenamedNotBare(names: seq<string>, e: Event, name: string, bare: string)
    requires e.ClaudeMetric? && bare != "" && bare != UNKNOWN && OnlyLonger(names + [NonEmpty(e.model)], bare)
    requires OnlyLonger(names, bare) ==> name != bare
    ensures Renamed(names, e, name) != bare
  {
    hide Bare;
    assert (names + [NonEmpty(e.model)])[..|names|] == names;
    BareOfUnnamed(e.model, bare);
  }

  lemma {:induction false} FoldedNotBare(ledger: seq<Entry>, names: seq<string>, e: Event, bare: string)
    requires e.ClaudeMetric? && bare != "" && bare != UNKNOWN && OnlyLonger(names + [NonEmpty(e.model)], bare)
    requires OnlyLonger(names, bare) ==> NoneUnder(ledger, bare)
    ensures NoneUnder(Relabel(ledger, Renaming(names, e)), bare)
  {
    hide OnlyLonger, Renamed, NonEmpty;
    forall x | x in Relabel(ledger, Renaming(names, e)) && x.Agent() == Claude ensures x.bucket.model != bare {
      var i :| 0 <= i < |ledger| && x == Renaming(names, e)(ledger[i]);
      RenamedNotBare(names, e, ledger[i].bucket.model, bare);
    }
  }

  lemma {:induction false} PointNotBare(es: seq<Event>, e: Event, bare: string)
    requires e.ClaudeMetric? && bare != "" && bare != UNKNOWN && OnlyLonger(Names(es + [e]), bare)
    requires OnlyLonger(Names(es), bare) ==> NoneUnder(Run(es).ledger, bare)
    ensures NoneUnder(Step(Run(es), e).state.ledger, bare)
  {
    hide Run, Names, Bare, LastVariant, Register, Relabel, UsageKey, ClaudeSample, Tabled;
    NamesMore(es, e);
    RunTabled(es);
    RegisterRenames(Run(es), Names(es), e);
    FoldedNotBare(Run(es).ledger, Names(es), e, bare);
  }

  lemma {:induction false} BareLeft(es: seq<Event>, bare: string)
    requires bare != "" && bare != UNKNOWN && '[' !in bare && OnlyLonger(Names(es), bare)
    ensures NoneUnder(Run(es).ledger, bare)
  {
    hide Step, OnlyLonger, Bare;
    if es != [] {
      var before, e := es[..|es| - 1], es[|es| - 1];
      assert es == before + [e];
      NamesMore(before, e);
      if e.ClaudeMetric? {
        if OnlyLonger(Names(before), bare) {
          BareLeft(before, bare);
        }
        PointNotBare(before, e, bare);
      } else {
        BareLeft(before, bare);
        if e.ClaudeLog? {
          LogNotBare(before, e, bare);
        } else {
          CodexLeavesClaudes(Run(before), e);
          assert forall x | x in Run(es).ledger && x.Agent() == Claude :: x in Claudes(Run(es));
        }
      }
    }
  }

  /** Once metrics have named a variant of a name that they do not use themselves, nothing is counted
      under the bare name: what was moves to the variant, and later logs are read as the variant. */
  lemma {:induction false} BareNameEmptied(es: seq<Event>, bare: string)
    requires bare != "" && bare != UNKNOWN && '[' !in bare && OnlyVariants(es, bare)
    ensures forall x | x in Run(es).ledger && x.Agent() == Claude :: x.bucket.model != bare
  {
    NamesAre(es, bare);
    BareLeft(es, bare);
  }
}
