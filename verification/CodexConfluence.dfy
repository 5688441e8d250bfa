/** Codex attribution is confluent: with one provider and one effort per conversation, where a
    completion's tokens end up does not depend on when anything arrived, save for completions that
    spell out the effort `unknown`; for those the exact condition is given. */
module CodexConfluence {
  import opened Basics
  import opened BucketKeys
  import opened UsageLedger
  import opened LedgerSums
  import opened LedgerInvariants
  import opened CodexAttribution

  function ModelOf(model: string, slug: string): string {
    if model != "" then model else slug
  }

  /** All reports about conversation `c` agree on one provider and one effort, and each of its
      completions carries a model. */
  predicate AgreesOn(e: Event, c: string, provider: string, effort: string) {
    match e
    case CodexStart(_, cid, p, _, f) => cid == c ==> (p == "" || p == provider) && (f == "" || f == effort)
    case CodexSpan(_, cid, _, f) => cid == c ==> f == "" || f == effort
    case CodexSse(_, cid, model, slug, _, _) => cid == c ==> ModelOf(model, slug) != ""
    case _ => true
  }

  predicate GivesProvider(e: Event, c: string, provider: string) {
    e.CodexStart? && e.cid == c && e.provider == provider
  }

  predicate GivesEffort(e: Event, c: string, effort: string) {
    (e.CodexStart? || e.CodexSpan?) && e.cid == c && e.effort == effort
  }

  predicate ProviderGiven(es: seq<Event>, c: string, provider: string) {
    exists e :: e in es && GivesProvider(e, c, provider)
  }

  predicate EffortGiven(es: seq<Event>, c: string, effort: string) {
    exists e :: e in es && GivesEffort(e, c, effort)
  }

  lemma {:induction false} GivenAppend(es: seq<Event>, e: Event, c: string, provider: string, effort: string)
    ensures ProviderGiven(es + [e], c, provider) <==> ProviderGiven(es, c, provider) || GivesProvider(e, c, provider)
    ensures EffortGiven(es + [e], c, effort) <==> EffortGiven(es, c, effort) || GivesEffort(e, c, effort)
  {
    assert e in es + [e];
    assert forall x | x in es :: x in es + [e];
  }

  predicate IsCompletion(e: Event, c: string) {
    e.CodexSse? && e.cid == c && Counted(e.tokens)
  }

  /** An event that makes the aggregator resolve what waits for conversation `c`. */
  predicate IsReport(e: Event, c: string) {
    (e.CodexStart? && e.cid == c) || (e.CodexSpan? && e.cid == c && e.effort != "")
  }

  /** Where in the run the conversation's completions are. */
  function Completions(es: seq<Event>, c: string): (ks: seq<nat>)
    ensures forall k | k in ks :: k < |es| && IsCompletion(es[k], c)
    ensures forall i | 0 <= i < |ks| :: ks[i] < |es| && IsCompletion(es[ks[i]], c)
  {
    if es == [] then []
    else
      var rest := Completions(es[..|es| - 1], c);
      if IsCompletion(es[|es| - 1], c) then rest + [|es| - 1] else rest
  }

  /** After position `k` the conversation was reported on again, with its effort known by then. */
  predicate ReportedAfter(es: seq<Event>, k: nat, c: string, effort: string) {
    exists j :: k < j < |es| && IsReport(es[j], c) && EffortGiven(es[..j + 1], c, effort)
  }

  lemma {:induction false} ReportedAfterMore(es: seq<Event>, e: Event, k: nat, c: string, effort: string)
    requires k <= |es|
    ensures ReportedAfter(es + [e], k, c, effort) <==>
              ReportedAfter(es, k, c, effort) || (k < |es| && IsReport(e, c) && EffortGiven(es + [e], c, effort))
  {
    hide EffortGiven;
    var all := es + [e];
    forall j | 0 <= j < |es| ensures all[j] == es[j] && all[..j + 1] == es[..j + 1] {
    }
    assert all[..|es| + 1] == all && all[|es|] == e;
    if ReportedAfter(es, k, c, effort) {
      var j :| k < j < |es| && IsReport(es[j], c) && EffortGiven(es[..j + 1], c, effort);
      assert IsReport(all[j], c) && EffortGiven(all[..j + 1], c, effort);
    }
    if k < |es| && IsReport(e, c) && EffortGiven(all, c, effort) {
      assert IsReport(all[|es|], c) && EffortGiven(all[..|es| + 1], c, effort);
    }
  }

  /** A counted completion, and whether its conversation was reported on since, with its effort known. */
  datatype Sighting = Sighting(e: Event, late: bool)

  function Sightings(es: seq<Event>, c: string, effort: string): (r: seq<Sighting>)
    ensures |r| == |Completions(es, c)|
    ensures forall i | 0 <= i < |r| ::
              var k := Completions(es, c)[i];
              r[i] == Sighting(es[k], ReportedAfter(es, k, c, effort))
  {
    var ks := Completions(es, c);
    seq(|ks|, i requires 0 <= i < |ks| => Sighting(es[ks[i]], ReportedAfter(es, ks[i], c, effort)))
  }

  function Later(sightings: seq<Sighting>): (r: seq<Sighting>)
    ensures |r| == |sightings|
    ensures forall i | 0 <= i < |r| :: r[i] == Sighting(sightings[i].e, true)
  {
    seq(|sightings|, i requires 0 <= i < |sightings| => Sighting(sightings[i].e, true))
  }

  /** The sightings after one event more, `known` saying whether the effort is known with it. */
  function Seen(sightings: seq<Sighting>, e: Event, c: string, known: bool): seq<Sighting> {
    if IsCompletion(e, c) then sightings + [Sighting(e, false)]
    else if IsReport(e, c) && known then Later(sightings)
    else sightings
  }

  lemma {:induction false} SightingsMore(es: seq<Event>, e: Event, c: string, effort: string)
    ensures Sightings(es + [e], c, effort) == Seen(Sightings(es, c, effort), e, c, EffortGiven(es + [e], c, effort))
  {
    hide ReportedAfter, EffortGiven;
    var all := es + [e];
    var before, after := Sightings(es, c, effort), Sightings(all, c, effort);
    assert all[..|es|] == es;
    forall i | 0 <= i < |before|
      ensures after[i] == Seen(before, e, c, EffortGiven(all, c, effort))[i]
    {
      var k := Completions(es, c)[i];
      assert Completions(all, c)[i] == k && all[k] == es[k];
      ReportedAfterMore(es, e, k, c, effort);
    }
    ReportedAfterMore(es, e, |es|, c, effort);
    NeverAfterEnd(es, c, effort);
  }

  lemma {:induction false} NeverAfterEnd(es: seq<Event>, c: string, effort: string)
    ensures !ReportedAfter(es, |es|, c, effort)
  {
  }

  /** The effort a completion is counted under, `known` being the session's. A completion that spells
      out `unknown` is taken for one without effort when the conversation is reported on again. */
  function EffortIn(x: Sighting, known: string): string
    requires x.e.CodexSse?
  {
    if x.e.effort == "" || (x.e.effort == UNKNOWN && x.late) then known else x.e.effort
  }

  /** Where a completion belongs given what is known of its session. */
  function Placed(x: Sighting, c: string, session: Option<Session>): Entry
    requires x.e.CodexSse?
  {
    var bucket := FromParts(ProviderOf(session), ModelOf(x.e.model, x.e.slug), EffortIn(x, EffortOf(session)));
    Entry(bucket, SseStats(x.e.tokens), Sse(c, x.e.effort, !Confirmed(session) || bucket.effort == UNKNOWN))
  }

  predicate AllCompletions(xs: seq<Sighting>, c: string) {
    forall x | x in xs :: IsCompletion(x.e, c) && ModelOf(x.e.model, x.e.slug) != ""
  }

  function PlacedAll(xs: seq<Sighting>, c: string, session: Option<Session>): (r: seq<Entry>)
    requires AllCompletions(xs, c)
    ensures |r| == |xs| && forall i | 0 <= i < |xs| :: r[i] == Placed(xs[i], c, session)
  {
    seq(|xs|, i requires 0 <= i < |xs| => Placed(xs[i], c, session))
  }

  /** What is known of the session, exactly as far as it was reported. */
  ghost predicate Knows(session: Option<Session>, provider: string, effort: string, gotProvider: bool,
                        gotEffort: bool) {
    && (Confirmed(session) <==> gotProvider)
    && ProviderOf(session) == (if gotProvider then provider else OPENAI)
    && EffortOf(session) == (if gotEffort then effort else "")
  }

  /** A later report only counts once the effort is known. */
  predicate LateMeansKnown(xs: seq<Sighting>, gotEffort: bool) {
    forall x | x in xs :: x.late ==> gotEffort
  }

  /** The conversation's session and completions are what its reports so far make of them. */
  ghost predicate Follows(s: State, c: string, xs: seq<Sighting>, provider: string, effort: string, gp: bool,
                          ge: bool) {
    && AllCompletions(xs, c)
    && LateMeansKnown(xs, ge)
    && Knows(Get(s.sessions, c), provider, effort, gp, ge)
    && View(s, c) == PlacedAll(xs, c, Get(s.sessions, c))
  }

  /** Metrics never became the token source of a model this conversation used. */
  ghost predicate CountedFromLogs(es: seq<Event>, c: string) {
    forall k | k in Completions(es, c) ::
      Get(Run(es).tokenSources, NonEmpty(ModelOf(es[k].model, es[k].slug))) != Some(TurnMetrics)
  }

  ghost predicate Following(es: seq<Event>, c: string, provider: string, effort: string) {
    Follows(Run(es), c, Sightings(es, c, effort), provider, effort, ProviderGiven(es, c, provider),
            EffortGiven(es, c, effort))
  }

  lemma {:induction false} ResolvePlaced(x: Sighting, c: string, known: Option<Session>, m: Session)
    requires x.e.CodexSse? && m.cid == c && c != "" && m.provider != "" && ModelOf(x.e.model, x.e.slug) != ""
    requires Confirmed(known) ==> m.confirmed && m.provider == known.value.provider
    requires EffortOf(known) != "" ==> m.effort == EffortOf(known)
    requires x.late ==> EffortOf(known) != ""
    ensures Mover(m)(Placed(x, c, known)) == Placed(Sighting(x.e, x.late || m.effort != ""), c, Some(m))
  {
  }

  /** A report about the conversation itself re-places every completion counted so far. */
  lemma {:induction false} UpdateFollows(s: State, service: string, session: Session, updateLast: bool, c: string,
                                         xs: seq<Sighting>)
    requires session.cid == c && c != "" && AllCompletions(xs, c)
    requires View(s, c) == PlacedAll(xs, c, Get(s.sessions, c))
    requires LateMeansKnown(xs, EffortOf(Get(s.sessions, c)) != "")
    requires var m := Merged(s, session);
             && m.provider != ""
             && (Confirmed(Get(s.sessions, c)) ==> m.provider == s.sessions[c].provider)
             && (EffortOf(Get(s.sessions, c)) != "" ==> m.effort == s.sessions[c].effort)
    ensures var s', m := UpdateSession(s, service, session, updateLast).state, Merged(s, session);
            && Get(s'.sessions, c) == Some(m)
            && View(s', c) == PlacedAll(if m.effort != "" then Later(xs) else xs, c, Some(m))
  {
    var m, known := Merged(s, session), Get(s.sessions, c);
    var s' := UpdateSession(s, service, session, updateLast).state;
    assert s'.ledger == Relabel(s.ledger, Mover(m)) && Get(s'.sessions, c) == Some(m);
    FilterRelabel(s.ledger, Mover(m), SseOf(c));
    assert View(s', c) == Relabel(View(s, c), Mover(m));
    hide UpdateSession, Merged, View, Moves;
    AllResolved(xs, c, known, m);
  }

  lemma {:induction false} AllResolved(xs: seq<Sighting>, c: string, known: Option<Session>, m: Session)
    requires AllCompletions(xs, c) && LateMeansKnown(xs, EffortOf(known) != "")
    requires m.cid == c && c != "" && m.provider != ""
    requires Confirmed(known) ==> m.confirmed && m.provider == known.value.provider
    requires EffortOf(known) != "" ==> m.effort == EffortOf(known)
    ensures AllCompletions(if m.effort != "" then Later(xs) else xs, c)
    ensures Relabel(PlacedAll(xs, c, known), Mover(m)) ==
            PlacedAll(if m.effort != "" then Later(xs) else xs, c, Some(m))
  {
    LaterSound(xs, c);
    var ys := if m.effort != "" then Later(xs) else xs;
    forall i | 0 <= i < |xs| ensures Mover(m)(Placed(xs[i], c, known)) == Placed(ys[i], c, Some(m)) {
      assert xs[i] in xs;
      ResolvePlaced(xs[i], c, known, m);
    }
  }

  lemma {:induction false} LaterSound(xs: seq<Sighting>, c: string)
    requires AllCompletions(xs, c)
    ensures AllCompletions(Later(xs), c) && LateMeansKnown(Later(xs), true)
  {
    forall y | y in Later(xs) ensures IsCompletion(y.e, c) && ModelOf(y.e.model, y.e.slug) != "" {
      var i :| 0 <= i < |xs| && Later(xs)[i] == y;
      assert xs[i] in xs;
    }
  }

  lemma {:induction false} StartFollows(s: State, e: Event, c: string, provider: string, effort: string,
                                        xs: seq<Sighting>, gp: bool, ge: bool)
    requires e.CodexStart? && e.cid == c && c != "" && provider != "" && effort != ""
    requires AgreesOn(e, c, provider, effort)
    requires GoodTables(s) && Follows(s, c, xs, provider, effort, gp, ge)
    ensures var known := ge || e.effort == effort;
            Follows(Step(s, e).state, c, Seen(xs, e, c, known), provider, effort, gp || e.provider == provider, known)
  {
    var session := Session(c, if e.provider != "" then e.provider else OPENAI, e.model, e.effort, e.provider != "");
    UpdateFollows(s, e.service, session, true, c, xs);
    LaterSound(xs, c);
  }

  lemma {:induction false} SpanFollows(s: State, e: Event, c: string, provider: string, effort: string,
                                       xs: seq<Sighting>, gp: bool, ge: bool)
    requires e.CodexSpan? && e.cid == c && c != "" && provider != "" && effort != ""
    requires AgreesOn(e, c, provider, effort)
    requires GoodTables(s) && Follows(s, c, xs, provider, effort, gp, ge)
    ensures var known := ge || e.effort == effort;
            Follows(Step(s, e).state, c, Seen(xs, e, c, known), provider, effort, gp, known)
  {
    if e.effort != "" {
      var session := if c in s.sessions then s.sessions[c].(effort := effort)
                     else Session(c, OPENAI, e.model, effort, false);
      UpdateFollows(s, e.service, session,
                    e.service in s.lastSessions ==> s.lastSessions[e.service].cid == session.cid, c, xs);
      LaterSound(xs, c);
    }
  }

  lemma {:induction false} CompletionIsPlaced(s: State, e: Event, c: string)
    requires IsCompletion(e, c) && c != "" && ModelOf(e.model, e.slug) != ""
    requires Get(s.tokenSources, ModelOf(e.model, e.slug)) != Some(TurnMetrics)
    ensures Step(s, e).state.ledger == s.ledger + [Placed(Sighting(e, false), c, Get(s.sessions, c))]
    ensures Step(s, e).state.sessions == s.sessions
  {
    var session := Get(s.sessions, c);
    assert SseModel(session, e.model, e.slug) == ModelOf(e.model, e.slug);
    assert Placed(Sighting(e, false), c, session).bucket.model == ModelOf(e.model, e.slug);
  }

  lemma {:induction false} CompletionFollows(s: State, e: Event, c: string, provider: string, effort: string,
                                             xs: seq<Sighting>, gp: bool, ge: bool)
    requires IsCompletion(e, c) && c != "" && ModelOf(e.model, e.slug) != ""
    requires Follows(s, c, xs, provider, effort, gp, ge)
    requires Get(s.tokenSources, ModelOf(e.model, e.slug)) != Some(TurnMetrics)
    ensures Follows(Step(s, e).state, c, xs + [Sighting(e, false)], provider, effort, gp, ge)
  {
    var x := Sighting(e, false);
    CompletionIsPlaced(s, e, c);
    FilterAppend(s.ledger, Placed(x, c, Get(s.sessions, c)), SseOf(c));
    PlacedMore(xs, x, c, Get(s.sessions, c));
    hide Step, Placed, IsCompletion, PlacedAll, ModelOf;
  }

  lemma {:induction false} PlacedMore(xs: seq<Sighting>, x: Sighting, c: string, session: Option<Session>)
    requires AllCompletions(xs, c) && IsCompletion(x.e, c) && ModelOf(x.e.model, x.e.slug) != ""
    ensures AllCompletions(xs + [x], c)
    ensures PlacedAll(xs + [x], c, session) == PlacedAll(xs, c, session) + [Placed(x, c, session)]
  {
    hide Placed;
  }

  lemma {:induction false} SourcesEarlier(es: seq<Event>, e: Event, c: string)
    requires CountedFromLogs(es + [e], c)
    ensures CountedFromLogs(es, c)
    ensures IsCompletion(e, c) ==> Get(Run(es).tokenSources, NonEmpty(ModelOf(e.model, e.slug))) != Some(TurnMetrics)
  {
    var all := es + [e];
    assert all[..|es|] == es;
    assert Completions(all, c) == if IsCompletion(e, c) then Completions(es, c) + [|es|] else Completions(es, c);
    forall k | k in Completions(all, c)
      ensures Get(Run(es).tokenSources, NonEmpty(ModelOf(all[k].model, all[k].slug))) != Some(TurnMetrics)
    {
      SourceEarlier(es, e, NonEmpty(ModelOf(all[k].model, all[k].slug)));
    }
    hide Run, IsCompletion;
    assert forall k | k in Completions(es, c) :: k in Completions(all, c) && all[k] == es[k];
    assert IsCompletion(e, c) ==> |es| in Completions(all, c) && all[|es|] == e;
  }

  lemma {:induction false} SourceEarlier(es: seq<Event>, e: Event, model: string)
    requires Get(Run(es + [e]).tokenSources, model) != Some(TurnMetrics)
    ensures Get(Run(es).tokenSources, model) != Some(TurnMetrics)
  {
    assert (es + [e])[..|es|] == es;
    hide Step;
    if model in Run(es).tokenSources {
      TokenSourceNeverChanges(Run(es), e, model);
    }
  }

  lemma {:induction false} StepFollows(s: State, e: Event, c: string, provider: string, effort: string,
                                       xs: seq<Sighting>, gp: bool, ge: bool)
    requires c != "" && provider != "" && effort != "" && AgreesOn(e, c, provider, effort)
    requires Invariant(s) && Follows(s, c, xs, provider, effort, gp, ge)
    requires IsCompletion(e, c) ==> Get(s.tokenSources, ModelOf(e.model, e.slug)) != Some(TurnMetrics)
    ensures var known := ge || GivesEffort(e, c, effort);
            Follows(Step(s, e).state, c, Seen(xs, e, c, known), provider, effort,
                    gp || GivesProvider(e, c, provider), known)
  {
    if !Touches(e, c) {
      Isolation(s, e, c);
    } else if e.CodexStart? {
      StartFollows(s, e, c, provider, effort, xs, gp, ge);
    } else if e.CodexSpan? {
      SpanFollows(s, e, c, provider, effort, xs, gp, ge);
    } else if IsCompletion(e, c) {
      CompletionFollows(s, e, c, provider, effort, xs, gp, ge);
    }
  }

  /** At every point of such a run the session and every completion are where the reports so far put them. */
  lemma {:induction false} RunFollows(es: seq<Event>, c: string, provider: string, effort: string)
    requires c != "" && provider != "" && effort != ""
    requires forall e | e in es :: AgreesOn(e, c, provider, effort)
    requires CountedFromLogs(es, c)
    ensures Following(es, c, provider, effort)
  {
    if es != [] {
      var before, e := es[..|es| - 1], es[|es| - 1];
      assert es == before + [e];
      assert e in es && AgreesOn(e, c, provider, effort);
      SourcesEarlier(before, e, c);
      RunFollows(before, c, provider, effort);
      RunKeeps(before);
      GivenAppend(before, e, c, provider, effort);
      SightingsMore(before, e, c, effort);
      StepFollows(Run(before), e, c, provider, effort, Sightings(before, c, effort),
                  ProviderGiven(before, c, provider), EffortGiven(before, c, effort));
    }
  }

  /** The effort a completion should be counted under: its own, or else the session's. */
  function ProperEffort(own: string, effort: string): string {
    if own != "" then own else effort
  }

  /** Every interleaving in which the conversation's provider and effort are each reported at least
      once ends with each completion's tokens counted once, in the bucket of that provider and the
      completion's model; and in the bucket of its own effort, or else the session's, if and only if it
      does not spell out the effort `unknown`, or that is the session's, or the conversation is not
      reported on after it once the effort is known. Otherwise it is counted under the session's. */
  lemma {:induction false} Confluence(es: seq<Event>, c: string, provider: string, effort: string)
    requires c != "" && provider != "" && effort != ""
    requires forall e | e in es :: AgreesOn(e, c, provider, effort)
    requires CountedFromLogs(es, c)
    requires ProviderGiven(es, c, provider) && EffortGiven(es, c, effort)
    ensures |View(Run(es), c)| == |Completions(es, c)|
    ensures forall i | 0 <= i < |Completions(es, c)| ::
              var k, entry := Completions(es, c)[i], View(Run(es), c)[i];
              && entry.bucket.provider == provider
              && entry.bucket.model == ModelOf(es[k].model, es[k].slug)
              && (entry.bucket.effort == ProperEffort(es[k].effort, effort) <==>
                    es[k].effort != UNKNOWN || effort == UNKNOWN || !ReportedAfter(es, k, c, effort))
              && (entry.bucket.effort != ProperEffort(es[k].effort, effort) ==> entry.bucket.effort == effort)
              && entry.stats == SseStats(es[k].tokens)
              && entry.tag.Sse? && (entry.tag.pending <==> entry.bucket.effort == UNKNOWN)
  {
    RunFollows(es, c, provider, effort);
    forall i | 0 <= i < |Completions(es, c)|
      ensures View(Run(es), c)[i] == Placed(Sightings(es, c, effort)[i], c, Get(Run(es).sessions, c))
      ensures ModelOf(es[Completions(es, c)[i]].model, es[Completions(es, c)[i]].slug) != ""
    {
      assert Sightings(es, c, effort)[i] in Sightings(es, c, effort);
    }
    hide ReportedAfter, View, Sightings, ProviderGiven, EffortGiven;
  }

  /** Two orders of the same events place a completion alike if and only if it does not spell out
      `unknown` in a conversation of another effort, or both or neither report on the conversation
      after it once the effort is known. */
  lemma {:induction false} OrderMattersIff(es: seq<Event>, fs: seq<Event>, c: string, provider: string,
                                           effort: string, i: nat, j: nat)
    requires c != "" && provider != "" && effort != ""
    requires multiset(es) == multiset(fs) && forall e | e in es :: AgreesOn(e, c, provider, effort)
    requires CountedFromLogs(es, c) && CountedFromLogs(fs, c)
    requires ProviderGiven(es, c, provider) && EffortGiven(es, c, effort)
    requires i < |Completions(es, c)| && j < |Completions(fs, c)|
             && es[Completions(es, c)[i]] == fs[Completions(fs, c)[j]]
    ensures |View(Run(es), c)| == |Completions(es, c)| && |View(Run(fs), c)| == |Completions(fs, c)|
    ensures var k, l := Completions(es, c)[i], Completions(fs, c)[j];
            View(Run(es), c)[i].bucket == View(Run(fs), c)[j].bucket <==>
              es[k].effort != UNKNOWN || effort == UNKNOWN
              || (ReportedAfter(es, k, c, effort) <==> ReportedAfter(fs, l, c, effort))
  {
    forall e ensures e in es <==> e in fs {
      assert e in multiset(es) <==> e in multiset(fs);
    }
    Confluence(es, c, provider, effort);
    Confluence(fs, c, provider, effort);
    hide ReportedAfter, Run, View;
  }

  lemma {:induction false} OneEntry(s: State, entry: Entry, c: string)
    requires s.ledger == [entry] && SseOf(c)(entry)
    ensures View(s, c) == [entry]
  {
    FilterAppend([], entry, SseOf(c));
    assert [] + [entry] == [entry];
  }

  function Start(c: string): Event {
    CodexStart("codex", c, "azure", "", "high")
  }

  function Span(c: string): Event {
    CodexSpan("codex", c, "", "high")
  }

  lemma {:induction false} KnownFirst(sse: Event, c: string)
    requires IsCompletion(sse, c) && c != "" && ModelOf(sse.model, sse.slug) != ""
    ensures var entry := Placed(Sighting(sse, false), c, Some(Session(c, "azure", "", "high", true)));
            && Run([Start(c), sse]).ledger == [entry]
            && Get(Run([Start(c), sse]).sessions, c) == Some(Session(c, "azure", "", "high", true))
  {
    assert [Start(c), sse][..1] == [Start(c)] && [Start(c)][..0] == [];
    assert Run([Start(c)]) == Step(INITIAL, Start(c)).state;
    CompletionIsPlaced(Run([Start(c)]), sse, c);
  }

  lemma {:induction false} CompletionFirst(sse: Event, c: string)
    requires IsCompletion(sse, c) && c != "" && ModelOf(sse.model, sse.slug) != ""
    ensures Run([sse, Start(c)]).ledger ==
            [Mover(Session(c, "azure", "", "high", true))(Placed(Sighting(sse, false), c, None))]
  {
    assert [sse, Start(c)][..1] == [sse] && [sse][..0] == [];
    assert Run([sse]) == Step(INITIAL, sse).state;
    CompletionIsPlaced(INITIAL, sse, c);
  }

  lemma {:induction false} SpanMovesIt(sse: Event, c: string)
    requires IsCompletion(sse, c) && c != "" && ModelOf(sse.model, sse.slug) != ""
    ensures var session := Session(c, "azure", "", "high", true);
            Run([Start(c), sse, Span(c)]).ledger == [Mover(session)(Placed(Sighting(sse, false), c, Some(session)))]
  {
    KnownFirst(sse, c);
    var before := Run([Start(c), sse]);
    hide Run, Placed, Mover;
    assert [Start(c), sse] + [Span(c)] == [Start(c), sse, Span(c)];
    RunLast([Start(c), sse], Span(c));
  }

  lemma {:induction false} EntryEfforts(sse: Event, c: string)
    requires sse.CodexSse? && c != "" && sse.effort == UNKNOWN
    ensures var session, x := Session(c, "azure", "", "high", true), Sighting(sse, false);
            && Placed(x, c, Some(session)).bucket.effort == UNKNOWN && SseOf(c)(Placed(x, c, Some(session)))
            && Mover(session)(Placed(x, c, Some(session))).bucket.effort == "high"
            && SseOf(c)(Mover(session)(Placed(x, c, Some(session))))
            && Mover(session)(Placed(x, c, None)).bucket.effort == "high"
            && SseOf(c)(Mover(session)(Placed(x, c, None)))
  {
  }

  lemma {:induction false} RunLast(es: seq<Event>, e: Event)
    ensures Run(es + [e]) == Step(Run(es), e).state
  {
    assert (es + [e])[..|es|] == es;
  }

  /** The exception is real: a start and a completion that spells out `unknown`, in two orders, and
      with a span added to the order that does not move it. */
  lemma {:induction false} SpelledUnknownMoves(sse: Event, c: string)
    requires IsCompletion(sse, c) && c != "" && ModelOf(sse.model, sse.slug) != "" && sse.effort == UNKNOWN
    ensures var known, early, moved := Run([Start(c), sse]), Run([sse, Start(c)]), Run([Start(c), sse, Span(c)]);
            && |View(known, c)| == |View(early, c)| == |View(moved, c)| == 1
            && View(known, c)[0].bucket.effort == UNKNOWN
            && View(early, c)[0].bucket.effort == "high"
            && View(moved, c)[0].bucket.effort == "high"
  {
    KnownFirst(sse, c);
    CompletionFirst(sse, c);
    SpanMovesIt(sse, c);
    EntryEfforts(sse, c);
    hide Run, View, IsCompletion, Placed, Mover;
    OneEntry(Run([Start(c), sse]), Run([Start(c), sse]).ledger[0], c);
    OneEntry(Run([sse, Start(c)]), Run([sse, Start(c)]).ledger[0], c);
    OneEntry(Run([Start(c), sse, Span(c)]), Run([Start(c), sse, Span(c)]).ledger[0], c);
  }
}
