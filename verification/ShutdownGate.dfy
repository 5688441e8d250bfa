/** Records on their way through the sink while the server may be shutting down, with a JSONL
    file configured. Every step is one that another task can fall between. */
module ShutdownGate {

  type Id = nat

  /** A record call. From `Appending` to `Stored` its task holds the gate's read guard. In `Over`
      the guard is back; `heard` is whether the handler was still there to get the answer. */
  datatype Stage =
    | Waiting
    | Appending
    | Failed
    | Ingesting
    | Notifying
    | Stored
    | Over(ok: bool, heard: bool)

  datatype Call = Call(stage: Stage, cancelled: bool)

  /** The gate, the batches in the JSONL file, the aggregate and the proxy queues, and how much of
      the file the last successful sync covered. */
  datatype Sink = Sink(calls: map<Id, Call>, open: bool, closing: bool,
                       appended: seq<Id>, ingested: seq<Id>, forwarded: seq<Id>,
                       synced: seq<Id>, finalSync: bool)

  const START: Sink := Sink(map[], true, false, [], [], [], [], false)

  datatype Step =
    | Arrive(b: Id)
    | Admit(b: Id)
    | Cancel(b: Id)
    | Append(b: Id, ok: bool)
    | Ingest(b: Id)
    | Notify(b: Id)
    | Finish(b: Id)
    | Close
    | Sync(ok: bool)
    | Release

  predicate HoldsGuard(stage: Stage) {
    stage != Waiting && !stage.Over?
  }

  predicate At(s: Sink, b: Id, stage: Stage) {
    b in s.calls && s.calls[b].stage == stage
  }

  /** Read guards and the write guard exclude each other; anything else may happen at any time. */
  ghost predicate Enabled(s: Sink, step: Step) {
    match step
    case Arrive(b) => b !in s.calls
    case Admit(b) => At(s, b, Waiting) && !s.closing
    case Cancel(b) => b in s.calls
    case Append(b, _) => At(s, b, Appending)
    case Ingest(b) => At(s, b, Ingesting)
    case Notify(b) => At(s, b, Notifying)
    case Finish(b) => At(s, b, Stored) || At(s, b, Failed)
    case Close => !s.closing && forall b | b in s.calls :: !HoldsGuard(s.calls[b].stage)
    case Sync(_) => true
    case Release => s.closing
  }

  function Put(s: Sink, b: Id, stage: Stage): Sink
    requires b in s.calls
  {
    s.(calls := s.calls[b := s.calls[b].(stage := stage)])
  }

  function Next(s: Sink, step: Step): Sink
    requires Enabled(s, step)
  {
    match step
    case Arrive(b) => s.(calls := s.calls[b := Call(Waiting, false)])
    case Admit(b) => Put(s, b, if s.open then Appending else Over(false, !s.calls[b].cancelled))
    case Cancel(b) =>
      // A handler that goes away while waiting takes its record along; an admitted task goes on.
      if s.calls[b].stage == Waiting then s.(calls := s.calls[b := Call(Over(false, false), true)])
      else s.(calls := s.calls[b := s.calls[b].(cancelled := true)])
    case Append(b, ok) =>
      if ok then Put(s, b, Ingesting).(appended := s.appended + [b]) else Put(s, b, Failed)
    case Ingest(b) => Put(s, b, Notifying).(ingested := s.ingested + [b])
    case Notify(b) => Put(s, b, Stored).(forwarded := s.forwarded + [b])
    case Finish(b) => Put(s, b, Over(s.calls[b].stage == Stored, !s.calls[b].cancelled))
    case Close => s.(open := false, closing := true)
    case Sync(ok) => if ok then s.(synced := s.appended, finalSync := !s.open) else s
    case Release => s.(closing := false)
  }

  ghost predicate AllEnabled(s: Sink, steps: seq<Step>)
    decreases |steps|
  {
    steps != [] ==> AllEnabled(s, steps[..|steps| - 1]) && Enabled(Run(s, steps[..|steps| - 1]), steps[|steps| - 1])
  }

  ghost function Run(s: Sink, steps: seq<Step>): Sink
    decreases |steps|
  {
    if steps == [] then s
    else
      var before := Run(s, steps[..|steps| - 1]);
      if Enabled(before, steps[|steps| - 1]) then Next(before, steps[|steps| - 1]) else before
  }

  // How often a call's batch is in the file, in the aggregate and in the proxy queues

  function Appends(s: Sink, b: Id): nat {
    if b in s.calls
       && (s.calls[b].stage in {Ingesting, Notifying, Stored} || (s.calls[b].stage.Over? && s.calls[b].stage.ok))
    then 1 else 0
  }

  function Ingests(s: Sink, b: Id): nat {
    if b in s.calls && (s.calls[b].stage in {Notifying, Stored} || (s.calls[b].stage.Over? && s.calls[b].stage.ok))
    then 1 else 0
  }

  function Forwards(s: Sink, b: Id): nat {
    if b in s.calls && (s.calls[b].stage == Stored || (s.calls[b].stage.Over? && s.calls[b].stage.ok)) then 1 else 0
  }

  function Times(ids: seq<Id>, b: Id): nat {
    multiset(ids)[b]
  }

  lemma {:induction false} SameTimes(xs: seq<Id>, ys: seq<Id>)
    requires forall b :: Times(xs, b) == Times(ys, b)
    ensures multiset(xs) == multiset(ys)
  {
    forall b ensures multiset(xs)[b] == multiset(ys)[b] {
      assert Times(xs, b) == Times(ys, b);
    }
  }

  ghost predicate Accounted(s: Sink, b: Id) {
    && Times(s.appended, b) == Appends(s, b)
    && Times(s.ingested, b) == Ingests(s, b)
    && Times(s.forwarded, b) == Forwards(s, b)
  }

  predicate Quiet(s: Sink) {
    forall b | b in s.calls :: !HoldsGuard(s.calls[b].stage)
  }

  ghost predicate Sound(s: Sink) {
    && (forall b :: Accounted(s, b))
    && (!s.open ==> Quiet(s))
    && (s.closing ==> !s.open)
    && s.synced <= s.appended
    && (s.finalSync ==> !s.open && s.synced == s.appended)
  }

  lemma {:induction false} Once(ids: seq<Id>, x: Id, b: Id)
    ensures Times(ids + [x], b) == Times(ids, b) + if x == b then 1 else 0
  {
  }

  lemma {:induction false} StepAccounts(s: Sink, step: Step, b: Id)
    requires Accounted(s, b) && Enabled(s, step)
    ensures Accounted(Next(s, step), b)
  {
    hide Times;
    match step {
      case Append(x, _) => Once(s.appended, x, b);
      case Ingest(x) => Once(s.ingested, x, b);
      case Notify(x) => Once(s.forwarded, x, b);
      case _ =>
    }
  }

  lemma {:induction false} StepSound(s: Sink, step: Step)
    requires Sound(s) && Enabled(s, step)
    ensures Sound(Next(s, step))
    ensures !s.open ==> !Next(s, step).open && Next(s, step).appended == s.appended
  {
    StepStates(s, step);
    hide Enabled;
    forall b ensures Accounted(Next(s, step), b) {
      StepAccounts(s, step, b);
    }
  }

  lemma {:induction false} StepStates(s: Sink, step: Step)
    requires Sound(s) && Enabled(s, step)
    ensures var t := Next(s, step);
            && (!t.open ==> Quiet(t))
            && (t.closing ==> !t.open)
            && t.synced <= t.appended
            && (t.finalSync ==> !t.open && t.synced == t.appended)
            && (!s.open ==> !t.open && t.appended == s.appended)
  {
    hide Accounted;
  }

  lemma {:induction false} RunSound(steps: seq<Step>)
    requires AllEnabled(START, steps)
    ensures Sound(Run(START, steps))
  {
    if steps == [] {
      assert forall b :: Accounted(START, b);
    } else {
      RunSound(steps[..|steps| - 1]);
      StepSound(Run(START, steps[..|steps| - 1]), steps[|steps| - 1]);
    }
  }

  /** What an answer means, in every interleaving: a batch answered Ok is in the file, in the
      aggregate and in the proxy queues exactly once; a batch answered with an error is in none of
      them; and a batch whose append failed is never ingested, whoever is still listening. */
  lemma {:induction false} AnswersMean(steps: seq<Step>, b: Id)
    requires AllEnabled(START, steps)
    ensures var s := Run(START, steps);
            && (At(s, b, Over(true, true)) ==>
                  && Times(s.appended, b) == 1
                  && Times(s.ingested, b) == 1
                  && Times(s.forwarded, b) == 1)
            && (At(s, b, Failed) || At(s, b, Over(false, true)) || At(s, b, Over(false, false)) ==>
                  && b !in s.appended
                  && b !in s.ingested
                  && b !in s.forwarded)
            && Times(s.ingested, b) <= Times(s.appended, b) <= 1
  {
    RunSound(steps);
    assert Accounted(Run(START, steps), b);
  }

  /** Once the gate is closed the three destinations hold the same batches, cancelled handlers or
      not, and a final sync that succeeds covers every one of them. */
  lemma {:induction false} ClosedMeansSettled(steps: seq<Step>)
    requires AllEnabled(START, steps) && !Run(START, steps).open
    ensures var s := Run(START, steps);
            && multiset(s.appended) == multiset(s.ingested) == multiset(s.forwarded)
            && Next(s, Sync(true)).synced == s.appended
            && (s.finalSync ==> s.synced == s.appended)
  {
    RunSound(steps);
    var s := Run(START, steps);
    forall b ensures Times(s.appended, b) == Times(s.ingested, b) == Times(s.forwarded, b) {
      assert Accounted(s, b);
      assert b in s.calls ==> !HoldsGuard(s.calls[b].stage);
    }
    SameTimes(s.appended, s.ingested);
    SameTimes(s.ingested, s.forwarded);
  }

  /** Nothing is appended, ingested or forwarded after the gate has closed, however the run goes on. */
  lemma {:induction false} NothingAfterClose(s: Sink, more: seq<Step>)
    requires Sound(s) && !s.open && AllEnabled(s, more)
    ensures var t := Run(s, more);
            && Sound(t) && !t.open
            && t.appended == s.appended && t.ingested == s.ingested && t.forwarded == s.forwarded
            && (s.finalSync ==> t.finalSync && t.synced == s.appended)
    decreases |more|
  {
    if more != [] {
      var front := more[..|more| - 1];
      NothingAfterClose(s, front);
      StepSound(Run(s, front), more[|more| - 1]);
    }
  }

  /** Closing waits for the admitted records: none of them is between admission and its end. */
  lemma {:induction false} CloseWaits(steps: seq<Step>, b: Id)
    requires AllEnabled(START, steps) && b in Run(START, steps).calls && HoldsGuard(Run(START, steps).calls[b].stage)
    ensures Run(START, steps).open && !Enabled(Run(START, steps), Close)
  {
    RunSound(steps);
  }

  // How each call ends

  predicate IsStored(stage: Stage) {
    stage in {Ingesting, Notifying, Stored} || (stage.Over? && stage.ok)
  }

  /** A call's stage, told from the steps that were taken. */
  predicate Told(s: Sink, steps: set<Step>, b: Id) {
    && (s.open <==> Close !in steps)
    && (b in s.calls <==> Arrive(b) in steps)
    && (Append(b, true) in steps <==> b in s.calls && IsStored(s.calls[b].stage))
    && (Finish(b) in steps ==> b in s.calls && s.calls[b].stage.Over?)
    && (Admit(b) in steps ==> b in s.calls)
    && (b in s.calls ==>
          var c := s.calls[b];
          && (c.stage.Over? && c.stage.ok ==> Finish(b) in steps)
          && (c.stage == Failed ==> Append(b, false) in steps)
          && (c.stage == Waiting ==> Admit(b) !in steps)
          && (c.stage.Over? && !c.stage.ok ==>
                || Append(b, false) in steps
                || (if Admit(b) in steps then Close in steps else Cancel(b) in steps))
          && (c.cancelled || (c.stage.Over? && !c.stage.heard) ==> Cancel(b) in steps))
  }

  function Taken(steps: seq<Step>): set<Step> {
    set step | step in steps
  }

  lemma {:induction false} TakenMore(steps: seq<Step>, step: Step)
    ensures Taken(steps + [step]) == Taken(steps) + {step}
  {
  }

  predicate ConcernsGate(step: Step) {
    step.Close? || step.Sync? || step.Release?
  }

  lemma {:induction false} GateStepTold(s: Sink, steps: set<Step>, step: Step, b: Id)
    requires Told(s, steps, b) && Enabled(s, step) && (ConcernsGate(step) || step.b != b)
    ensures Told(Next(s, step), steps + {step}, b)
  {
  }

  lemma {:induction false} OwnStepTold(s: Sink, steps: set<Step>, step: Step, b: Id)
    requires Told(s, steps, b) && Enabled(s, step) && !ConcernsGate(step) && step.b == b
    ensures Told(Next(s, step), steps + {step}, b)
  {
  }

  lemma {:induction false} StepTold(s: Sink, steps: set<Step>, step: Step, b: Id)
    requires Told(s, steps, b) && Enabled(s, step)
    ensures Told(Next(s, step), steps + {step}, b)
  {
    hide Told, Enabled, Next;
    if ConcernsGate(step) || step.b != b {
      GateStepTold(s, steps, step, b);
    } else {
      OwnStepTold(s, steps, step, b);
    }
  }

  lemma {:induction false} RunTold(steps: seq<Step>, b: Id)
    requires AllEnabled(START, steps)
    ensures Told(Run(START, steps), Taken(steps), b)
  {
    hide Enabled, Next, Told, Taken;
    if steps != [] {
      var front, last := steps[..|steps| - 1], steps[|steps| - 1];
      RunTold(front, b);
      StepTold(Run(START, front), Taken(front), last, b);
      TakenMore(front, last);
      assert front + [last] == steps;
    } else {
      NothingTold(b);
    }
  }

  lemma {:induction false} NothingTold(b: Id)
    ensures Told(START, Taken([]), b)
  {
  }

  /** Which answer a call gets: Ok if and only if its append succeeded and it was carried to its end;
      an error only when its append failed, or it was admitted at a closed gate, or its handler went away
      before it was admitted; and the handler hears it unless it went away. */
  lemma {:induction false} AnswerIff(steps: seq<Step>, b: Id)
    requires AllEnabled(START, steps)
    ensures var s := Run(START, steps);
            && (s.open <==> Close !in steps)
            && (b in s.calls && s.calls[b].stage.Over? && s.calls[b].stage.ok <==>
                  Append(b, true) in steps && Finish(b) in steps)
            && (b in s.calls && s.calls[b].stage.Over? && !s.calls[b].stage.ok ==>
                  || Append(b, false) in steps
                  || (if Admit(b) in steps then Close in steps else Cancel(b) in steps))
            && (b in s.calls && s.calls[b].stage.Over? && Cancel(b) !in steps ==> s.calls[b].stage.heard)
  {
    hide Run, AllEnabled;
    RunTold(steps, b);
    assert forall x :: x in Taken(steps) <==> x in steps;
  }

  /** The steps of one call that nothing interrupts. */
  function OneCall(b: Id, ok: bool): seq<Step> {
    if ok then [Arrive(b), Admit(b), Append(b, true), Ingest(b), Notify(b), Finish(b)]
    else [Arrive(b), Admit(b), Append(b, false), Finish(b)]
  }

  lemma {:induction false} RunStep(s: Sink, step: Step, steps: seq<Step>)
    requires Enabled(s, step)
    ensures Run(s, [step] + steps) == Run(Next(s, step), steps)
    ensures AllEnabled(Next(s, step), steps) ==> AllEnabled(s, [step] + steps)
    decreases |steps|
  {
    hide Enabled, Next;
    var all := [step] + steps;
    if steps == [] {
      assert all[..0] == [];
    } else {
      assert all[..|all| - 1] == [step] + steps[..|steps| - 1];
      RunStep(s, step, steps[..|steps| - 1]);
    }
  }

  lemma {:induction false} TwoSteps(s: Sink, first: Step, second: Step)
    requires Enabled(s, first) && Enabled(Next(s, first), second)
    ensures AllEnabled(s, [first, second]) && Run(s, [first, second]) == Next(Next(s, first), second)
  {
    hide Enabled, Next;
    assert [first] + [second] == [first, second] && [second] + [] == [second];
    RunStep(Next(s, first), second, []);
    RunStep(s, first, [second]);
  }

  lemma {:induction false} TwoMore(s: Sink, first: Step, second: Step, rest: seq<Step>)
    requires Enabled(s, first) && Enabled(Next(s, first), second)
    ensures Run(s, [first, second] + rest) == Run(Next(Next(s, first), second), rest)
    ensures AllEnabled(Next(Next(s, first), second), rest) ==> AllEnabled(s, [first, second] + rest)
  {
    hide Enabled, Next;
    assert [first, second] + rest == [first] + ([second] + rest);
    RunStep(Next(s, first), second, rest);
    RunStep(s, first, [second] + rest);
  }

  lemma {:induction false} StoredCallRuns(s: Sink, b: Id)
    requires At(s, b, Appending) && !s.calls[b].cancelled
    ensures var steps := [Append(b, true), Ingest(b)] + [Notify(b), Finish(b)];
            && AllEnabled(s, steps)
            && Run(s, steps) == s.(calls := s.calls[b := Call(Over(true, true), false)],
                                   appended := s.appended + [b], ingested := s.ingested + [b],
                                   forwarded := s.forwarded + [b])
  {
    hide AllEnabled, Run;
    var stored := Next(Next(s, Append(b, true)), Ingest(b));
    TwoSteps(stored, Notify(b), Finish(b));
    TwoMore(s, Append(b, true), Ingest(b), [Notify(b), Finish(b)]);
    assert Next(Next(stored, Notify(b)), Finish(b)).calls == s.calls[b := Call(Over(true, true), false)];
  }

  lemma {:induction false} FailedCallRuns(s: Sink, b: Id)
    requires At(s, b, Appending) && !s.calls[b].cancelled
    ensures var steps := [Append(b, false), Finish(b)];
            && AllEnabled(s, steps)
            && Run(s, steps) == s.(calls := s.calls[b := Call(Over(false, true), false)])
  {
    hide AllEnabled, Run;
    TwoSteps(s, Append(b, false), Finish(b));
    assert Next(Next(s, Append(b, false)), Finish(b)).calls == s.calls[b := Call(Over(false, true), false)];
  }

  /** While the gate is open a record call can always go through, and is answered as its append went. */
  lemma {:induction false} OpenGateServes(s: Sink, b: Id, ok: bool)
    requires s.open && !s.closing && b !in s.calls
    ensures AllEnabled(s, OneCall(b, ok))
    ensures At(Run(s, OneCall(b, ok)), b, Over(ok, true))
    ensures Run(s, OneCall(b, ok)).appended == if ok then s.appended + [b] else s.appended
  {
    hide AllEnabled, Run;
    var admitted := Next(Next(s, Arrive(b)), Admit(b));
    var rest := if ok then [Append(b, true), Ingest(b)] + [Notify(b), Finish(b)] else [Append(b, false), Finish(b)];
    assert OneCall(b, ok) == [Arrive(b), Admit(b)] + rest;
    TwoMore(s, Arrive(b), Admit(b), rest);
    if ok {
      StoredCallRuns(admitted, b);
    } else {
      FailedCallRuns(admitted, b);
    }
  }

  /** A call that arrives after the gate has closed is answered with an error and leaves no trace. */
  lemma {:induction false} ClosedGateRefuses(s: Sink, b: Id)
    requires !s.open && !s.closing && b !in s.calls
    ensures AllEnabled(s, [Arrive(b), Admit(b)])
    ensures Run(s, [Arrive(b), Admit(b)]) == s.(calls := s.calls[b := Call(Over(false, true), false)])
  {
    hide AllEnabled, Run;
    TwoSteps(s, Arrive(b), Admit(b));
    assert Next(Next(s, Arrive(b)), Admit(b)).calls == s.calls[b := Call(Over(false, true), false)];
  }
}
