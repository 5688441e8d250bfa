/** The slots that limit how many requests are handled at once, and the limit on those that wait for
    one. A freed slot is handed to the first in line before anyone else can take it. */
module Admission {
  import opened Tally

  const USIZE_MAX: nat := 0xFFFF_FFFF_FFFF_FFFF

  datatype Why = Busy | TimedOut | Gone

  /** Where a request is. From `Entered` on it is counted as waiting until it has left; `Denied` is
      counted too, but only until it takes itself off again. */
  datatype Phase =
    | Arrived
    | NoSlot
    | Denied
    | Entered
    | Queued
    | Granted
    | LeavingWith
    | LeavingWithout(why: Why)
    | Permit(clones: nat)
    | Returned
    | Rejected(why: Why)

  datatype Handling = Got | Gave

  /** `slots` is the history of the slots the request was given and gave back. */
  datatype Call = Call(phase: Phase, slots: seq<Handling>)

  datatype Limits = Limits(available: nat, waiting: nat, maxWaiting: nat, line: seq<nat>, calls: seq<Call>)

  /** Eight for each request that may be handled at once. */
  function MaxWaiting(maxInflight: nat): nat {
    if maxInflight * 8 < USIZE_MAX then maxInflight * 8 else USIZE_MAX
  }

  function Start(maxInflight: nat): Limits {
    Limits(maxInflight, 0, MaxWaiting(maxInflight), [], [])
  }

  datatype Step =
    | Arrive
    | TryAcquire(i: nat)
    | Enter(i: nat)
    | Deny(i: nat)
    | Acquire(i: nat)
    | Take(i: nat)
    | TimeOut(i: nat)
    | Cancel(i: nat)
    | Leave(i: nat)
    | Clone(i: nat)
    | Drop(i: nat)

  predicate At(s: Limits, i: nat, phase: Phase) {
    i < |s.calls| && s.calls[i].phase == phase
  }

  predicate Enabled(s: Limits, step: Step) {
    match step
    case Arrive => true
    case TryAcquire(i) => At(s, i, Arrived)
    case Enter(i) => At(s, i, NoSlot)
    case Deny(i) => At(s, i, Denied)
    case Acquire(i) => At(s, i, Entered)
    case Take(i) => At(s, i, Granted)
    case TimeOut(i) => At(s, i, Queued)
    case Cancel(i) => At(s, i, Queued) || At(s, i, Granted)
    case Leave(i) => i < |s.calls| && (s.calls[i].phase.LeavingWith? || s.calls[i].phase.LeavingWithout?)
    case Clone(i) => i < |s.calls| && s.calls[i].phase.Permit?
    case Drop(i) => i < |s.calls| && s.calls[i].phase.Permit?
  }

  function Without(line: seq<nat>, i: nat): seq<nat> {
    if line == [] then []
    else
      var front, last := Without(line[..|line| - 1], i), line[|line| - 1];
      if last == i then front else front + [last]
  }

  function To(c: Call, phase: Phase): Call {
    Call(phase, c.slots)
  }

  function WithSlot(c: Call, phase: Phase): Call {
    Call(phase, c.slots + [Got])
  }

  function WithoutSlot(c: Call, phase: Phase): Call {
    Call(phase, c.slots + [Gave])
  }

  /** One request moves, and with it the counters and the line. */
  function Set(s: Limits, i: nat, c: Call, available: nat, waiting: nat, line: seq<nat>): Limits
    requires i < |s.calls|
  {
    Limits(available, waiting, s.maxWaiting, line, s.calls[i := c])
  }

  /** A slot comes back: the first in line gets it, or it is free. */
  function Released(s: Limits): Limits {
    if s.line == [] || s.line[0] >= |s.calls| then Limits(s.available + 1, s.waiting, s.maxWaiting, s.line, s.calls)
    else Set(s, s.line[0], WithSlot(s.calls[s.line[0]], Granted), s.available, s.waiting, s.line[1..])
  }

  function GaveBack(s: Limits, i: nat, phase: Phase): Limits
    requires i < |s.calls|
  {
    Released(Set(s, i, WithoutSlot(s.calls[i], phase), s.available, s.waiting, s.line))
  }

  function OutOfLine(s: Limits, i: nat, why: Why): Limits
    requires i < |s.calls|
  {
    Set(s, i, To(s.calls[i], LeavingWithout(why)), s.available, s.waiting, Without(s.line, i))
  }

  function Left(phase: Phase): Phase {
    if phase.LeavingWithout? then Rejected(phase.why) else Permit(1)
  }

  function Fewer(n: nat): nat {
    if n == 0 then 0 else n - 1
  }

  function Next(s: Limits, step: Step): Limits
    requires Enabled(s, step)
  {
    match step
    case Arrive => Limits(s.available, s.waiting, s.maxWaiting, s.line, s.calls + [Call(Arrived, [])])
    case TryAcquire(i) =>
      if s.available > 0 then Set(s, i, WithSlot(s.calls[i], Permit(1)), s.available - 1, s.waiting, s.line)
      else Set(s, i, To(s.calls[i], NoSlot), s.available, s.waiting, s.line)
    case Enter(i) =>
      Set(s, i, To(s.calls[i], if s.waiting + 1 > s.maxWaiting then Denied else Entered), s.available, s.waiting + 1,
          s.line)
    case Deny(i) => Set(s, i, To(s.calls[i], Rejected(Busy)), s.available, Fewer(s.waiting), s.line)
    case Acquire(i) =>
      if s.available > 0 then Set(s, i, WithSlot(s.calls[i], LeavingWith), s.available - 1, s.waiting, s.line)
      else Set(s, i, To(s.calls[i], Queued), s.available, s.waiting, s.line + [i])
    case Take(i) => Set(s, i, To(s.calls[i], LeavingWith), s.available, s.waiting, s.line)
    case TimeOut(i) => OutOfLine(s, i, TimedOut)
    case Cancel(i) =>
      // A request that goes away in line leaves it; one that was just given a slot passes it on.
      if s.calls[i].phase.Queued? then OutOfLine(s, i, Gone) else GaveBack(s, i, LeavingWithout(Gone))
    case Leave(i) => Set(s, i, To(s.calls[i], Left(s.calls[i].phase)), s.available, Fewer(s.waiting), s.line)
    case Clone(i) => Set(s, i, To(s.calls[i], Permit(s.calls[i].phase.clones + 1)), s.available, s.waiting, s.line)
    case Drop(i) =>
      if s.calls[i].phase.clones > 1 then
        Set(s, i, To(s.calls[i], Permit(s.calls[i].phase.clones - 1)), s.available, s.waiting, s.line)
      else GaveBack(s, i, Returned)
  }

  ghost predicate AllEnabled(s: Limits, steps: seq<Step>)
    decreases |steps|
  {
    steps != [] ==> AllEnabled(s, steps[..|steps| - 1]) && Enabled(Run(s, steps[..|steps| - 1]), steps[|steps| - 1])
  }

  function Run(s: Limits, steps: seq<Step>): Limits
    decreases |steps|
  {
    if steps == [] then s
    else
      var before := Run(s, steps[..|steps| - 1]);
      if Enabled(before, steps[|steps| - 1]) then Next(before, steps[|steps| - 1]) else before
  }

  // Accounts

  /** The request has a slot: a permit with a live clone, or one on its way to it. */
  function Holds(c: Call): nat {
    if c.phase.Permit? || c.phase.LeavingWith? || c.phase.Granted? then 1 else 0
  }

  /** Let in to wait and not yet gone. */
  function Waits(c: Call): nat {
    if c.phase.Entered? || c.phase.Queued? || c.phase.Granted? || c.phase.LeavingWith? || c.phase.LeavingWithout?
      then 1 else 0
  }

  function IsDenied(c: Call): nat {
    if c.phase.Denied? then 1 else 0
  }

  /** A slot is given at most once, and is back, once, exactly when the request no longer holds it;
      a permit has a live clone. */
  predicate CallSound(c: Call) {
    match c.phase
    case Permit(clones) => clones >= 1 && c.slots == [Got]
    case Granted => c.slots == [Got]
    case LeavingWith => c.slots == [Got]
    case Returned => c.slots == [Got, Gave]
    case LeavingWithout(_) => c.slots == [] || c.slots == [Got, Gave]
    case Rejected(_) => c.slots == [] || c.slots == [Got, Gave]
    case _ => c.slots == []
  }

  predicate CallsSound(calls: seq<Call>) {
    forall c | c in calls :: CallSound(c)
  }

  predicate LineSound(calls: seq<Call>, line: seq<nat>) {
    && (forall k | 0 <= k < |line| :: line[k] < |calls| && calls[line[k]].phase.Queued?)
    && (forall j, k | 0 <= j < k < |line| :: line[j] != line[k])
    && (forall i | 0 <= i < |calls| && calls[i].phase.Queued? :: i in line)
  }

  predicate Sound(s: Limits, maxInflight: nat) {
    && s.available + Total(s.calls, Holds) == maxInflight
    && s.waiting == Total(s.calls, Waits) + Total(s.calls, IsDenied)
    && Total(s.calls, Waits) <= s.maxWaiting == MaxWaiting(maxInflight)
    && CallsSound(s.calls)
    && LineSound(s.calls, s.line)
    && (s.line != [] ==> s.available == 0)
  }

  lemma {:induction false} PutCounts(calls: seq<Call>, i: nat, d: Call)
    requires i < |calls|
    ensures Total(calls[i := d], Holds) == Total(calls, Holds) - Holds(calls[i]) + Holds(d)
    ensures Total(calls[i := d], Waits) == Total(calls, Waits) - Waits(calls[i]) + Waits(d)
    ensures Total(calls[i := d], IsDenied) == Total(calls, IsDenied) - IsDenied(calls[i]) + IsDenied(d)
  {
    TotalSet(calls, i, d, Holds);
    TotalSet(calls, i, d, Waits);
    TotalSet(calls, i, d, IsDenied);
  }

  lemma {:induction false} CallIsSound(calls: seq<Call>, i: nat)
    requires CallsSound(calls) && i < |calls|
    ensures CallSound(calls[i])
  {
    assert calls[i] in calls;
  }

  lemma {:induction false} CallsStaySound(calls: seq<Call>, i: nat, d: Call)
    requires CallsSound(calls) && i < |calls| && CallSound(d)
    ensures CallsSound(calls[i := d])
  {
  }

  lemma {:induction false} LineHead(calls: seq<Call>, line: seq<nat>)
    requires LineSound(calls, line) && line != []
    ensures line[0] < |calls| && calls[line[0]].phase.Queued?
  {
  }

  lemma {:induction false} AtMostTotal(calls: seq<Call>, i: nat, w: Call -> nat)
    requires i < |calls|
    ensures w(calls[i]) <= Total(calls, w)
  {
    if i < |calls| - 1 {
      AtMostTotal(calls[..|calls| - 1], i, w);
    }
  }

  lemma {:induction false} WithoutIs(line: seq<nat>, i: nat)
    ensures forall j :: j in Without(line, i) <==> j in line && j != i
    ensures (forall j, k | 0 <= j < k < |line| :: line[j] != line[k]) ==>
              forall j, k | 0 <= j < k < |Without(line, i)| :: Without(line, i)[j] != Without(line, i)[k]
  {
    if line != [] {
      var front, last := line[..|line| - 1], line[|line| - 1];
      WithoutIs(front, i);
      assert line == front + [last];
      if forall j, k | 0 <= j < k < |line| :: line[j] != line[k] {
        assert last !in front;
        assert last !in Without(front, i);
      }
    }
  }

  /** Moves that neither enter nor leave the line. */
  lemma {:induction false} LineStays(calls: seq<Call>, line: seq<nat>, i: nat, d: Call)
    requires LineSound(calls, line) && i < |calls| && !calls[i].phase.Queued? && !d.phase.Queued?
    ensures LineSound(calls[i := d], line)
  {
  }

  lemma {:induction false} LineLoses(calls: seq<Call>, line: seq<nat>, i: nat, d: Call)
    requires LineSound(calls, line) && i < |calls| && !d.phase.Queued?
    ensures LineSound(calls[i := d], Without(line, i))
  {
    WithoutIs(line, i);
    var rest := Without(line, i);
    forall k | 0 <= k < |rest| ensures rest[k] < |calls| && calls[i := d][rest[k]].phase.Queued? {
      assert rest[k] in rest;
    }
  }

  lemma {:induction false} LineGains(calls: seq<Call>, line: seq<nat>, i: nat, d: Call)
    requires LineSound(calls, line) && i < |calls| && !calls[i].phase.Queued? && d.phase.Queued?
    ensures LineSound(calls[i := d], line + [i])
  {
    forall k | 0 <= k < |line| ensures line[k] != i {
    }
  }

  lemma {:induction false} LineServes(calls: seq<Call>, line: seq<nat>, d: Call)
    requires LineSound(calls, line) && line != [] && !d.phase.Queued?
    ensures LineSound(calls[line[0] := d], line[1..])
  {
    forall i | 0 <= i < |calls| && i != line[0] && calls[i].phase.Queued? ensures i in line[1..] {
      assert i in line;
    }
  }

  lemma {:induction false} InCall(s: Limits, maxInflight: nat, i: nat)
    requires Sound(s, maxInflight) && i < |s.calls|
    ensures CallSound(s.calls[i])
    ensures Waits(s.calls[i]) + IsDenied(s.calls[i]) <= s.waiting
  {
    CallIsSound(s.calls, i);
    AtMostTotal(s.calls, i, Waits);
    AtMostTotal(s.calls, i, IsDenied);
  }

  /** One request moves and the counters follow it. What is left to see is what becomes of the line
      and, when a slot is on its way back, who gets it. */
  lemma {:induction false} SetSound(s: Limits, maxInflight: nat, t: Limits, i: nat, d: Call)
    requires Sound(s, maxInflight) && i < |s.calls| && CallSound(d)
    requires t == Set(s, i, d, t.available, t.waiting, t.line)
    requires t.waiting + Waits(s.calls[i]) + IsDenied(s.calls[i]) == s.waiting + Waits(d) + IsDenied(d)
    requires Waits(d) <= Waits(s.calls[i]) || t.waiting <= s.maxWaiting
    requires t.available + Holds(d) == s.available + Holds(s.calls[i])
    requires LineSound(t.calls, t.line) && (t.line != [] ==> t.available == 0)
    ensures Sound(t, maxInflight)
  {
    PutCounts(s.calls, i, d);
    CallsStaySound(s.calls, i, d);
    assert CallsSound(t.calls);
  }

  /** A slot that comes back is free again or given to the first in line, and to no one else. */
  lemma {:induction false} GaveBackSound(s: Limits, maxInflight: nat, t: Limits, i: nat, phase: Phase)
    requires Sound(s, maxInflight) && i < |s.calls| && t == GaveBack(s, i, phase)
    requires (phase == Returned && s.calls[i].phase.Permit?)
             || (phase == LeavingWithout(Gone) && s.calls[i].phase.Granted?)
    ensures Sound(t, maxInflight)
  {
    InCall(s, maxInflight, i);
    var d := WithoutSlot(s.calls[i], phase);
    LineStays(s.calls, s.line, i, d);
    if s.line == [] {
      SetSound(s, maxInflight, t, i, d);
    } else {
      HandOver(s, maxInflight, t, i, d);
    }
  }

  lemma {:induction false} HandOver(s: Limits, maxInflight: nat, t: Limits, i: nat, d: Call)
    requires Sound(s, maxInflight) && i < |s.calls| && s.line != [] && CallSound(d)
    requires Holds(s.calls[i]) == 1 && Holds(d) == 0 && IsDenied(s.calls[i]) == IsDenied(d) == 0
             && Waits(d) == Waits(s.calls[i])
    requires !d.phase.Queued? && !s.calls[i].phase.Queued?
    requires t == Released(Set(s, i, d, s.available, s.waiting, s.line))
    ensures Sound(t, maxInflight)
  {
    var first := s.line[0];
    LineHead(s.calls, s.line);
    InCall(s, maxInflight, first);
    var calls, e := s.calls[i := d], WithSlot(s.calls[first], Granted);
    assert t == Limits(s.available, s.waiting, s.maxWaiting, s.line[1..], calls[first := e]);
    PutCounts(s.calls, i, d);
    PutCounts(calls, first, e);
    assert CallsSound(t.calls) by {
      CallsStaySound(s.calls, i, d);
      CallsStaySound(calls, first, e);
    }
    assert LineSound(t.calls, t.line) by {
      LineStays(s.calls, s.line, i, d);
      LineServes(calls, s.line, e);
    }
  }

  lemma {:induction false} ArrivalCounts(calls: seq<Call>, c: Call)
    ensures Total(calls + [c], Holds) == Total(calls, Holds) + Holds(c)
    ensures Total(calls + [c], Waits) == Total(calls, Waits) + Waits(c)
    ensures Total(calls + [c], IsDenied) == Total(calls, IsDenied) + IsDenied(c)
  {
    TotalMore(calls, c, Holds);
    TotalMore(calls, c, Waits);
    TotalMore(calls, c, IsDenied);
  }

  lemma {:induction false} ArriveSound(s: Limits, maxInflight: nat)
    requires Sound(s, maxInflight)
    ensures Sound(Next(s, Arrive), maxInflight)
  {
    var c, t := Call(Arrived, []), Next(s, Arrive);
    ArrivalCounts(s.calls, c);
    assert LineSound(t.calls, t.line);
    assert CallsSound(t.calls);
  }

  lemma {:induction false} QueueUpSound(s: Limits, maxInflight: nat, t: Limits, i: nat)
    requires Sound(s, maxInflight) && At(s, i, Entered) && s.available == 0
    requires t == Set(s, i, To(s.calls[i], Queued), s.available, s.waiting, s.line + [i])
    ensures Sound(t, maxInflight)
  {
    InCall(s, maxInflight, i);
    LineGains(s.calls, s.line, i, To(s.calls[i], Queued));
    SetSound(s, maxInflight, t, i, To(s.calls[i], Queued));
  }

  lemma {:induction false} OutOfLineSound(s: Limits, maxInflight: nat, t: Limits, i: nat, why: Why)
    requires Sound(s, maxInflight) && At(s, i, Queued) && t == OutOfLine(s, i, why)
    ensures Sound(t, maxInflight)
  {
    InCall(s, maxInflight, i);
    NoOneNew(s.line, i);
    LineLoses(s.calls, s.line, i, To(s.calls[i], LeavingWithout(why)));
    SetSound(s, maxInflight, t, i, To(s.calls[i], LeavingWithout(why)));
  }

  lemma {:induction false} NoOneNew(line: seq<nat>, i: nat)
    ensures Without(line, i) != [] ==> line != []
  {
  }

  /** A move that leaves the line alone. */
  lemma {:induction false} MoveSound(s: Limits, maxInflight: nat, t: Limits, i: nat, d: Call)
    requires Sound(s, maxInflight) && i < |s.calls| && CallSound(d)
    requires t == Set(s, i, d, t.available, t.waiting, s.line)
    requires t.waiting + Waits(s.calls[i]) + IsDenied(s.calls[i]) == s.waiting + Waits(d) + IsDenied(d)
    requires Waits(d) <= Waits(s.calls[i]) || t.waiting <= s.maxWaiting
    requires t.available + Holds(d) == s.available + Holds(s.calls[i]) && t.available <= s.available
    requires !s.calls[i].phase.Queued? && !d.phase.Queued?
    ensures Sound(t, maxInflight)
  {
    LineStays(s.calls, s.line, i, d);
    SetSound(s, maxInflight, t, i, d);
  }

  lemma {:induction false} SlotStepSound(s: Limits, maxInflight: nat, step: Step)
    requires Sound(s, maxInflight) && Enabled(s, step)
    requires step.TryAcquire? || step.Acquire? || step.Clone? || step.Drop?
    ensures Sound(Next(s, step), maxInflight)
  {
    var t, i := Next(s, step), step.i;
    InCall(s, maxInflight, i);
    var c := s.calls[i];
    match step
    case TryAcquire(_) =>
      MoveSound(s, maxInflight, t, i, if s.available > 0 then WithSlot(c, Permit(1)) else To(c, NoSlot));
    case Acquire(_) =>
      if s.available > 0 {
        MoveSound(s, maxInflight, t, i, WithSlot(c, LeavingWith));
      } else {
        QueueUpSound(s, maxInflight, t, i);
      }
    case Clone(_) => MoveSound(s, maxInflight, t, i, To(c, Permit(c.phase.clones + 1)));
    case Drop(_) =>
      if c.phase.clones > 1 {
        MoveSound(s, maxInflight, t, i, To(c, Permit(c.phase.clones - 1)));
      } else {
        GaveBackSound(s, maxInflight, t, i, Returned);
      }
  }

  lemma {:induction false} StepSound(s: Limits, maxInflight: nat, step: Step)
    requires Sound(s, maxInflight) && Enabled(s, step)
    ensures Sound(Next(s, step), maxInflight)
  {
    if step.Arrive? {
      ArriveSound(s, maxInflight);
      return;
    }
    var t, i := Next(s, step), step.i;
    InCall(s, maxInflight, i);
    var c := s.calls[i];
    match step
    case Enter(_) => MoveSound(s, maxInflight, t, i, To(c, if s.waiting + 1 > s.maxWaiting then Denied else Entered));
    case Deny(_) => MoveSound(s, maxInflight, t, i, To(c, Rejected(Busy)));
    case Take(_) => MoveSound(s, maxInflight, t, i, To(c, LeavingWith));
    case TimeOut(_) => OutOfLineSound(s, maxInflight, t, i, TimedOut);
    case Cancel(_) =>
      if c.phase.Queued? {
        OutOfLineSound(s, maxInflight, t, i, Gone);
      } else {
        GaveBackSound(s, maxInflight, t, i, LeavingWithout(Gone));
      }
    case Leave(_) => MoveSound(s, maxInflight, t, i, To(c, Left(c.phase)));
    case _ => SlotStepSound(s, maxInflight, step);
  }

  lemma {:induction false} RunSound(maxInflight: nat, steps: seq<Step>)
    requires AllEnabled(Start(maxInflight), steps)
    ensures Sound(Run(Start(maxInflight), steps), maxInflight)
  {
    if steps != [] {
      RunSound(maxInflight, steps[..|steps| - 1]);
      StepSound(Run(Start(maxInflight), steps[..|steps| - 1]), maxInflight, steps[|steps| - 1]);
    }
  }

  /** In every interleaving of arrivals, clones, drops, timeouts and cancellations: free slots and
      slots in someone's hands add up to the limit; no one waits in line while a slot is free; a slot
      is given to a request at most once and comes back exactly once, with its last clone. */
  lemma {:induction false} SlotsConserved(maxInflight: nat, steps: seq<Step>)
    requires AllEnabled(Start(maxInflight), steps)
    ensures var s := Run(Start(maxInflight), steps);
            && s.available + Total(s.calls, Holds) == maxInflight
            && (s.line != [] ==> s.available == 0)
            && CallsSound(s.calls)
  {
    RunSound(maxInflight, steps);
  }

  /** Those let in to wait never exceed eight times the limit, and the counter is their number plus
      that of the requests just turned away that have not taken themselves off yet. */
  lemma {:induction false} WaitersBounded(maxInflight: nat, steps: seq<Step>)
    requires AllEnabled(Start(maxInflight), steps)
    ensures var s := Run(Start(maxInflight), steps);
            && Total(s.calls, Waits) <= maxInflight * 8
            && s.waiting == Total(s.calls, Waits) + Total(s.calls, IsDenied)
  {
    RunSound(maxInflight, steps);
  }

  function IsPermit(c: Call): nat {
    if c.phase.Permit? then 1 else 0
  }

  lemma {:induction false} WaitersSplit(calls: seq<Call>)
    ensures Total(calls, Holds) <= Total(calls, IsPermit) + Total(calls, Waits)
    ensures Total(calls, IsPermit) <= Total(calls, Holds)
  {
    if calls != [] {
      WaitersSplit(calls[..|calls| - 1]);
    }
  }

  /** When no one is waiting, every slot is free or behind a permit with a live clone. */
  lemma {:induction false} SlotsAtRest(maxInflight: nat, steps: seq<Step>)
    requires AllEnabled(Start(maxInflight), steps)
    requires Total(Run(Start(maxInflight), steps).calls, Waits) == 0
    ensures var s := Run(Start(maxInflight), steps);
            s.available + Total(s.calls, IsPermit) == maxInflight
  {
    RunSound(maxInflight, steps);
    WaitersSplit(Run(Start(maxInflight), steps).calls);
  }

  // Who gets a slot, and who does not

  /** A request finds a slot at once if and only if fewer than the limit are in someone's hands; turned
      to waiting, it is let in if and only if the counter is below eight times the limit. */
  lemma {:induction false} AdmittedIff(maxInflight: nat, steps: seq<Step>, i: nat)
    requires AllEnabled(Start(maxInflight), steps)
    ensures var s := Run(Start(maxInflight), steps);
            && (At(s, i, Arrived) ==>
                  Next(s, TryAcquire(i)).calls[i].phase ==
                  if Total(s.calls, Holds) < maxInflight then Permit(1) else NoSlot)
            && (At(s, i, NoSlot) ==>
                  Next(s, Enter(i)).calls[i].phase ==
                  if s.waiting < maxInflight * 8 && s.waiting < 0xFFFF_FFFF_FFFF_FFFF then Entered else Denied)
            && (At(s, i, Entered) ==>
                  Next(s, Acquire(i)).calls[i].phase ==
                  if Total(s.calls, Holds) < maxInflight then LeavingWith else Queued)
  {
    RunSound(maxInflight, steps);
    hide Run, AllEnabled, CallsSound, LineSound, Total;
  }

  /** When the last clone of a permit is dropped, or a request that was just given a slot goes away, the
      first in line has the slot in the same step; with no one in line it is free. */
  lemma {:induction false} FreedSlotGoesToFirst(maxInflight: nat, steps: seq<Step>, i: nat, step: Step)
    requires AllEnabled(Start(maxInflight), steps)
    requires var s := Run(Start(maxInflight), steps);
             || (step == Drop(i) && At(s, i, Permit(1)))
             || (step == Cancel(i) && At(s, i, Granted))
    ensures var s := Run(Start(maxInflight), steps);
            var t := Next(s, step);
            && |t.calls| == |s.calls| && t.calls[i].slots == [Got, Gave]
            && (if s.line == [] then t.available == s.available + 1 && t.line == []
                else
                  && t.available == 0 && t.line == s.line[1..]
                  && At(s, s.line[0], Queued) && At(t, s.line[0], Granted) && t.calls[s.line[0]].slots == [Got])
  {
    RunSound(maxInflight, steps);
    var s := Run(Start(maxInflight), steps);
    hide Run, AllEnabled, Total;
    CallIsSound(s.calls, i);
    if s.line != [] {
      LineHead(s.calls, s.line);
      CallIsSound(s.calls, s.line[0]);
    }
  }

  predicate AheadIn(line: seq<nat>, i: nat, j: nat) {
    exists q :: 0 <= q < |line| && line[q] == j && i in line[..q]
  }

  lemma {:induction false} AheadMore(line: seq<nat>, k: nat, i: nat, j: nat)
    requires AheadIn(line, i, j)
    ensures AheadIn(line + [k], i, j)
  {
    var q :| 0 <= q < |line| && line[q] == j && i in line[..q];
    assert (line + [k])[..q] == line[..q] && (line + [k])[q] == j;
  }

  lemma {:induction false} AheadWithout(line: seq<nat>, k: nat, i: nat, j: nat)
    requires AheadIn(line, i, j) && k != i && k != j
    ensures AheadIn(Without(line, k), i, j)
  {
    var q :| 0 <= q < |line| && line[q] == j && i in line[..q];
    var front, last := line[..|line| - 1], line[|line| - 1];
    WithoutIs(front, k);
    if q < |line| - 1 {
      assert front[q] == j && front[..q] == line[..q];
      AheadWithout(front, k, i, j);
      if last != k {
        AheadMore(Without(front, k), last, i, j);
      }
    } else {
      assert line[..q] == front;
      var rest := Without(line, k);
      assert rest == Without(front, k) + [j];
      assert rest[..|rest| - 1] == Without(front, k) && rest[|rest| - 1] == j;
    }
  }

  lemma {:induction false} AheadServed(line: seq<nat>, i: nat, j: nat)
    requires AheadIn(line, i, j) && line[0] != i
    ensures line[0] != j || j in line[1..]
    ensures AheadIn(line[1..], i, j)
  {
    var q :| 0 <= q < |line| && line[q] == j && i in line[..q];
    assert q > 0 && line[1..][q - 1] == j;
    assert line[..q] == [line[0]] + line[1..][..q - 1];
  }

  /** Past the line, with or without a slot. */
  predicate PastLine(phase: Phase) {
    phase.Granted? || phase.LeavingWith? || phase.LeavingWithout? || phase.Permit? || phase.Returned? || phase.Rejected?
  }

  /** Request `j` has not overtaken `i`: as long as `i` is in line, `j` is behind it or has given up. */
  predicate NotOvertaken(s: Limits, i: nat, j: nat) {
    && i < |s.calls| && j < |s.calls| && i != j
    && (s.calls[i].phase.Queued? || PastLine(s.calls[i].phase))
    && (s.calls[i].phase.Queued? ==>
          || (s.calls[j].phase.Queued? && AheadIn(s.line, i, j))
          || (s.calls[j].slots == [] && (s.calls[j].phase.LeavingWithout? || s.calls[j].phase.Rejected?)))
  }

  /** A step of a request that is not in line. */
  lemma {:induction false} OutsideStep(s: Limits, maxInflight: nat, step: Step, i: nat, j: nat)
    requires Sound(s, maxInflight) && Enabled(s, step) && NotOvertaken(s, i, j)
    requires !step.Arrive? && !s.calls[step.i].phase.Queued?
    requires !(step.Drop? && s.calls[step.i].phase.clones == 1) && !step.Cancel?
    ensures NotOvertaken(Next(s, step), i, j)
  {
    hide Total, CallsSound, LineSound, AheadIn;
    CallIsSound(s.calls, step.i);
    if step.Acquire? && s.available == 0 && AheadIn(s.line, i, j) {
      AheadMore(s.line, step.i, i, j);
    }
  }

  /** A request leaves the line. */
  lemma {:induction false} LeaverStep(s: Limits, maxInflight: nat, step: Step, i: nat, j: nat)
    requires Sound(s, maxInflight) && Enabled(s, step) && NotOvertaken(s, i, j)
    requires !step.Arrive? && s.calls[step.i].phase.Queued? && (step.TimeOut? || step.Cancel?)
    ensures NotOvertaken(Next(s, step), i, j)
  {
    hide Total, CallsSound, LineSound, AheadIn;
    CallIsSound(s.calls, step.i);
    if step.i != i && step.i != j && AheadIn(s.line, i, j) {
      AheadWithout(s.line, step.i, i, j);
    }
  }

  /** A slot comes back. */
  lemma {:induction false} ReturnStep(s: Limits, maxInflight: nat, step: Step, i: nat, j: nat)
    requires Sound(s, maxInflight) && Enabled(s, step) && NotOvertaken(s, i, j)
    requires (step.Drop? && s.calls[step.i].phase.clones == 1) || (step.Cancel? && s.calls[step.i].phase.Granted?)
    ensures NotOvertaken(Next(s, step), i, j)
  {
    hide Total, CallsSound, LineSound, AheadIn;
    CallIsSound(s.calls, step.i);
    if s.line != [] {
      LineHead(s.calls, s.line);
      CallIsSound(s.calls, s.line[0]);
      HeadIsNot(s.calls, s.line, i, j);
      if s.line[0] != i && AheadIn(s.line, i, j) {
        AheadServed(s.line, i, j);
      }
    }
  }

  lemma {:induction false} HeadIsNot(calls: seq<Call>, line: seq<nat>, i: nat, j: nat)
    requires line != [] && LineSound(calls, line)
    ensures AheadIn(line, i, j) ==> line[0] != j
  {
    if AheadIn(line, i, j) {
      var q :| 0 <= q < |line| && line[q] == j && i in line[..q];
      assert q > 0;
    }
  }

  lemma {:induction false} StepNotOvertaken(s: Limits, maxInflight: nat, step: Step, i: nat, j: nat)
    requires Sound(s, maxInflight) && Enabled(s, step) && NotOvertaken(s, i, j)
    ensures NotOvertaken(Next(s, step), i, j)
  {
    hide Sound, NotOvertaken;
    if step.Arrive? {
      ArrivalNotOvertaking(s, i, j);
    } else if s.calls[step.i].phase.Queued? {
      LeaverStep(s, maxInflight, step, i, j);
    } else if step.Cancel? || (step.Drop? && s.calls[step.i].phase.clones == 1) {
      ReturnStep(s, maxInflight, step, i, j);
    } else {
      OutsideStep(s, maxInflight, step, i, j);
    }
  }

  lemma {:induction false} ArrivalNotOvertaking(s: Limits, i: nat, j: nat)
    requires NotOvertaken(s, i, j)
    ensures NotOvertaken(Next(s, Arrive), i, j)
  {
    hide AheadIn;
  }

  /** Slots are handed out in the order of the line: whatever happens after `i` stands in line before
      `j`, as long as `i` stands there `j` has been given no slot. */
  lemma {:induction false} FirstComeFirstServed(maxInflight: nat, before: seq<Step>, after: seq<Step>, i: nat, j: nat)
    requires AllEnabled(Start(maxInflight), before + after)
    requires AllEnabled(Start(maxInflight), before) && AheadIn(Run(Start(maxInflight), before).line, i, j)
    ensures var s := Run(Start(maxInflight), before + after);
            && NotOvertaken(s, i, j)
            && (At(s, i, Queued) ==> s.calls[j].slots == [])
    decreases |after|
  {
    hide Next, Enabled, NotOvertaken, Sound, AheadIn;
    if after == [] {
      assert before + after == before;
      RunSound(maxInflight, before);
      InLineApart(Run(Start(maxInflight), before), maxInflight, i, j);
    } else {
      var front, step := after[..|after| - 1], after[|after| - 1];
      assert (before + after)[..|before + after| - 1] == before + front;
      FirstComeFirstServed(maxInflight, before, front, i, j);
      RunSound(maxInflight, before + front);
      StepNotOvertaken(Run(Start(maxInflight), before + front), maxInflight, step, i, j);
    }
    RunSound(maxInflight, before + after);
    BehindHasNone(Run(Start(maxInflight), before + after), maxInflight, i, j);
  }

  lemma {:induction false} BehindHasNone(s: Limits, maxInflight: nat, i: nat, j: nat)
    requires Sound(s, maxInflight) && NotOvertaken(s, i, j)
    ensures j < |s.calls| && (At(s, i, Queued) ==> s.calls[j].slots == [])
  {
    hide Total, AheadIn, LineSound;
    CallIsSound(s.calls, j);
  }

  lemma {:induction false} InLineApart(s: Limits, maxInflight: nat, i: nat, j: nat)
    requires Sound(s, maxInflight) && AheadIn(s.line, i, j)
    ensures NotOvertaken(s, i, j)
  {
    hide Total, CallsSound;
    var q :| 0 <= q < |s.line| && s.line[q] == j && i in s.line[..q];
    var p :| 0 <= p < q && s.line[p] == i;
  }

  function Taken(steps: seq<Step>): set<Step> {
    set step | step in steps
  }

  /** Why a request was turned away, told from the steps that were taken. */
  predicate TurnedAway(s: Limits, taken: set<Step>, i: nat) {
    && (Deny(i) in taken <==> At(s, i, Rejected(Busy)))
    && (TimeOut(i) in taken <==> At(s, i, LeavingWithout(TimedOut)) || At(s, i, Rejected(TimedOut)))
    && (Cancel(i) in taken <==> At(s, i, LeavingWithout(Gone)) || At(s, i, Rejected(Gone)))
    && !At(s, i, LeavingWithout(Busy))
  }

  lemma {:induction false} ReturnTurnsAway(s: Limits, maxInflight: nat, taken: set<Step>, step: Step, i: nat)
    requires TurnedAway(s, taken, i) && Sound(s, maxInflight) && Enabled(s, step) && (step.Drop? || step.Cancel?)
    ensures TurnedAway(Next(s, step), taken + {step}, i)
  {
    hide Total, CallsSound, LineSound, Without;
    if s.line != [] {
      LineHead(s.calls, s.line);
    }
  }

  lemma {:induction false} OtherTurnsAway(s: Limits, taken: set<Step>, step: Step, i: nat)
    requires TurnedAway(s, taken, i) && Enabled(s, step) && !step.Drop? && !step.Cancel?
    ensures TurnedAway(Next(s, step), taken + {step}, i)
  {
    hide Without;
  }

  lemma {:induction false} StepTurnsAway(s: Limits, maxInflight: nat, taken: set<Step>, step: Step, i: nat)
    requires TurnedAway(s, taken, i) && Sound(s, maxInflight) && Enabled(s, step)
    ensures TurnedAway(Next(s, step), taken + {step}, i)
  {
    hide TurnedAway, Sound, Next, Enabled;
    if step.Drop? || step.Cancel? {
      ReturnTurnsAway(s, maxInflight, taken, step, i);
    } else {
      OtherTurnsAway(s, taken, step, i);
    }
  }

  /** A request is turned away as busy if and only if it was denied at the limit, as timed out if and only
      if its time ran out in line, and is gone if and only if it went away there. */
  lemma {:induction false} RejectedIff(maxInflight: nat, steps: seq<Step>, i: nat)
    requires AllEnabled(Start(maxInflight), steps)
    ensures TurnedAway(Run(Start(maxInflight), steps), Taken(steps), i)
  {
    hide TurnedAway, Enabled, Next;
    if steps == [] {
      NoneTurnedAway(maxInflight, i);
    } else {
      var front, step := steps[..|steps| - 1], steps[|steps| - 1];
      RejectedIff(maxInflight, front, i);
      RunSound(maxInflight, front);
      StepTurnsAway(Run(Start(maxInflight), front), maxInflight, Taken(front), step, i);
      assert steps == front + [step];
      assert Taken(steps) == Taken(front) + {step};
    }
  }

  lemma {:induction false} NoneTurnedAway(maxInflight: nat, i: nat)
    ensures TurnedAway(Start(maxInflight), Taken([]), i)
  {
  }
}
