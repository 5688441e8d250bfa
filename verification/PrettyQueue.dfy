/** Handing rendered batches to the one task that writes them out, without ever waiting for it.
    Every step is an atomic operation that other callers and the writer can fall between. */
module PrettyQueue {
  import opened Basics
  import opened Tally

  const QUEUE_CAPACITY: nat := 256
  const QUEUE_MAX_BYTES: nat := 64 * 1024 * 1024

  datatype DropReason = WriterStopped | QueueFull | ByteBudget

  /** Where a caller of enqueue is. Bytes are reserved before anything is decided. */
  datatype Phase =
    | Reserved(over: bool)
    | Sending
    | Rejecting(reason: DropReason)
    | Refunded(reason: DropReason)
    | Accepted
    | Dropped(reason: DropReason)

  datatype Call = Call(len: nat, phase: Phase)

  /** A queued batch, or the marker shutdown waits for. */
  datatype Job = Batch(call: nat, len: nat) | Marker

  /** `accepted`, `written` and `lost` are histories; the rest is the program's state. */
  datatype Output = Output(calls: seq<Call>, queue: seq<Job>, hand: Option<Job>, closed: bool,
                           queuedBytes: nat, dropped: nat,
                           accepted: seq<Job>, written: seq<Job>, lost: seq<Job>)

  const START: Output := Output([], [], None, false, 0, 0, [], [], [])

  datatype Step =
    | Reserve(len: nat)
    | Check(i: nat)
    | Send(i: nat)
    | Refund(i: nat)
    | Count(i: nat)
    | SendMarker
    | Take
    | Written
    | Stop

  predicate In(s: Output, i: nat) {
    i < |s.calls|
  }

  predicate Enabled(s: Output, step: Step) {
    match step
    case Reserve(_) => true
    case Check(i) => In(s, i) && s.calls[i].phase.Reserved?
    case Send(i) => In(s, i) && s.calls[i].phase.Sending?
    case Refund(i) => In(s, i) && s.calls[i].phase.Rejecting?
    case Count(i) => In(s, i) && s.calls[i].phase.Refunded?
    case SendMarker => !s.closed && |s.queue| < QUEUE_CAPACITY
    case Take => !s.closed && s.hand.None? && s.queue != []
    case Written => !s.closed && s.hand.Some?
    case Stop => !s.closed
  }

  function Len(j: Job): nat {
    if j.Batch? then j.len else 0
  }

  function Moved(s: Output, i: nat, phase: Phase): Output
    requires In(s, i)
  {
    s.(calls := s.calls[i := s.calls[i].(phase := phase)])
  }

  function Pushed(s: Output, j: Job): Output {
    s.(queue := s.queue + [j], accepted := s.accepted + [j])
  }

  function Less(a: nat, b: nat): nat {
    if a < b then 0 else a - b
  }

  function Next(s: Output, step: Step): Output
    requires Enabled(s, step)
  {
    match step
    case Reserve(len) =>
      s.(calls := s.calls + [Call(len, Reserved(s.queuedBytes + len > QUEUE_MAX_BYTES))],
         queuedBytes := s.queuedBytes + len)
    case Check(i) =>
      if s.closed then Moved(s, i, Rejecting(WriterStopped))
      else if s.calls[i].phase.over then Moved(s, i, Rejecting(ByteBudget))
      else Moved(s, i, Sending)
    case Send(i) =>
      if s.closed then Moved(s, i, Rejecting(WriterStopped))
      else if |s.queue| == QUEUE_CAPACITY then Moved(s, i, Rejecting(QueueFull))
      else Pushed(Moved(s, i, Accepted), Batch(i, s.calls[i].len))
    case Refund(i) =>
      Moved(s, i, Refunded(s.calls[i].phase.reason)).(queuedBytes := Less(s.queuedBytes, s.calls[i].len))
    case Count(i) => Moved(s, i, Dropped(s.calls[i].phase.reason)).(dropped := s.dropped + 1)
    case SendMarker => Pushed(s, Marker)
    case Take => s.(hand := Some(s.queue[0]), queue := s.queue[1..])
    case Written =>
      s.(hand := None, written := s.written + [s.hand.value], queuedBytes := Less(s.queuedBytes, Len(s.hand.value)))
    case Stop => s.(closed := true, hand := None, queue := [], lost := InHand(s) + s.queue)
  }

  function InHand(s: Output): seq<Job> {
    if s.hand.Some? then [s.hand.value] else []
  }

  ghost predicate AllEnabled(s: Output, steps: seq<Step>)
    decreases |steps|
  {
    steps != [] ==> AllEnabled(s, steps[..|steps| - 1]) && Enabled(Run(s, steps[..|steps| - 1]), steps[|steps| - 1])
  }

  function Run(s: Output, steps: seq<Step>): Output
    decreases |steps|
  {
    if steps == [] then s
    else
      var before := Run(s, steps[..|steps| - 1]);
      if Enabled(before, steps[|steps| - 1]) then Next(before, steps[|steps| - 1]) else before
  }

  // Accounts

  /** Bytes reserved by a call that is still deciding. */
  function Reserving(c: Call): nat {
    if c.phase.Reserved? || c.phase.Sending? || c.phase.Rejecting? then c.len else 0
  }

  /** Bytes a call may still put into the queue. */
  function MayEnter(c: Call): nat {
    if c.phase == Reserved(false) || c.phase.Sending? then c.len else 0
  }

  function IsDropped(c: Call): nat {
    if c.phase.Dropped? then 1 else 0
  }

  function IsAccepted(c: Call): nat {
    if c.phase.Accepted? then 1 else 0
  }

  function IsBatch(j: Job): nat {
    if j.Batch? then 1 else 0
  }

  /** Accepted and neither written nor lost. */
  function Held(s: Output): nat {
    Total(s.queue, Len) + Total(InHand(s), Len)
  }

  ghost predicate Sound(s: Output) {
    && s.queuedBytes == Held(s) + Total(s.lost, Len) + Total(s.calls, Reserving)
    && Held(s) + Total(s.lost, Len) + Total(s.calls, MayEnter) <= QUEUE_MAX_BYTES
    && |s.queue| <= QUEUE_CAPACITY
    && s.dropped == Total(s.calls, IsDropped)
    && Total(s.accepted, IsBatch) == Total(s.calls, IsAccepted)
    && s.accepted == s.written + InHand(s) + s.queue + s.lost
    && (if s.closed then s.queue == [] && s.hand.None? else s.lost == [])
  }

  lemma {:induction false} CallMoves(s: Output, i: nat, phase: Phase)
    requires In(s, i)
    ensures var c, d, t := s.calls[i], s.calls[i].(phase := phase), Moved(s, i, phase);
            && Total(t.calls, Reserving) == Total(s.calls, Reserving) - Reserving(c) + Reserving(d)
            && Total(t.calls, MayEnter) == Total(s.calls, MayEnter) - MayEnter(c) + MayEnter(d)
            && Total(t.calls, IsDropped) == Total(s.calls, IsDropped) - IsDropped(c) + IsDropped(d)
            && Total(t.calls, IsAccepted) == Total(s.calls, IsAccepted) - IsAccepted(c) + IsAccepted(d)
  {
    var d := s.calls[i].(phase := phase);
    TotalSet(s.calls, i, d, Reserving);
    TotalSet(s.calls, i, d, MayEnter);
    TotalSet(s.calls, i, d, IsDropped);
    TotalSet(s.calls, i, d, IsAccepted);
  }

  lemma {:induction false} CallArrives(s: Output, c: Call)
    ensures Total(s.calls + [c], Reserving) == Total(s.calls, Reserving) + Reserving(c)
    ensures Total(s.calls + [c], MayEnter) == Total(s.calls, MayEnter) + MayEnter(c)
    ensures Total(s.calls + [c], IsDropped) == Total(s.calls, IsDropped) + IsDropped(c)
    ensures Total(s.calls + [c], IsAccepted) == Total(s.calls, IsAccepted) + IsAccepted(c)
  {
    TotalMore(s.calls, c, Reserving);
    TotalMore(s.calls, c, MayEnter);
    TotalMore(s.calls, c, IsDropped);
    TotalMore(s.calls, c, IsAccepted);
  }

  lemma {:induction false} PushSound(s: Output, j: Job)
    ensures var t := Pushed(s, j);
            && Held(t) == Held(s) + Len(j)
            && Total(t.accepted, IsBatch) == Total(s.accepted, IsBatch) + IsBatch(j)
  {
    hide Total;
    TotalMore(s.queue, j, Len);
    TotalMore(s.accepted, j, IsBatch);
  }

  lemma {:induction false} NothingTotal()
    ensures Total([], Len) == 0
    ensures forall j: Job :: Total([j], Len) == Len(j)
  {
    forall j: Job ensures Total([j], Len) == Len(j) {
      assert [j][..0] == [];
    }
  }

  /** Fewer bytes may enter than are reserved. */
  lemma {:induction false} EnteringIsReserved(s: Output)
    ensures Total(s.calls, MayEnter) <= Total(s.calls, Reserving)
  {
    TotalSame(s.calls, MayEnter, Reserving);
  }

  lemma {:induction false} CallerStepSound(s: Output, step: Step)
    requires Sound(s) && Enabled(s, step) && (step.Check? || step.Send? || step.Refund? || step.Count?)
    ensures Sound(Next(s, step))
  {
    hide Total;
    var t := Next(s, step);
    CallMoves(s, step.i, t.calls[step.i].phase);
    if step.Send? {
      var moved := Moved(s, step.i, t.calls[step.i].phase);
      PushSound(moved, Batch(step.i, s.calls[step.i].len));
    }
  }

  lemma {:induction false} WriterStepSound(s: Output, step: Step)
    requires Sound(s) && Enabled(s, step) && (step.Take? || step.Written? || step.Stop?)
    ensures Sound(Next(s, step))
  {
    hide Total;
    NothingTotal();
    if step.Take? {
      TotalFirst(s.queue, Len);
      assert s.queue == [s.queue[0]] + s.queue[1..];
    } else if step.Stop? {
      TotalConcat(InHand(s), s.queue, Len);
      assert s.written + (InHand(s) + s.queue) == s.written + InHand(s) + s.queue;
    }
  }

  lemma {:induction false} StepSound(s: Output, step: Step)
    requires Sound(s) && Enabled(s, step)
    ensures Sound(Next(s, step))
  {
    hide Total;
    match step
    case Reserve(len) =>
      CallArrives(s, Call(len, Reserved(s.queuedBytes + len > QUEUE_MAX_BYTES)));
      EnteringIsReserved(s);
    case SendMarker =>
      PushSound(s, Marker);
    case Take => WriterStepSound(s, step);
    case Written => WriterStepSound(s, step);
    case Stop => WriterStepSound(s, step);
    case _ => CallerStepSound(s, step);
  }

  lemma {:induction false} RunSound(steps: seq<Step>)
    requires AllEnabled(START, steps)
    ensures Sound(Run(START, steps))
  {
    if steps != [] {
      RunSound(steps[..|steps| - 1]);
      StepSound(Run(START, steps[..|steps| - 1]), steps[|steps| - 1]);
    }
  }

  /** In every interleaving: what is queued or being written never exceeds the byte budget nor the
      queue's depth; the counter is those bytes, plus what callers have reserved and not yet settled,
      plus what a stopped writer left; batches are written in the order they were accepted, none
      twice; and every call that has returned was either accepted once or counted as dropped once. */
  lemma {:induction false} Accounting(steps: seq<Step>)
    requires AllEnabled(START, steps)
    ensures var s := Run(START, steps);
            && Held(s) <= QUEUE_MAX_BYTES && |s.queue| <= QUEUE_CAPACITY
            && s.queuedBytes == Held(s) + Total(s.lost, Len) + Total(s.calls, Reserving)
            && s.written <= s.accepted && s.accepted == s.written + InHand(s) + s.queue + s.lost
            && Total(s.accepted, IsBatch) == Total(s.calls, IsAccepted)
            && s.dropped == Total(s.calls, IsDropped)
            && ((forall c | c in s.calls :: c.phase.Accepted? || c.phase.Dropped?) ==>
                |s.calls| == Total(s.accepted, IsBatch) + s.dropped)
  {
    RunSound(steps);
    var s := Run(START, steps);
    if forall c | c in s.calls :: c.phase.Accepted? || c.phase.Dropped? {
      Settled(s.calls);
    }
  }

  lemma {:induction false} Settled(calls: seq<Call>)
    requires forall c | c in calls :: c.phase.Accepted? || c.phase.Dropped?
    ensures |calls| == Total(calls, IsAccepted) + Total(calls, IsDropped)
    ensures Total(calls, Reserving) == 0
  {
    if calls != [] {
      Settled(calls[..|calls| - 1]);
    }
  }

  /** When every caller has returned and a running writer has caught up, the counter is back at zero:
      rejected batches leave nothing behind. */
  lemma {:induction false} NothingLeaks(steps: seq<Step>)
    requires AllEnabled(START, steps)
    requires var s := Run(START, steps);
             && !s.closed && s.queue == [] && s.hand.None?
             && forall c | c in s.calls :: c.phase.Accepted? || c.phase.Dropped?
    ensures Run(START, steps).queuedBytes == 0
  {
    RunSound(steps);
    Settled(Run(START, steps).calls);
    NothingTotal();
  }

  /** When shutdown's marker has been handled, everything accepted before it is written. */
  lemma {:induction false} MarkerMeansWritten(steps: seq<Step>, k: nat)
    requires AllEnabled(START, steps)
    requires k < |Run(START, steps).written| && Run(START, steps).written[k].Marker?
    ensures var s := Run(START, steps);
            && s.written <= s.accepted && s.accepted[k] == Marker && s.written[..k] == s.accepted[..k]
  {
    RunSound(steps);
  }

  // The writer catches up

  /** What the writer does with what is queued when no one else interferes. */
  function WriteAll(s: Output): seq<Step> {
    if s.hand.Some? then [Written] + WriteQueue(|s.queue|) else WriteQueue(|s.queue|)
  }

  function WriteQueue(n: nat): seq<Step> {
    if n == 0 then [] else [Take, Written] + WriteQueue(n - 1)
  }

  lemma {:induction false} RunFirst(s: Output, step: Step, steps: seq<Step>)
    requires Enabled(s, step)
    ensures Run(s, [step] + steps) == Run(Next(s, step), steps)
    ensures AllEnabled(Next(s, step), steps) ==> AllEnabled(s, [step] + steps)
    decreases |steps|
  {
    hide Enabled, Next;
    var all := [step] + steps;
    if steps == [] {
      assert all[..0] == [];
    } else {
      assert all[..|all| - 1] == [step] + steps[..|steps| - 1];
      RunFirst(s, step, steps[..|steps| - 1]);
    }
  }

  /** The queue is written, in order, and nothing else changes hands. */
  predicate WroteAll(s: Output, t: Output) {
    && t.queue == [] && t.hand.None? && !t.closed
    && t.written == s.written + InHand(s) + s.queue
    && t.accepted == s.accepted && t.calls == s.calls && t.dropped == s.dropped && t.lost == s.lost
  }

  lemma {:induction false} WriteQueueMore(n: nat)
    requires n > 0
    ensures WriteQueue(n) == [Take] + ([Written] + WriteQueue(n - 1))
  {
  }

  /** One batch from the queue to the output. */
  lemma {:induction false} OneIsWritten(s: Output)
    requires !s.closed && s.hand.None? && s.queue != []
    ensures Enabled(s, Take) && Enabled(Next(s, Take), Written)
    ensures var t := Next(Next(s, Take), Written);
            && t == s.(queue := s.queue[1..], written := s.written + [s.queue[0]], queuedBytes := t.queuedBytes)
            && forall u | WroteAll(t, u) :: WroteAll(s, u)
  {
    assert s.queue == [s.queue[0]] + s.queue[1..];
  }

  lemma {:induction false} QueueIsWritten(s: Output)
    requires !s.closed && s.hand.None?
    ensures AllEnabled(s, WriteQueue(|s.queue|)) && WroteAll(s, Run(s, WriteQueue(|s.queue|)))
    decreases |s.queue|
  {
    hide Next, Enabled, WroteAll;
    if s.queue == [] {
      NothingToWrite(s);
    } else {
      OneIsWritten(s);
      var taken, rest := Next(s, Take), WriteQueue(|s.queue| - 1);
      QueueIsWritten(Next(taken, Written));
      WriteQueueMore(|s.queue|);
      RunFirst(taken, Written, rest);
      RunFirst(s, Take, [Written] + rest);
    }
  }

  lemma {:induction false} NothingToWrite(s: Output)
    requires !s.closed && s.hand.None? && s.queue == []
    ensures WroteAll(s, s)
  {
  }

  /** A writer that has not stopped can always write everything that was accepted, in that order, and
      with every caller returned the byte counter is then zero. */
  lemma {:induction false} WriterCatchesUp(steps: seq<Step>)
    requires AllEnabled(START, steps) && !Run(START, steps).closed
    ensures var s := Run(START, steps);
            && AllEnabled(s, WriteAll(s))
            && WroteAll(s, Run(s, WriteAll(s))) && Run(s, WriteAll(s)).written == s.accepted
  {
    hide AllEnabled, Run, Total, WriteQueue, Next;
    RunSound(steps);
    HandThenQueue(Run(START, steps));
  }

  lemma {:induction false} HandThenQueue(s: Output)
    requires !s.closed
    ensures AllEnabled(s, WriteAll(s)) && WroteAll(s, Run(s, WriteAll(s)))
  {
    hide AllEnabled, Run, WriteQueue;
    if s.hand.Some? {
      QueueIsWritten(Next(s, Written));
      RunFirst(s, Written, WriteQueue(|s.queue|));
    } else {
      QueueIsWritten(s);
    }
  }

  /** One call of enqueue that nothing interrupts. */
  function Whole(s: Output, len: nat): Output {
    var i := |s.calls|;
    var checked := Next(Next(s, Reserve(len)), Check(i));
    var decided := if checked.calls[i].phase.Sending? then Next(checked, Send(i)) else checked;
    if decided.calls[i].phase.Rejecting? then Next(Next(decided, Refund(i)), Count(i)) else decided
  }

  class PrettyOutput {
    var queue: seq<Job>
    var closed: bool
    var queuedBytes: nat
    var dropped: nat
    /** Everything else the steps speak of. */
    ghost var rest: Output

    ghost function Abs(): Output
      reads this
    {
      rest.(queue := queue, closed := closed, queuedBytes := queuedBytes, dropped := dropped)
    }

    constructor ()
      ensures Abs() == START
    {
      queue, closed, queuedBytes, dropped, rest := [], false, 0, 0, START;
    }

    /** `i` numbers the calls. */
    method Enqueue(i: nat, len: nat) returns (reason: Option<DropReason>)
      requires i == |rest.calls|
      modifies this
      ensures Abs() == Whole(old(Abs()), len)
      ensures reason == Some(WriterStopped) <==> old(closed)
      ensures reason == Some(ByteBudget) <==> !old(closed) && old(queuedBytes) + len > 67_108_864
      ensures reason == Some(QueueFull) <==>
              !old(closed) && old(queuedBytes) + len <= 67_108_864 && |old(queue)| == 256
      ensures reason == None ==>
                && queue == old(queue) + [Batch(i, len)]
                && queuedBytes == old(queuedBytes) + len && dropped == old(dropped)
      ensures reason != None ==>
                queue == old(queue) && queuedBytes == old(queuedBytes) && dropped == old(dropped) + 1
      ensures closed == old(closed)
    {
      var queued := queuedBytes;
      queuedBytes := queuedBytes + len;
      var over := queued + len > QUEUE_MAX_BYTES;
      if closed {
        reason := Some(WriterStopped);
      } else if over {
        reason := Some(ByteBudget);
      } else if |queue| == QUEUE_CAPACITY {
        reason := Some(QueueFull);
      } else {
        queue := queue + [Batch(i, len)];
        rest := rest.(accepted := rest.accepted + [Batch(i, len)]);
        reason := None;
      }
      if reason.Some? {
        queuedBytes := queuedBytes - len;
        dropped := dropped + 1;
      }
      rest := rest.(calls := rest.calls + [Call(len, if reason.Some? then Dropped(reason.value) else Accepted)]);
      assert rest.calls == Whole(old(Abs()), len).calls;
    }
  }
}
